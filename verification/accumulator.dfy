/** The running count of held leases that a refresh keeps, and the ledger it stands for. */
module Accumulators {
  import opened Leases
  import opened Projections
  import opened LeaseSets

  /** One entry for each lease counted, under the key of its consumer. */
  datatype Ledger = Ledger(active: multiset<string>, released: multiset<string>, replacing: multiset<string>)
  {
    function Holders(): multiset<string> {
      active + released
    }

    function Total(strat: Strategy): nat {
      Size(strat, Holders())
    }

    function Add(c: string, st: Status): Ledger {
      match st
      case Active => this.(active := active + multiset{c})
      case Released => this.(released := released + multiset{c})
      case _ => this
    }

    function StartReplacement(c: string): Ledger {
      Ledger(active + multiset{c}, released - multiset{c}, replacing + multiset{c})
    }

    function FinishReplacement(c: string): Ledger {
      this.(replacing := replacing - multiset{c})
    }
  }

  lemma AddHolders(led: Ledger, c: string, st: Status)
    ensures var held := led.Add(c, st).Holders();
            if st.Active? || st.Released?
            then held == led.Holders() + multiset{c} && |held| == |led.Holders()| + 1
            else held == led.Holders()
  {
  }

  /** A slot taken over still counts once. */
  lemma StartHolders(led: Ledger, c: string)
    requires c in led.released
    ensures led.StartReplacement(c).Holders() == led.Holders()
  {
  }

  lemma RecountTotal(s: seq<Lease>, led: Ledger, strat: Strategy)
    requires led.active == Keys(Active, s) && led.released == Keys(Released, s)
    ensures led.Total(strat) == Consumption(strat, s)
  {
  }

  const EMPTY_LEDGER := Ledger(multiset{}, multiset{}, multiset{})

  /** Reading a key that is absent from a Go map gives zero. */
  function Count(m: map<string, nat>, c: string): nat {
    if c in m then m[c] else 0
  }

  /** The map holds the multiplicities of the bag, and no zero entries. */
  ghost predicate Counts(m: map<string, nat>, bag: multiset<string>) {
    forall c :: (c in m <==> c in bag) && Count(m, c) == bag[c]
  }

  lemma CountsSize(m: map<string, nat>, bag: multiset<string>)
    requires Counts(m, bag)
    ensures |m| == |Distinct(bag)|
    ensures |m| > 0 <==> bag != multiset{}
  {
    assert m.Keys == Distinct(bag);
    if bag != multiset{} {
      var c :| c in bag;
      assert c in m;
    }
  }

  function Increment(m: map<string, nat>, c: string): map<string, nat> {
    m[c := Count(m, c) + 1]
  }

  /** An entry that reaches zero is deleted. */
  function Decrement(m: map<string, nat>, c: string): map<string, nat>
    requires Count(m, c) > 0
  {
    if m[c] == 1 then m - {c} else m[c := m[c] - 1]
  }

  lemma IncrementCounts(m: map<string, nat>, bag: multiset<string>, c: string)
    requires Counts(m, bag)
    ensures Counts(Increment(m, c), bag + multiset{c})
  {
  }

  lemma DecrementCounts(m: map<string, nat>, bag: multiset<string>, c: string)
    requires Counts(m, bag) && c in bag
    ensures Count(m, c) > 0 && Counts(Decrement(m, c), bag - multiset{c})
  {
  }

  class Accumulator {
    var total: nat
    var active: map<string, nat>
    var released: map<string, nat>
    var consumed: map<string, nat>
    var replacements: map<string, nat>
    ghost var ledger: Ledger

    ghost predicate Valid()
      reads this
    {
      && Counts(active, ledger.active)
      && Counts(released, ledger.released)
      && Counts(consumed, ledger.Holders())
      && Counts(replacements, ledger.replacing)
      && total == |ledger.Holders()|
    }

    constructor ()
      ensures Valid() && ledger == EMPTY_LEDGER
    {
      total := 0;
      active, released, consumed, replacements := map[], map[], map[], map[];
      ledger := EMPTY_LEDGER;
    }

    method Add(consumer: string, status: Status)
      requires Valid()
      modifies this
      ensures Valid() && ledger == old(ledger).Add(consumer, status)
    {
      hide Counts, Increment, Ledger.Holders;
      AddHolders(ledger, consumer, status);
      IncrementCounts(consumed, ledger.Holders(), consumer);
      match status {
        case Active =>
          IncrementCounts(active, ledger.active, consumer);
          total, active := total + 1, Increment(active, consumer);
          consumed := Increment(consumed, consumer);
        case Released =>
          IncrementCounts(released, ledger.released, consumer);
          total, released := total + 1, Increment(released, consumer);
          consumed := Increment(consumed, consumer);
        case _ =>
      }
      ledger := ledger.Add(consumer, status);
    }

    /** Panics in the code when the consumer has no released lease. */
    method StartReplacement(consumer: string)
      requires Valid() && consumer in ledger.released
      modifies this
      ensures Valid() && ledger == old(ledger).StartReplacement(consumer)
    {
      hide Counts, Increment, Decrement, Ledger.Holders;
      StartHolders(ledger, consumer);
      IncrementCounts(replacements, ledger.replacing, consumer);
      IncrementCounts(active, ledger.active, consumer);
      DecrementCounts(released, ledger.released, consumer);
      replacements, active, released, ledger :=
        Increment(replacements, consumer),
        Increment(active, consumer),
        Decrement(released, consumer),
        ledger.StartReplacement(consumer);
    }

    /** Panics in the code when the consumer has no replacement outstanding. */
    method FinishReplacement(consumer: string)
      requires Valid() && consumer in ledger.replacing
      modifies this
      ensures Valid() && ledger == old(ledger).FinishReplacement(consumer)
    {
      hide Counts, Decrement;
      DecrementCounts(replacements, ledger.replacing, consumer);
      replacements := Decrement(replacements, consumer);
      ledger := ledger.FinishReplacement(consumer);
    }

    method Active(consumer: string) returns (n: nat)
      requires Valid()
      ensures n == ledger.active[consumer]
    {
      n := Count(active, consumer);
    }

    method Released(consumer: string) returns (n: nat)
      requires Valid()
      ensures n == ledger.released[consumer]
    {
      n := Count(released, consumer);
    }

    method Replacements(consumer: string) returns (n: nat)
      requires Valid()
      ensures n == ledger.replacing[consumer]
    {
      n := Count(replacements, consumer);
    }

    method ReplacementsRecorded() returns (b: bool)
      requires Valid()
      ensures b <==> ledger.replacing != multiset{}
    {
      CountsSize(replacements, ledger.replacing);
      b := |replacements| > 0;
    }

    method Total(strat: Strategy) returns (n: nat)
      requires Valid()
      ensures n == ledger.Total(strat)
    {
      CountsSize(consumed, ledger.Holders());
      n := if strat == ByConsumer then |consumed| else total;
    }
  }
}
