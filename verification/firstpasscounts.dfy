/** The first pass of a refresh against limits: capacity, order of service, held slots. */
module FirstPassCounts {
  import opened Leases
  import opened Projections
  import opened LeaseSets
  import opened Transactions
  import opened Accumulators
  import opened Refreshing
  import opened FirstPasses

  /** One limit and one strategy for all. */
  ghost predicate Uniform(strat: Strategy, limit: nat, s: seq<Lease>) {
    forall x :: x in s ==> x.strategy == strat && x.limit == limit
  }

  // ------------------------------------------------------------- capacity

  lemma HoldersLast(s: seq<Lease>, n: nat)
    requires n < |s|
    ensures Holders(s[..n + 1]) ==
            Holders(s[..n]) + if s[n].Consumptive() then multiset{s[n].HostUser()} else multiset{}
  {
    assert s[..n + 1][..n] == s[..n];
  }

  lemma ScanHeldHolders(at: Time, st: Scan, l: Lease)
    requires !l.status.Queued?
    ensures ScanStep(at, st, l).0.ledger.Holders() <=
            st.ledger.Holders() + if l.Consumptive() then multiset{l.HostUser()} else multiset{}
  {
    hide Subject.HostUser;
    AddHolders(st.ledger, l.HostUser(), Active);
    AddHolders(st.ledger, l.HostUser(), Released);
  }

  /** While no queued lease has been met, the pass counts no more than the set holds. */
  lemma {:induction false} HeldCounted(at: Time, s: seq<Lease>, k: nat)
    requires k <= |s| && NoneQueued(s[..k])
    ensures FirstPass(at, s[..k]).state.ledger.Holders() <= Holders(s[..k])
  {
    hide FirstPass, ScanStep, Holders, Ledger.Holders, Subject.HostUser;
    FirstPassNone(at);
    if k == 0 {
      assert s[..0] == [];
      EmptyLedgerHolders();
    } else {
      var n := k - 1;
      assert s[..k] == s[..n] + [s[n]];
      HeldCounted(at, s, n);
      FirstPassStep(at, s, n);
      ScanHeldHolders(at, FirstPass(at, s[..n]).state, s[n]);
      HoldersLast(s, n);
    }
  }

  lemma EmptyLedgerHolders()
    ensures Ledger(multiset{}, multiset{}, multiset{}).Holders() == multiset{}
    ensures EMPTY_LEDGER.Holders() == multiset{}
  {
  }

  lemma ScanQueuedCapacity(at: Time, st: Scan, l: Lease)
    requires l.status.Queued? && st.ledger.Total(l.strategy) <= l.limit
    ensures ScanStep(at, st, l).0.ledger.Total(l.strategy) <= l.limit
  {
    hide Subject.HostUser, Ledger.Total;
    var c := l.HostUser();
    TotalAdd(st.ledger, c, l.strategy);
    if c in st.ledger.released {
      TotalStart(st.ledger, c, l.strategy);
    }
  }

  lemma TotalBound(strat: Strategy, led: Ledger, s: seq<Lease>, n: nat)
    requires n <= |s| && led.Holders() <= Holders(s[..n])
    ensures led.Total(strat) <= Consumption(strat, s)
  {
    hide Holders, Ledger.Holders, Size;
    HoldersPrefix(s, n);
    SizeMonotone(strat, led.Holders(), Holders(s));
  }

  /** Under one limit and strategy the count never exceeds the limit, at any point of the pass. */
  lemma {:induction false} FirstPassCapacity(at: Time, s: seq<Lease>, k: nat, strat: Strategy, limit: nat)
    requires Sorted(s) && Uniform(strat, limit, s) && Consumption(strat, s) <= limit && k <= |s|
    ensures FirstPass(at, s[..k]).state.ledger.Total(strat) <= limit
  {
    hide FirstPass, ScanStep, Ledger.Total, Consumption, Sorted;
    FirstPassNone(at);
    if k == 0 {
      assert s[..0] == [];
      HeldCounted(at, s, 0);
      TotalBound(strat, FirstPass(at, s[..0]).state.ledger, s, 0);
    } else {
      var n := k - 1;
      assert s[..k] == s[..n] + [s[n]];
      FirstPassCapacity(at, s, n, strat, limit);
      FirstPassStep(at, s, n);
      if s[n].Consumptive() {
        HeldBeforeQueued(s, n);
        HeldCounted(at, s, k);
        TotalBound(strat, FirstPass(at, s[..k]).state.ledger, s, k);
      } else {
        assert s[n] in s;
        ScanIdleCapacity(at, FirstPass(at, s[..n]).state, s[n]);
      }
    }
  }

  lemma ScanIdleCapacity(at: Time, st: Scan, l: Lease)
    requires !l.Consumptive() && st.ledger.Total(l.strategy) <= l.limit
    ensures ScanStep(at, st, l).0.ledger.Total(l.strategy) <= l.limit
  {
    hide Ledger.Total, ScanQueued;
    if l.status.Queued? {
      ScanQueuedCapacity(at, st, l);
    }
  }

  // ------------------------------------------------------ order of service

  /** The queued lease at `i` is left in the queue. */
  ghost predicate Waits(at: Time, s: seq<Lease>, i: nat)
    requires i < |s|
  {
    s[i].status.Queued? && !s[i].Expired(at) && Blocked(s[i], FirstPass(at, s[..i]).state.ledger)
  }

  /** The queued lease at `i` becomes active. */
  ghost predicate Granted(at: Time, s: seq<Lease>, i: nat)
    requires i < |s|
  {
    s[i].status.Queued? && !s[i].Expired(at) && !Blocked(s[i], FirstPass(at, s[..i]).state.ledger)
  }

  lemma {:induction false} WaitsOn(at: Time, s: seq<Lease>, i: nat, j: nat)
    requires Sorted(s) && i <= j < |s| && Waits(at, s, i)
    ensures Blocked(s[i], FirstPass(at, s[..j]).state.ledger)
  {
    hide FirstPass, ScanStep, Blocked, Sorted;
    if i < j {
      WaitsOn(at, s, i, j - 1);
      FirstPassStep(at, s, j - 1);
      SortedByStatus(s, i, j - 1);
      BlockedStable(at, FirstPass(at, s[..j - 1]).state, s[j - 1], s[i]);
    }
  }

  lemma OvertakingNeedsSlot(first: Lease, second: Lease, led: Ledger)
    requires first.strategy == second.strategy && first.limit == second.limit
    requires Blocked(first, led) && !Blocked(second, led)
    ensures led.released[second.HostUser()] > 0
            || (second.strategy == ByConsumer && led.active[second.HostUser()] > 0)
  {
    hide Subject.HostUser, Ledger.Total;
  }

  /** Some lease of the consumer already counts: a released one, or an active one when consumers are counted. */
  ghost predicate HoldsSlot(strat: Strategy, c: string, s: seq<Lease>) {
    exists x :: x in s && x.HostUser() == c && (x.status.Released? || (strat == ByConsumer && x.status.Active?))
  }

  lemma KeysWitness(st: Status, s: seq<Lease>, c: string) returns (x: Lease)
    requires c in Keys(st, s)
    ensures x in s && x.status == st && x.HostUser() == c
  {
    hide Subject.HostUser;
    var k := ProjectWitness(KeyIf(st), s, c);
    x := s[k];
  }

  /** The consumer has more released slots than are promised to it already; or, when consumers are counted, it is
      active already, or will be through what is promised to it. */
  ghost predicate SpareSlot(strat: Strategy, c: string, s: seq<Lease>, promised: nat) {
    Keys(Released, s)[c] > promised || (strat == ByConsumer && Keys(Active, s)[c] + promised > 0)
  }

  lemma LedgerSlot(led: Ledger, s: seq<Lease>, strat: Strategy, c: string)
    requires Agrees(led, s)
    requires led.released[c] > 0 || (strat == ByConsumer && led.active[c] > 0)
    ensures HoldsSlot(strat, c, s)
    ensures SpareSlot(strat, c, s, led.replacing[c])
  {
    hide Subject.HostUser, Keys;
    if c in Keys(Released, s) {
      var x := KeysWitness(Released, s, c);
    } else {
      assert c in Keys(Active, s);
      var x := KeysWitness(Active, s, c);
    }
  }

  /** A queued lease overtakes an earlier one left waiting only into a slot its consumer holds already, and that is
      not promised to an earlier replacement of the same consumer. */
  lemma FirstComeFirstServed(at: Time, s: seq<Lease>, i: nat, j: nat)
    requires Sorted(s) && i < j < |s| && Waits(at, s, i) && Granted(at, s, j)
    requires s[i].strategy == s[j].strategy && s[i].limit == s[j].limit
    ensures var (before, c) := (FirstPass(at, s[..j]), s[j].HostUser());
            && HoldsSlot(s[j].strategy, c, before.leases)
            && SpareSlot(s[j].strategy, c, before.leases, Project(KeyOf(), before.state.replacements)[c])
  {
    hide FirstPass, Blocked, Agrees, Sorted, Subject.HostUser, SpareSlot, HoldsSlot;
    WaitsOn(at, s, i, j);
    var before := FirstPass(at, s[..j]);
    OvertakingNeedsSlot(s[i], s[j], before.state.ledger);
    FirstPassAgrees(at, s[..j]);
    LedgerSlot(before.state.ledger, before.leases, s[j].strategy, s[j].HostUser());
  }

  // ----------------------------------------------------------------- aging

  /** What time alone makes of a lease that is held. */
  function Aged(at: Time, l: Lease): seq<Lease> {
    if l.Decayed(at) then [] else if l.status.Active? && l.Expired(at) then [Expire(l)] else [l]
  }

  lemma ScanHeldAges(at: Time, st: Scan, l: Lease)
    requires l.Consumptive()
    ensures Kept(ScanStep(at, st, l).1, l) == Aged(at, l)
    ensures ScanStep(at, st, l).0.replacements == st.replacements
    ensures ScanStep(at, st, l).0.ledger.replacing == st.ledger.replacing
  {
    hide Subject.HostUser;
  }

  /** A held lease ages the same way wherever it stands and whoever else there is. */
  lemma {:induction false} FirstPassHolds(at: Time, s: seq<Lease>, k: nat, i: nat)
    requires i < k <= |s| && s[i].Consumptive()
    ensures forall x :: x in Aged(at, s[i]) ==> x in FirstPass(at, s[..k]).leases
  {
    hide FirstPass, ScanStep, Aged;
    var n := k - 1;
    FirstPassStep(at, s, n);
    if i == n {
      ScanHeldAges(at, FirstPass(at, s[..n]).state, s[n]);
    } else {
      FirstPassHolds(at, s, n, i);
    }
  }

  function AgedBag(at: Time): Lease -> multiset<Lease> {
    (l: Lease) => multiset(Aged(at, l))
  }

  ghost predicate AllHeld(s: seq<Lease>) {
    forall x :: x in s ==> x.Consumptive()
  }

  /** Without a queue the first pass is aging and nothing else. */
  lemma {:induction false} FirstPassAges(at: Time, s: seq<Lease>, k: nat)
    requires AllHeld(s) && k <= |s|
    ensures var first := FirstPass(at, s[..k]);
            && multiset(first.leases) == Project(AgedBag(at), s[..k])
            && first.state.replacements == []
            && first.state.ledger.replacing == multiset{}
  {
    hide FirstPass, ScanStep, Aged;
    FirstPassNone(at);
    if k == 0 {
      assert s[..0] == [];
      assert EMPTY_LEDGER.replacing == multiset{};
    } else {
      var n := k - 1;
      FirstPassAges(at, s, n);
      FirstPassStep(at, s, n);
      ScanHeldAges(at, FirstPass(at, s[..n]).state, s[n]);
      assert s[..k][..n] == s[..n];
    }
  }

  lemma AgingAgain(t1: Time, t2: Time, l: Lease)
    requires t1 <= t2 && l.Consumptive() && (l.status.Active? ==> l.released == ZERO_TIME)
    ensures Aged(t1, l) == [] ==> Aged(t2, l) == []
    ensures forall x :: x in Aged(t1, l) ==> x.Consumptive() && Aged(t2, x) == Aged(t2, l)
  {
  }

  /** A lease aged once and then again is as if aged once, at the later time. */
  lemma AgingComposes(t1: Time, t2: Time, l: Lease)
    requires t1 <= t2 && l.Consumptive() && (l.status.Active? ==> l.released == ZERO_TIME)
    ensures Project(AgedBag(t2), Aged(t1, l)) == multiset(Aged(t2, l))
    ensures AllHeld(Aged(t1, l))
  {
    AgingAgain(t1, t2, l);
    AgedAtMostOne(t1, l);
    hide Aged;
    if Aged(t1, l) != [] {
      ProjectOne(AgedBag(t2), Aged(t1, l)[0]);
    }
  }

  lemma AgedAtMostOne(at: Time, l: Lease)
    ensures Aged(at, l) == [] || Aged(at, l) == [Aged(at, l)[0]]
  {
  }
}
