/** The two-pass scheduler that expires, decays, promotes and replaces leases. */
module Refreshing {
  import opened Leases
  import opened Projections
  import opened LeaseSets
  import opened Transactions
  import opened Accumulators

  predicate CanActivate(strat: Strategy, active: nat, consumed: nat, limit: nat) {
    if limit == 0 then false
    else if consumed > limit then false
    else if strat == ByConsumer && active > 0 then true
    else consumed < limit
  }

  // ------------------------------------------------------------ first pass

  /** The variables of the first pass: the accumulator and the queued leases to be fitted in later. */
  datatype Scan = Scan(ledger: Ledger, replacements: seq<Lease>)

  const SCAN_START := Scan(EMPTY_LEDGER, [])

  function Expire(l: Lease): Lease {
    l.(status := Released, released := l.ExpirationTime())
  }

  function Activate(l: Lease): Lease {
    l.(status := Active)
  }

  function ScanHeld(at: Time, st: Scan, l: Lease): (Scan, Edit) {
    if l.Decayed(at) then (st, Delete)
    else if l.status.Active? && l.Expired(at) then
      (st.(ledger := st.ledger.Add(l.HostUser(), Released)), Update(Expire(l)))
    else (st.(ledger := st.ledger.Add(l.HostUser(), l.status)), Keep)
  }

  function ScanQueued(at: Time, st: Scan, l: Lease): (Scan, Edit) {
    var consumed, c := st.ledger.Total(l.strategy), l.HostUser();
    if l.Expired(at) then (st, Delete)
    else if consumed > l.limit then (st, Keep)
    else if st.ledger.released[c] > 0 then
      (Scan(st.ledger.StartReplacement(c), st.replacements + [l]), Delete)
    else if CanActivate(l.strategy, st.ledger.active[c], consumed, l.limit) then
      (st.(ledger := st.ledger.Add(c, Active)), Update(Activate(l)))
    else (st, Keep)
  }

  function ScanStep(at: Time, st: Scan, l: Lease): (Scan, Edit) {
    match l.status
    case Active => ScanHeld(at, st, l)
    case Released => ScanHeld(at, st, l)
    case Queued => ScanQueued(at, st, l)
    case Unrecognized(_) => (st, Keep)
  }

  function Scanning(at: Time): (Scan, Lease) -> (Scan, Edit) {
    (st: Scan, l: Lease) => ScanStep(at, st, l)
  }

  function FirstPass(at: Time, s: seq<Lease>): Trace<Scan> {
    Run(Scanning(at), SCAN_START, s)
  }

  lemma FirstPassNone(at: Time)
    ensures FirstPass(at, []) == Trace(Scan(EMPTY_LEDGER, []), [], [])
  {
  }

  lemma FirstPassStep(at: Time, s: seq<Lease>, k: nat)
    requires k < |s|
    ensures var before := FirstPass(at, s[..k]);
            var (after, e) := ScanStep(at, before.state, s[k]);
            FirstPass(at, s[..k + 1]) ==
            Trace(after, before.leases + Kept(e, s[k]), before.ops + Logged(e, s[k]))
  {
    RunStep(Scanning(at), SCAN_START, s, k);
  }

  // ----------------------------------------------------------- second pass

  /** The variables of the second pass: the accumulator and the index of the next replacement. */
  datatype Fill = Fill(ledger: Ledger, r: nat)

  /** The code indexes `replacements[r]` unconditionally; `NoPanic` shows that `r` is in range. */
  function FillStep(replacements: seq<Lease>, st: Fill, l: Lease): (Fill, Edit) {
    var c := l.HostUser();
    if l.status != Released || st.ledger.replacing[c] == 0 || st.r >= |replacements| then (st, Keep)
    else (Fill(st.ledger.FinishReplacement(c), st.r + 1), Update(Activate(replacements[st.r])))
  }

  function Filling(replacements: seq<Lease>): (Fill, Lease) -> (Fill, Edit) {
    (st: Fill, l: Lease) => FillStep(replacements, st, l)
  }

  function SecondPass(scan: Scan, s: seq<Lease>): Trace<Fill> {
    Run(Filling(scan.replacements), Fill(scan.ledger, 0), s)
  }

  lemma SecondPassNone(scan: Scan)
    ensures SecondPass(scan, []) == Trace(Fill(scan.ledger, 0), [], [])
  {
  }

  lemma SecondPassStep(scan: Scan, s: seq<Lease>, k: nat)
    requires k < |s|
    ensures var before := SecondPass(scan, s[..k]);
            var (after, e) := FillStep(scan.replacements, before.state, s[k]);
            SecondPass(scan, s[..k + 1]) ==
            Trace(after, before.leases + Kept(e, s[k]), before.ops + Logged(e, s[k]))
  {
    RunStep(Filling(scan.replacements), Fill(scan.ledger, 0), s, k);
  }

  // --------------------------------------------------------------- results

  /** A refresh of `s`, where `mid` is what sorting made of the first pass. */
  ghost predicate RefreshesVia(s: seq<Lease>, at: Time, mid: seq<Lease>, t: seq<Lease>, ops: seq<Op>, ledger: Ledger) {
    var first := FirstPass(at, s);
    && IsSortOf(mid, first.leases)
    && if first.state.ledger.replacing == multiset{} then
         t == mid && ops == first.ops && ledger == first.state.ledger
       else
         var second := SecondPass(first.state, mid);
         IsSortOf(t, second.leases) && ops == first.ops + second.ops && ledger == second.state.ledger
  }

  /** Refreshing `s` can leave the leases `t`, the log `ops` and the accumulator `ledger`. */
  ghost predicate Refreshes(s: seq<Lease>, at: Time, t: seq<Lease>, ops: seq<Op>, ledger: Ledger) {
    exists mid :: RefreshesVia(s, at, mid, t, ops, ledger)
  }

  function KeyOf(): Lease -> multiset<string> {
    (l: Lease) => multiset{l.HostUser()}
  }

  /** The ledger against the leases: a replacement counts as active while its slot is still released. */
  ghost predicate Agrees(ledger: Ledger, s: seq<Lease>) {
    && ledger.active == Keys(Active, s) + ledger.replacing
    && Keys(Released, s) == ledger.released + ledger.replacing
  }

  lemma AgreesKept(ledger: Ledger, s: seq<Lease>, l: Lease)
    requires Agrees(ledger, s)
    ensures Agrees(ledger.Add(l.HostUser(), l.status), s + [l])
  {
    hide Subject.HostUser;
    KeysAppend(Active, s, [l]);
    KeysAppend(Released, s, [l]);
    ProjectOne(KeyIf(Active), l);
    ProjectOne(KeyIf(Released), l);
  }

  /** Starting a replacement takes the queued lease out and leaves its slot where it is. */
  lemma AgreesReplacing(ledger: Ledger, s: seq<Lease>, c: string)
    requires Agrees(ledger, s) && c in ledger.released
    ensures Agrees(ledger.StartReplacement(c), s)
  {
  }

  lemma AgreesIdle(ledger: Ledger, s: seq<Lease>, l: Lease)
    requires Agrees(ledger, s) && !l.Consumptive()
    ensures Agrees(ledger, s + [l])
  {
    AgreesKept(ledger, s, l);
  }

  lemma ScanStepAgrees(at: Time, st: Scan, s: seq<Lease>, l: Lease)
    requires Agrees(st.ledger, s)
    ensures var (after, e) := ScanStep(at, st, l); Agrees(after.ledger, s + Kept(e, l))
  {
    hide Agrees, Subject.HostUser;
    var (after, e) := ScanStep(at, st, l);
    match e
    case Delete =>
      assert s + [] == s;
      if l.status.Queued? && st.ledger.released[l.HostUser()] > 0 {
        AgreesReplacing(st.ledger, s, l.HostUser());
      }
    case Keep =>
      if l.Consumptive() {
        AgreesKept(st.ledger, s, l);
      } else {
        AgreesIdle(st.ledger, s, l);
      }
    case Update(now) =>
      AgreesKept(st.ledger, s, now);
  }

  lemma ScanStepReplacing(at: Time, st: Scan, l: Lease)
    requires Project(KeyOf(), st.replacements) == st.ledger.replacing
    ensures var after := ScanStep(at, st, l).0; Project(KeyOf(), after.replacements) == after.ledger.replacing
  {
    hide Subject.HostUser, Project;
    ProjectAppend(KeyOf(), st.replacements, [l]);
    ProjectOne(KeyOf(), l);
  }

  /** The accumulator agrees with a recount at every point of the first pass. */
  lemma {:induction false} FirstPassAgrees(at: Time, s: seq<Lease>)
    ensures var first := FirstPass(at, s);
            && Agrees(first.state.ledger, first.leases)
            && Project(KeyOf(), first.state.replacements) == first.state.ledger.replacing
  {
    if s != [] {
      var n := |s| - 1;
      FirstPassAgrees(at, s[..n]);
      var before := FirstPass(at, s[..n]);
      ScanStepAgrees(at, before.state, before.leases, s[n]);
      ScanStepReplacing(at, before.state, s[n]);
    }
  }

  lemma {:induction false} ProjectKeySize(s: seq<Lease>)
    ensures |Project(KeyOf(), s)| == |s|
  {
    if s != [] {
      ProjectKeySize(s[..|s| - 1]);
    }
  }

  /** `ops` is what the refresh adds to the log. */
  method Refresh(tx: Tx, at: Time) returns (acc: Accumulator, ghost ops: seq<Op>)
    modifies tx
    ensures fresh(acc) && acc.Valid()
    ensures tx.ops == old(tx.ops) + ops
    ensures Refreshes(old(tx.leases), at, tx.leases, ops, acc.ledger)
  {
    hide *;
    ghost var was, logged := tx.leases, tx.ops;
    var replacements: seq<Lease>;
    acc, replacements := FirstLoop(tx, at);
    ghost var first, mid := FirstPass(at, was), tx.leases;
    FirstPassAgrees(at, was);
    ProjectKeySize(replacements);
    var recorded := acc.ReplacementsRecorded();
    if recorded {
      SecondLoop(tx, acc, replacements);
      ghost var second := SecondPass(first.state, mid);
      RefreshedTwice(was, at, mid, tx.leases);
      ops := first.ops + second.ops;
      assert tx.ops == logged + ops;
    } else {
      RefreshedOnce(was, at, mid);
      ops := first.ops;
    }
  }

  lemma RefreshedOnce(s: seq<Lease>, at: Time, mid: seq<Lease>)
    requires IsSortOf(mid, FirstPass(at, s).leases)
    requires FirstPass(at, s).state.ledger.replacing == multiset{}
    ensures var first := FirstPass(at, s); Refreshes(s, at, mid, first.ops, first.state.ledger)
  {
    hide FirstPass, IsSortOf;
    var first := FirstPass(at, s);
    assert RefreshesVia(s, at, mid, mid, first.ops, first.state.ledger);
  }

  lemma RefreshedTwice(s: seq<Lease>, at: Time, mid: seq<Lease>, t: seq<Lease>)
    requires IsSortOf(mid, FirstPass(at, s).leases)
    requires FirstPass(at, s).state.ledger.replacing != multiset{}
    requires IsSortOf(t, SecondPass(FirstPass(at, s).state, mid).leases)
    ensures var first := FirstPass(at, s);
            var second := SecondPass(first.state, mid);
            Refreshes(s, at, t, first.ops + second.ops, second.state.ledger)
  {
    hide FirstPass, SecondPass, IsSortOf;
    var first := FirstPass(at, s);
    var second := SecondPass(first.state, mid);
    assert RefreshesVia(s, at, mid, t, first.ops + second.ops, second.state.ledger);
  }

  /** `tx.Process` with the processor of the first pass written out, since it updates `acc`. */
  method FirstLoop(tx: Tx, at: Time) returns (acc: Accumulator, replacements: seq<Lease>)
    modifies tx
    ensures fresh(acc) && acc.Valid()
    ensures var first := FirstPass(at, old(tx.leases));
            && IsSortOf(tx.leases, first.leases) && tx.ops == old(tx.ops) + first.ops
            && first.state == Scan(acc.ledger, replacements)
  {
    hide *;
    ghost var was, logged := tx.leases, tx.ops;
    ghost var k, tr := 0, Trace(Scan(EMPTY_LEDGER, []), [], []);
    FirstPassNone(at);
    acc := new Accumulator();
    replacements := [];
    var i := 0;
    while i < |tx.leases|
      invariant fresh(acc) && acc.Valid()
      invariant k <= |was| && tr == FirstPass(at, was[..k])
      invariant tr.state == Scan(acc.ledger, replacements)
      invariant tx.ops == logged + tr.ops && tx.leases == tr.leases + was[k..]
      invariant i == |tr.leases|
      decreases |tx.leases| - i
    {
      FirstPassStep(at, was, k);
      var e: Edit;
      e, replacements := FirstBody(acc, at, tx.leases[i], replacements);
      var shift := tx.Apply(e, i);
      i := i + shift + 1;
      k, tr := k + 1, FirstPass(at, was[..k + 1]);
    }
    assert was[..k] == was && tx.leases == tr.leases;
    var sorted := Sort(tx.leases);
    tx.leases := sorted;
  }

  /** The body of the first pass. */
  method FirstBody(acc: Accumulator, at: Time, l: Lease, replacements: seq<Lease>)
    returns (e: Edit, grown: seq<Lease>)
    requires acc.Valid()
    modifies acc
    ensures acc.Valid()
    ensures (Scan(acc.ledger, grown), e) == ScanStep(at, Scan(old(acc.ledger), replacements), l)
  {
    e, grown := Keep, replacements;
    match l.status {
      case Active =>
        if l.Decayed(at) {
          return Delete, replacements;
        }
        var status := Active;
        if l.Expired(at) {
          status := Released;
          e := Update(Expire(l));
        }
        acc.Add(l.HostUser(), status);
      case Released =>
        if l.Decayed(at) {
          return Delete, replacements;
        }
        acc.Add(l.HostUser(), l.status);
      case Queued =>
        e, grown := QueuedBody(acc, at, l, replacements);
      case Unrecognized(_) =>
    }
  }

  method QueuedBody(acc: Accumulator, at: Time, l: Lease, replacements: seq<Lease>)
    returns (e: Edit, grown: seq<Lease>)
    requires acc.Valid()
    modifies acc
    ensures acc.Valid()
    ensures (Scan(acc.ledger, grown), e) == ScanQueued(at, Scan(old(acc.ledger), replacements), l)
  {
    if l.Expired(at) {
      return Delete, replacements;
    }
    var consumed := acc.Total(l.strategy);
    // Over-allocated already: this lease cannot be promoted.
    if consumed > l.limit {
      return Keep, replacements;
    }
    var released := acc.Released(l.HostUser());
    if released > 0 {
      acc.StartReplacement(l.HostUser());
      return Delete, replacements + [l];
    }
    var active := acc.Active(l.HostUser());
    if CanActivate(l.strategy, active, consumed, l.limit) {
      acc.Add(l.HostUser(), Active);
      return Update(Activate(l)), replacements;
    }
    return Keep, replacements;
  }

  /** `tx.ProcessReverse`, which goes forward, with the processor of the second pass written out.
      The index into `replacements` is checked here: it never goes out of range. */
  method SecondLoop(tx: Tx, acc: Accumulator, replacements: seq<Lease>)
    requires acc.Valid() && |acc.ledger.replacing| == |replacements|
    modifies tx, acc
    ensures acc.Valid()
    ensures var second := SecondPass(Scan(old(acc.ledger), replacements), old(tx.leases));
            && IsSortOf(tx.leases, second.leases) && tx.ops == old(tx.ops) + second.ops
            && acc.ledger == second.state.ledger
  {
    hide *;
    ghost var was, logged, scan := tx.leases, tx.ops, Scan(acc.ledger, replacements);
    ghost var k, tr := 0, Trace(Fill(acc.ledger, 0), [], []);
    SecondPassNone(scan);
    var r, i := 0, 0;
    while i < |tx.leases|
      invariant acc.Valid()
      invariant k <= |was| && tr == SecondPass(scan, was[..k])
      invariant tr.state == Fill(acc.ledger, r)
      invariant |acc.ledger.replacing| + r == |replacements|
      invariant tx.ops == logged + tr.ops && tx.leases == tr.leases + was[k..]
      invariant i == |tr.leases|
      decreases |tx.leases| - i
    {
      SecondPassStep(scan, was, k);
      var e: Edit;
      e, r := SecondBody(acc, tx.leases[i], replacements, r);
      var shift := tx.Apply(e, i);
      i := i + shift + 1;
      k, tr := k + 1, SecondPass(scan, was[..k + 1]);
    }
    assert was[..k] == was && tx.leases == tr.leases;
    var sorted := Sort(tx.leases);
    tx.leases := sorted;
  }

  method SecondBody(acc: Accumulator, l: Lease, replacements: seq<Lease>, r: nat) returns (e: Edit, next: nat)
    requires acc.Valid() && |acc.ledger.replacing| + r == |replacements|
    modifies acc
    ensures acc.Valid() && |acc.ledger.replacing| + next == |replacements|
    ensures (Fill(acc.ledger, next), e) == FillStep(replacements, Fill(old(acc.ledger), r), l)
  {
    e, next := Keep, r;
    if l.status != Released {
      return;
    }
    var outstanding := acc.Replacements(l.HostUser());
    if outstanding == 0 {
      return;
    }
    assert |acc.ledger.replacing| > 0;
    acc.FinishReplacement(l.HostUser());
    e, next := Update(Activate(replacements[r])), r + 1;
  }
}
