/** A one-pass reference for `Refresh`: every queued lease takes a slot of its own consumer at once,
    and all counts are recounts. The two passes of the code refine it. */
module DirectRefresh {
  import opened Leases
  import opened Projections
  import opened LeaseSets
  import opened Transactions
  import opened Accumulators
  import opened Refreshing
  import opened FirstPassCounts
  import opened SecondPasses
  import opened RefreshLaws
  import opened RefreshService

  predicate IsSlot(x: Lease, c: string) {
    x.status.Released? && x.HostUser() == c
  }

  /** The consumer's released lease at `i`, which no other one of the consumer sorts before. */
  ghost predicate BestSlot(d: seq<Lease>, i: nat, c: string) {
    i < |d| && IsSlot(d[i], c) && forall y :: y in d && IsSlot(y, c) ==> !Less(y, d[i])
  }

  /** The slot taken is one that decays last; `ProcessReverse`, going forward, gives up the longest wait. */
  lemma BestSlotDecaysLast(d: seq<Lease>, i: nat, c: string, y: Lease)
    requires BestSlot(d, i, c) && y in d && IsSlot(y, c)
    ensures y.released + y.decay <= d[i].released + d[i].decay
  {
    hide Subject.HostUser;
  }

  ghost predicate DirectQueued(at: Time, d: seq<Lease>, l: Lease, d': seq<Lease>) {
    var c := l.HostUser();
    if l.Expired(at) then d' == d
    else if Consumption(l.strategy, d) > l.limit then d' == d + [l]
    else if Keys(Released, d)[c] > 0 then exists i: nat :: BestSlot(d, i, c) && d' == d[i := Activate(l)]
    else if CanActivate(l.strategy, Keys(Active, d)[c], Consumption(l.strategy, d), l.limit) then
      d' == d + [Activate(l)]
    else d' == d + [l]
  }

  ghost predicate DirectStep(at: Time, d: seq<Lease>, l: Lease, d': seq<Lease>) {
    match l.status
    case Active => d' == d + Aged(at, l)
    case Released => d' == d + Aged(at, l)
    case Queued => DirectQueued(at, d, l, d')
    case Unrecognized(_) => d' == d + [l]
  }

  function Last(s: seq<Lease>): Lease
    requires s != []
  {
    s[|s| - 1]
  }

  /** `d` is what the reference can make of `s`. */
  ghost predicate Direct(at: Time, s: seq<Lease>, d: seq<Lease>)
    decreases |s|
  {
    if s == [] then d == []
    else exists before :: Direct(at, Front(s), before) && DirectStep(at, before, Last(s), d)
  }

  // ---------------------------------- the slots a bag of replacements takes

  predicate Takes(l: Lease, wanted: multiset<string>) {
    l.status.Released? && l.HostUser() in wanted
  }

  /** The replacements still outstanding after the slots of `m` have been gone through. */
  function Unfilled(m: seq<Lease>, wanted: multiset<string>): multiset<string> {
    if m == [] then wanted
    else
      var rest, l := Unfilled(m[..|m| - 1], wanted), m[|m| - 1];
      if Takes(l, rest) then rest - multiset{l.HostUser()} else rest
  }

  /** The slots taken: for each consumer the first ones in order. */
  function Taken(m: seq<Lease>, wanted: multiset<string>): multiset<Lease> {
    if m == [] then multiset{}
    else
      var before, l := m[..|m| - 1], m[|m| - 1];
      Taken(before, wanted) + if Takes(l, Unfilled(before, wanted)) then multiset{l} else multiset{}
  }

  /** Nothing of consumer `c` is left to take. */
  ghost predicate NoneLeft(m: seq<Lease>, wanted: multiset<string>, c: string) {
    forall y :: y in multiset(m) - Taken(m, wanted) ==> !IsSlot(y, c)
  }

  /** `x` is the slot that one more replacement for `c` would take. */
  ghost predicate NextSlot(m: seq<Lease>, wanted: multiset<string>, c: string, x: Lease) {
    && x in m && IsSlot(x, c)
    && Taken(m, wanted + multiset{c}) == Taken(m, wanted) + multiset{x}
    && Unfilled(m, wanted + multiset{c}) == Unfilled(m, wanted)
    && forall y :: y in multiset(m) - Taken(m, wanted) && IsSlot(y, c) ==> !Less(y, x)
  }

  lemma {:induction false} TakenWithin(m: seq<Lease>, wanted: multiset<string>)
    ensures Taken(m, wanted) <= multiset(m)
  {
    hide Subject.HostUser;
    if m != [] {
      TakenWithin(m[..|m| - 1], wanted);
      assert m == m[..|m| - 1] + [m[|m| - 1]];
    }
  }

  /** Wanting one more slot for `c` takes exactly one more, the first left, if there is one left. */
  lemma {:induction false} OneMore(m: seq<Lease>, wanted: multiset<string>, c: string) returns (x: Option<Lease>)
    requires Sorted(m)
    ensures x == None ==>
              && Unfilled(m, wanted + multiset{c}) == Unfilled(m, wanted) + multiset{c}
              && Taken(m, wanted + multiset{c}) == Taken(m, wanted)
              && NoneLeft(m, wanted, c)
    ensures x.Some? ==> NextSlot(m, wanted, c, x.value)
  {
    hide Subject.HostUser, Less, Sorted;
    if m == [] {
      return None;
    }
    var n := |m| - 1;
    SortedPrefix(m, n);
    x := OneMore(m[..n], wanted, c);
    TakenWithin(m[..n], wanted);
    if x.None? {
      x := OneMoreNew(m, n, wanted, c);
    } else {
      OneMoreSame(m, n, wanted, c, x.value);
    }
  }

  lemma SortedPrefix(m: seq<Lease>, n: nat)
    requires Sorted(m) && n <= |m|
    ensures Sorted(m[..n])
  {
    hide Less;
  }

  lemma LastLeft(m: seq<Lease>, n: nat, wanted: multiset<string>, y: Lease)
    requires n == |m| - 1 && y in multiset(m) - Taken(m, wanted)
    ensures y in multiset(m[..n]) - Taken(m[..n], wanted) || (y == m[n] && !Takes(m[n], Unfilled(m[..n], wanted)))
  {
    hide Subject.HostUser;
    assert m == m[..n] + [m[n]];
    TakenWithin(m[..n], wanted);
  }

  lemma TakenLast(m: seq<Lease>, n: nat, wanted: multiset<string>)
    requires n == |m| - 1
    ensures var rest := Unfilled(m[..n], wanted);
            && Unfilled(m, wanted) == (if Takes(m[n], rest) then rest - multiset{m[n].HostUser()} else rest)
            && Taken(m, wanted) == Taken(m[..n], wanted) + if Takes(m[n], rest) then multiset{m[n]} else multiset{}
  {
    hide Subject.HostUser;
  }

  lemma OneMoreNew(m: seq<Lease>, n: nat, wanted: multiset<string>, c: string) returns (x: Option<Lease>)
    requires n == |m| - 1
    requires Unfilled(m[..n], wanted + multiset{c}) == Unfilled(m[..n], wanted) + multiset{c}
    requires Taken(m[..n], wanted + multiset{c}) == Taken(m[..n], wanted)
    requires NoneLeft(m[..n], wanted, c)
    ensures x == None ==>
              && Unfilled(m, wanted + multiset{c}) == Unfilled(m, wanted) + multiset{c}
              && Taken(m, wanted + multiset{c}) == Taken(m, wanted)
              && NoneLeft(m, wanted, c)
    ensures x.Some? ==> NextSlot(m, wanted, c, x.value)
  {
    hide Subject.HostUser, Less, Taken, Unfilled;
    var l, rest := m[n], Unfilled(m[..n], wanted);
    TakenLast(m, n, wanted);
    TakenLast(m, n, wanted + multiset{c});
    if IsSlot(l, c) && l.HostUser() !in rest {
      x := Some(l);
      assert (rest + multiset{c}) - multiset{c} == rest;
      LessSelf(l);
      forall y | y in multiset(m) - Taken(m, wanted) && IsSlot(y, c) ensures y == l {
        LastLeft(m, n, wanted, y);
      }
    } else {
      x := None;
      TakeBeside(rest, c, l);
      forall y | y in multiset(m) - Taken(m, wanted) ensures !IsSlot(y, c) {
        LastLeft(m, n, wanted, y);
      }
    }
  }

  lemma TakeBeside(rest: multiset<string>, c: string, l: Lease)
    requires !(IsSlot(l, c) && l.HostUser() !in rest)
    ensures Takes(l, rest + multiset{c}) == Takes(l, rest)
    ensures Takes(l, rest) ==>
              (rest + multiset{c}) - multiset{l.HostUser()} == (rest - multiset{l.HostUser()}) + multiset{c}
  {
    hide Subject.HostUser;
  }

  lemma LessSelf(l: Lease)
    ensures !Less(l, l)
  {
  }

  lemma OneMoreSame(m: seq<Lease>, n: nat, wanted: multiset<string>, c: string, x: Lease)
    requires n == |m| - 1 && Sorted(m) && NextSlot(m[..n], wanted, c, x)
    ensures NextSlot(m, wanted, c, x)
  {
    hide Subject.HostUser, Less, Keys;
    assert m == m[..n] + [m[n]];
    var i :| 0 <= i < n && m[i] == x;
    forall y | y in multiset(m) - Taken(m, wanted) && IsSlot(y, c) ensures !Less(y, x) {
      LastLeft(m, n, wanted, y);
    }
    var took := if Takes(m[n], Unfilled(m[..n], wanted)) then multiset{m[n]} else multiset{};
    assert (Taken(m[..n], wanted) + multiset{x}) + took == (Taken(m[..n], wanted) + took) + multiset{x};
  }

  /** With slots enough, every replacement is filled. */
  lemma {:induction false} AllFilled(m: seq<Lease>, wanted: multiset<string>, k: nat)
    requires k <= |m| && wanted <= Keys(Released, m)
    ensures Unfilled(m[..k], wanted) <= Keys(Released, m[k..])
  {
    hide Subject.HostUser, Keys;
    if k == 0 {
      assert m[..0] == [] && m[0..] == m;
    } else {
      AllFilled(m, wanted, k - 1);
      KeysFirst(Released, m, k - 1);
      assert m[..k][..k - 1] == m[..k - 1];
    }
  }

  lemma NextSlotExists(m: seq<Lease>, wanted: multiset<string>, c: string) returns (x: Lease)
    requires Sorted(m) && wanted + multiset{c} <= Keys(Released, m)
    ensures NextSlot(m, wanted, c, x)
  {
    hide Keys, NextSlot, NoneLeft, Taken;
    AllFilled(m, wanted + multiset{c}, |m|);
    assert m[..|m|] == m && m[|m|..] == [];
    NoKeys(Released);
    var found := OneMore(m, wanted, c);
    assert c !in Unfilled(m, wanted + multiset{c});
    x := found.value;
  }

  // --------------------------- the second pass takes exactly these slots

  lemma {:induction false} SecondPassTakes(scan: Scan, mid: seq<Lease>, k: nat)
    requires Fits(scan, mid) && k <= |mid|
    ensures var second := SecondPass(scan, mid[..k]);
            && second.state.ledger.replacing == Unfilled(mid[..k], scan.ledger.replacing)
            && Losses(second.ops) == Taken(mid[..k], scan.ledger.replacing)
  {
    hide SecondPass, Fits, Keys, Filled, Subject.HostUser;
    SecondPassNone(scan);
    if k == 0 {
      assert mid[..0] == [];
    } else {
      var n := k - 1;
      SecondPassTakes(scan, mid, n);
      SecondPassStep(scan, mid, n);
      SecondPassFilled(scan, mid, n);
      assert mid[..k][..n] == mid[..n];
      var before := SecondPass(scan, mid[..n]);
      FillTakes(scan, mid, n, before.state);
      var e := FillStep(scan.replacements, before.state, mid[n]).1;
      LossesLast(before.ops, e, mid[n]);
    }
  }

  lemma FillTakes(scan: Scan, mid: seq<Lease>, k: nat, st: Fill)
    requires k < |mid| && Filled(scan, mid, k, st)
    ensures var (after, e) := FillStep(scan.replacements, st, mid[k]);
            if Takes(mid[k], st.ledger.replacing)
            then e.Update? && after.ledger.replacing == st.ledger.replacing - multiset{mid[k].HostUser()}
            else e == Keep && after == st
  {
    hide Subject.HostUser, Keys;
    if Takes(mid[k], st.ledger.replacing) {
      FilledInRange(scan, mid, k, st);
    }
  }

  lemma LossesLast(ops: seq<Op>, e: Edit, l: Lease)
    ensures Losses(ops + Logged(e, l)) == Losses(ops) + if e == Keep then multiset{} else multiset{l}
  {
    ProjectAppend(RemovedBy(), ops, Logged(e, l));
    if e != Keep {
      ProjectOne(RemovedBy(), Logged(e, l)[0]);
    }
  }

  // ------------------------------------------------------- the refinement

  /** The reference's leases against the first pass: what is still to be fitted in has been, in the
      reference, put into the slots that the second pass will take. */
  ghost predicate Linked(mid: seq<Lease>, d: seq<Lease>, tr: Trace<Scan>) {
    && Keys(Active, d) == tr.state.ledger.active
    && Keys(Released, d) == tr.state.ledger.released
    && multiset(d) + Taken(mid, tr.state.ledger.replacing)
       == multiset(tr.leases) + multiset(Activated(tr.state.replacements))
  }

  ghost predicate Replaces(at: Time, st: Scan, l: Lease) {
    l.status.Queued? && ScanStep(at, st, l).0.replacements != st.replacements
  }

  lemma ReplacesWhen(at: Time, st: Scan, l: Lease)
    requires l.status.Queued?
    ensures Replaces(at, st, l) <==>
            !l.Expired(at) && st.ledger.Total(l.strategy) <= l.limit && st.ledger.released[l.HostUser()] > 0
    ensures Replaces(at, st, l) ==>
            ScanStep(at, st, l) == (Scan(st.ledger.StartReplacement(l.HostUser()), st.replacements + [l]), Delete)
  {
    hide Subject.HostUser, Ledger.Total, CanActivate;
    assert |st.replacements + [l]| > |st.replacements|;
  }

  /** Apart from replacements, the reference does what the first pass does. */
  lemma DirectSame(at: Time, d: seq<Lease>, st: Scan, l: Lease)
    requires Keys(Active, d) == st.ledger.active && Keys(Released, d) == st.ledger.released
    requires !Replaces(at, st, l)
    ensures DirectStep(at, d, l, d + Kept(ScanStep(at, st, l).1, l))
  {
    hide Subject.HostUser, Ledger.Total, Keys, Consumption, Aged;
    assert d + [] == d;
    RecountTotal(d, st.ledger, l.strategy);
    if l.Consumptive() {
      ScanHeldAges(at, st, l);
    } else if l.status.Queued? {
      ReplacesWhen(at, st, l);
    }
  }

  lemma ScanStepLedger(at: Time, st: Scan, l: Lease)
    requires !Replaces(at, st, l)
    ensures var (after, e) := ScanStep(at, st, l);
            && after.replacements == st.replacements
            && after.ledger.active == st.ledger.active + Keys(Active, Kept(e, l))
            && after.ledger.released == st.ledger.released + Keys(Released, Kept(e, l))
            && after.ledger.replacing == st.ledger.replacing
  {
    hide Subject.HostUser, Ledger.Total, CanActivate, Keys;
    NoKeys(Active);
    NoKeys(Released);
    KeysOne(Active, l);
    KeysOne(Released, l);
    KeysOne(Active, Expire(l));
    KeysOne(Released, Expire(l));
    KeysOne(Active, Activate(l));
    KeysOne(Released, Activate(l));
  }

  lemma LinkedSame(at: Time, mid: seq<Lease>, d: seq<Lease>, before: Trace<Scan>, l: Lease)
    requires Linked(mid, d, before) && !Replaces(at, before.state, l)
    ensures var (after, e) := ScanStep(at, before.state, l);
            Linked(mid, d + Kept(e, l), Trace(after, before.leases + Kept(e, l), before.ops + Logged(e, l)))
  {
    hide Subject.HostUser, Keys, ScanStep, Kept, Logged, Taken, Activated, Replaces;
    ScanStepLedger(at, before.state, l);
    var e := ScanStep(at, before.state, l).1;
    KeysAppend(Active, d, Kept(e, l));
    KeysAppend(Released, d, Kept(e, l));
    AddSame(multiset(d), Taken(mid, before.state.ledger.replacing), multiset(before.leases),
            multiset(Activated(before.state.replacements)), multiset(Kept(e, l)));
  }

  // ------ in the queue, the released leases of the pass are those of `mid`

  function IfReleased(): Lease -> multiset<Lease> {
    (l: Lease) => if l.status.Released? then multiset{l} else multiset{}
  }

  lemma {:induction false} ReleasedCount(s: seq<Lease>, x: Lease)
    requires x.status.Released?
    ensures Project(IfReleased(), s)[x] == multiset(s)[x]
  {
    if s != [] {
      ReleasedCount(s[..|s| - 1], x);
      assert s == s[..|s| - 1] + [s[|s| - 1]];
    }
  }

  lemma ScanIdleReleased(at: Time, st: Scan, l: Lease)
    requires !l.Consumptive()
    ensures var kept := Kept(ScanStep(at, st, l).1, l);
            Project(IfReleased(), kept) == multiset{} && Keys(Released, kept) == multiset{}
  {
    hide Subject.HostUser, Ledger.Total, CanActivate, Keys, Project;
    NoKeys(Released);
    KeysOne(Released, l);
    KeysOne(Released, Activate(l));
    ProjectOne(IfReleased(), l);
    ProjectOne(IfReleased(), Activate(l));
    ProjectNone(IfReleased());
  }

  lemma {:induction false} QueueReleased(at: Time, s: seq<Lease>, n: nat, k: nat)
    requires Sorted(s) && n <= k <= |s| && n < |s| && !s[n].Consumptive()
    ensures var a, b := FirstPass(at, s[..k]).leases, FirstPass(at, s[..n]).leases;
            Project(IfReleased(), a) == Project(IfReleased(), b) && Keys(Released, a) == Keys(Released, b)
  {
    hide FirstPass, ScanStep, Sorted, Keys, Project, Kept, Logged;
    if n < k {
      var last := k - 1;
      QueueReleased(at, s, n, last);
      FirstPassStep(at, s, last);
      SortedByStatus(s, n, last);
      var before := FirstPass(at, s[..last]);
      var e := ScanStep(at, before.state, s[last]).1;
      ScanIdleReleased(at, before.state, s[last]);
      ProjectAppend(IfReleased(), before.leases, Kept(e, s[last]));
      KeysAppend(Released, before.leases, Kept(e, s[last]));
    }
  }

  lemma QueueReleasedMid(at: Time, s: seq<Lease>, mid: seq<Lease>, n: nat, x: Lease)
    requires Sorted(s) && IsSortOf(mid, FirstPass(at, s).leases) && n < |s| && !s[n].Consumptive()
    ensures x.status.Released? ==> multiset(FirstPass(at, s[..n]).leases)[x] == multiset(mid)[x]
    ensures Keys(Released, FirstPass(at, s[..n]).leases) == Keys(Released, mid)
  {
    hide FirstPass, Sorted, Keys, Project;
    QueueReleased(at, s, n, |s|);
    assert s[..|s|] == s;
    KeysPermutation(Released, mid, FirstPass(at, s).leases);
    if x.status.Released? {
      ReleasedCount(FirstPass(at, s[..n]).leases, x);
      ReleasedCount(FirstPass(at, s).leases, x);
    }
  }

  /** The slot the second pass will take is, in the reference, the consumer's best slot. */
  lemma NextSlotIsBest(mid: seq<Lease>, d: seq<Lease>, made: seq<Lease>, reps: seq<Lease>,
                       wanted: multiset<string>, c: string, x: Lease) returns (i: nat)
    requires multiset(d) + Taken(mid, wanted) == multiset(made) + multiset(Activated(reps))
    requires forall y: Lease :: y.status.Released? ==> multiset(made)[y] == multiset(mid)[y]
    requires NextSlot(mid, wanted, c, x)
    ensures BestSlot(d, i, c) && d[i] == x
  {
    hide Subject.HostUser, Taken, Less, Unfilled, Activated;
    TakenWithin(mid, wanted + multiset{c});
    forall y | IsSlot(y, c) ensures multiset(d)[y] == (multiset(mid) - Taken(mid, wanted))[y] {
      TakenWithin(mid, wanted);
      ActivatedAreActive(reps, y);
      assert (multiset(d) + Taken(mid, wanted))[y] == (multiset(made) + multiset(Activated(reps)))[y];
      assert Taken(mid, wanted)[y] <= multiset(mid)[y];
    }
    assert (Taken(mid, wanted) + multiset{x})[x] <= multiset(mid)[x];
    assert multiset(d)[x] > 0;
    i :| 0 <= i < |d| && d[i] == x;
    forall y | y in d && IsSlot(y, c) ensures !Less(y, x) {
      assert multiset(d)[y] > 0;
    }
  }

  lemma DirectReplaces(at: Time, mid: seq<Lease>, d: seq<Lease>, before: Trace<Scan>, l: Lease, i: nat)
    requires Linked(mid, d, before) && l.status.Queued? && Replaces(at, before.state, l)
    requires BestSlot(d, i, l.HostUser()) && NextSlot(mid, before.state.ledger.replacing, l.HostUser(), d[i])
    ensures DirectStep(at, d, l, d[i := Activate(l)])
    ensures var (after, e) := ScanStep(at, before.state, l);
            Linked(mid, d[i := Activate(l)], Trace(after, before.leases + Kept(e, l), before.ops + Logged(e, l)))
  {
    hide Subject.HostUser, ScanStep, Taken, Unfilled, Less, Activated, Keys, Replaces, Consumption, Ledger.Total;
    ReplacesWhen(at, before.state, l);
    RecountTotal(d, before.state.ledger, l.strategy);
    var c, now := l.HostUser(), Activate(l);
    SlotKeys(d, i, c, now);
    assert before.leases + [] == before.leases;
    SlotBag(d, i, now);
    var reps := before.state.replacements;
    assert Activated(reps + [l]) == Activated(reps) + [now] by { ActivatedLast(reps, l); }
    assert multiset(Activated(reps + [l])) == multiset(Activated(reps)) + multiset{now};
    SwapSlot(multiset(d), Taken(mid, before.state.ledger.replacing), multiset(before.leases),
             multiset(Activated(reps)), d[i], now);
  }

  lemma ActivatedLast(reps: seq<Lease>, l: Lease)
    ensures Activated(reps + [l]) == Activated(reps) + [Activate(l)]
  {
  }

  lemma SlotBag(d: seq<Lease>, i: nat, now: Lease)
    requires i < |d|
    ensures multiset(d[i := now]) == multiset(d) - multiset{d[i]} + multiset{now}
    ensures d[i] in multiset(d)
  {
  }

  lemma SwapSlot(d: multiset<Lease>, taken: multiset<Lease>, made: multiset<Lease>, active: multiset<Lease>,
                 x: Lease, now: Lease)
    requires d + taken == made + active && x in d
    ensures (d - multiset{x} + multiset{now}) + (taken + multiset{x}) == made + (active + multiset{now})
  {
    assert (d - multiset{x} + multiset{now}) + (taken + multiset{x}) == (d + taken) + multiset{now};
  }

  lemma SlotKeys(d: seq<Lease>, i: nat, c: string, now: Lease)
    requires i < |d| && IsSlot(d[i], c) && now.status.Active? && now.HostUser() == c
    ensures Keys(Active, d[i := now]) == Keys(Active, d) + multiset{c}
    ensures Keys(Released, d[i := now]) == Keys(Released, d) - multiset{c}
  {
    hide Subject.HostUser, Project;
    var d' := d[i := now];
    ProjectSplit(KeyIf(Active), d, i);
    ProjectSplit(KeyIf(Active), d', i);
    ProjectSplit(KeyIf(Released), d, i);
    ProjectSplit(KeyIf(Released), d', i);
    assert d[..i] + d[i + 1..] == d'[..i] + d'[i + 1..];
  }

  lemma DirectMore(at: Time, s: seq<Lease>, n: nat, before: seq<Lease>, d: seq<Lease>)
    requires n < |s| && Direct(at, s[..n], before) && DirectStep(at, before, s[n], d)
    ensures Direct(at, s[..n + 1], d)
  {
    hide DirectStep;
    assert Front(s[..n + 1]) == s[..n] && Last(s[..n + 1]) == s[n];
  }

  lemma LinkedNone(mid: seq<Lease>)
    ensures Linked(mid, [], Trace(Scan(EMPTY_LEDGER, []), [], []))
  {
    hide Subject.HostUser;
    NothingTaken(mid);
    assert Activated([]) == [];
  }

  lemma {:induction false} NothingTaken(mid: seq<Lease>)
    ensures Taken(mid, multiset{}) == multiset{} && Unfilled(mid, multiset{}) == multiset{}
  {
    hide Subject.HostUser;
    if mid != [] {
      NothingTaken(mid[..|mid| - 1]);
    }
  }

  lemma DirectNone(at: Time)
    ensures Direct(at, [], [])
  {
  }

  lemma SimulateReplacement(at: Time, s: seq<Lease>, mid: seq<Lease>, n: nat, d: seq<Lease>) returns (i: nat)
    requires Sorted(s) && IsSortOf(mid, FirstPass(at, s).leases) && n < |s|
    requires s[n].status.Queued? && Replaces(at, FirstPass(at, s[..n]).state, s[n])
    requires Linked(mid, d, FirstPass(at, s[..n]))
    ensures BestSlot(d, i, s[n].HostUser())
    ensures NextSlot(mid, FirstPass(at, s[..n]).state.ledger.replacing, s[n].HostUser(), d[i])
  {
    hide Subject.HostUser, FirstPass, Sorted, Less, Keys, Taken, Unfilled, Activated, ScanStep, Project, Replaces,
         BestSlot, NextSlot;
    var before := FirstPass(at, s[..n]);
    var c, led := s[n].HostUser(), before.state.ledger;
    ReplacesWhen(at, before.state, s[n]);
    FirstPassAgrees(at, s[..n]);
    QueueReleasedMid(at, s, mid, n, s[n]);
    assert led.replacing + multiset{c} <= Keys(Released, mid);
    var x := NextSlotExists(mid, led.replacing, c);
    forall y: Lease | y.status.Released? ensures multiset(before.leases)[y] == multiset(mid)[y] {
      QueueReleasedMid(at, s, mid, n, y);
    }
    i := NextSlotIsBest(mid, d, before.leases, before.state.replacements, led.replacing, c, x);
  }

  lemma {:induction false} Simulates(at: Time, s: seq<Lease>, mid: seq<Lease>, k: nat) returns (d: seq<Lease>)
    requires Sorted(s) && IsSortOf(mid, FirstPass(at, s).leases) && k <= |s|
    ensures Direct(at, s[..k], d) && Linked(mid, d, FirstPass(at, s[..k]))
  {
    hide Subject.HostUser, FirstPass, ScanStep, IsSortOf, Linked, Direct, DirectStep, Kept, Logged, Sorted, Replaces;
    FirstPassNone(at);
    if k == 0 {
      assert s[..0] == [];
      d := [];
      DirectNone(at);
      LinkedNone(mid);
      EmptyScan();
    } else {
      var n := k - 1;
      var d0 := Simulates(at, s, mid, n);
      var before := FirstPass(at, s[..n]);
      FirstPassStep(at, s, n);
      if Replaces(at, before.state, s[n]) {
        ReplacesQueued(at, before.state, s[n]);
        var i := SimulateReplacement(at, s, mid, n, d0);
        DirectReplaces(at, mid, d0, before, s[n], i);
        d := d0[i := Activate(s[n])];
      } else {
        LinkedKeys(mid, d0, before);
        DirectSame(at, d0, before.state, s[n]);
        LinkedSame(at, mid, d0, before, s[n]);
        d := d0 + Kept(ScanStep(at, before.state, s[n]).1, s[n]);
      }
      DirectMore(at, s, n, d0, d);
    }
  }

  lemma EmptyScan()
    ensures Scan(EMPTY_LEDGER, []) == SCAN_START
  {
  }

  lemma ReplacesQueued(at: Time, st: Scan, l: Lease)
    requires Replaces(at, st, l)
    ensures l.status.Queued?
  {
    hide ScanStep;
  }

  lemma LinkedKeys(mid: seq<Lease>, d: seq<Lease>, tr: Trace<Scan>)
    requires Linked(mid, d, tr)
    ensures Keys(Active, d) == tr.state.ledger.active && Keys(Released, d) == tr.state.ledger.released
  {
    hide Keys, Taken;
  }

  /** The two passes, with replacements matched to slots by a global index, leave exactly the leases of a
      run of the one-pass reference, in which every queued lease takes its own consumer's best slot. */
  lemma TwoPassesRefineOne(s: seq<Lease>, at: Time, t: seq<Lease>, ops: seq<Op>, led: Ledger) returns (d: seq<Lease>)
    requires Sorted(s) && Refreshes(s, at, t, ops, led)
    ensures Direct(at, s, d) && multiset(d) == multiset(t)
  {
    hide Subject.HostUser, FirstPass, SecondPass, Sorted, Direct, Keys, Taken, Unfilled, Activated, Losses, Fits;
    var mid :| RefreshesVia(s, at, mid, t, ops, led);
    d := Simulates(at, s, mid, |s|);
    assert s[..|s|] == s;
    var first := FirstPass(at, s);
    FirstPassFits(at, s, mid);
    if first.state.ledger.replacing == multiset{} {
      NothingTaken(mid);
      NoneOutstanding(first.state, mid);
      NoneActivated();
      Cancel(multiset(d), multiset(first.leases), multiset{});
    } else {
      SecondPassCounts(first.state, mid);
      SecondPassTakes(first.state, mid, |mid|);
      assert mid[..|mid|] == mid;
      var taken := Taken(mid, first.state.ledger.replacing);
      assert multiset(t) == multiset(SecondPass(first.state, mid).leases);
      Cancel(multiset(d), multiset(SecondPass(first.state, mid).leases), taken);
    }
  }
}
