/** What every whole step of the guardian keeps. */
module GuardianLaws {
  import opened Leases
  import opened Projections
  import opened LeaseSets
  import opened Transactions
  import opened Replays
  import opened Accumulators
  import opened Refreshing
  import opened FirstPassCounts
  import opened RefreshLaws
  import opened RefreshService
  import opened OneEdits
  import opened Guardian

  ghost predicate AllFor(resource: string, s: seq<Lease>) {
    forall x :: x in s ==> x.subject.resource == resource
  }

  /** The representation invariant of a stored set. */
  ghost predicate Stored(resource: string, s: seq<Lease>) {
    Sorted(s) && Unique(s) && AllWellFormed(s) && AllFor(resource, s)
  }

  /** One limit and one strategy, and no more consumed than the limit. */
  ghost predicate Capped(strat: Strategy, limit: nat, s: seq<Lease>) {
    Uniform(strat, limit, s) && Consumption(strat, s) <= limit
  }

  /** Only an acquire issues leases, so only its policy matters. */
  predicate Agreed(pol: Policy, req: Request, strat: Strategy, limit: nat) {
    req.Acquire? ==> pol.strategy == strat && pol.limit == limit
  }

  predicate Proper(pol: Policy) {
    pol.duration >= 0 && pol.decay >= 0
  }

  predicate Concerns(req: Request, resource: string) {
    match req
    case Acquire(subject, _) => subject.resource == resource
    case Release(subject) => subject.resource == resource
    case Purge => true
  }

  // ---------------------------------------------------------------- refresh

  lemma RefreshStored(resource: string, s: seq<Lease>, at: Time, t: seq<Lease>, ops: seq<Op>, led: Ledger)
    requires Stored(resource, s) && Refreshes(s, at, t, ops, led)
    ensures Stored(resource, t)
  {
    hide Refreshes, Sorted, Unique, Lease.WellFormed, Uniform;
    RefreshSorted(s, at, t, ops, led);
    RefreshSubjects(s, at, t, ops, led);
    UniqueBelow(t, s);
    RefreshWellFormed(s, at, t, ops, led);
  }

  lemma RefreshCapped(strat: Strategy, limit: nat, s: seq<Lease>, at: Time, t: seq<Lease>, ops: seq<Op>, led: Ledger)
    requires Sorted(s) && AllWellFormed(s) && Capped(strat, limit, s) && Refreshes(s, at, t, ops, led)
    ensures Capped(strat, limit, t)
  {
    hide Refreshes, Sorted, Consumption, AllWellFormed, Uniform;
    RefreshCapacity(s, at, t, ops, led, strat, limit);
    RefreshWellFormed(s, at, t, ops, led);
  }

  // ---------------------------------------------------------------- acquire

  /** Whether the lease taken out makes way for a lease of the same consumer. */
  ghost predicate MakesWay(subject: Subject, u: seq<Lease>, xs: seq<Lease>) {
    || (xs == [] && subject !in Subjects(u))
    || (|xs| == 1 && xs[0].subject == subject)
    || (|xs| == 1 && subject !in Subjects(u) && xs[0].status.Released? && xs[0].HostUser() == subject.HostUser()
        && xs[0].subject.resource == subject.resource)
  }

  lemma ReplacingTargets(subject: Subject, ls: Lease)
    ensures Targets(Replacing(subject, ls), subject)
  {
  }

  lemma AbsentSubject(u: seq<Lease>, subject: Subject)
    requires FirstIndex(u, subject) == |u|
    ensures subject !in Subjects(u)
  {
    hide FirstIndex, Subjects;
    if subject in Subjects(u) {
      var k := SubjectsWitness(u, subject);
    }
  }

  lemma SlotOfConsumer(u: seq<Lease>, subject: Subject, x: Lease)
    requires x in Replaceable(u, subject)
    ensures x in u && x.status.Released? && x.HostUser() == subject.HostUser() && x.subject.resource == subject.resource
  {
  }

  /** What an acquire does to the refreshed set: it takes out at most one lease, which makes way. */
  lemma AcquireSwaps(pol: Policy, subject: Subject, props: map<string, string>, now: Time,
                     u: seq<Lease>, led: Ledger, t: seq<Lease>, ops: seq<Op>) returns (xs: seq<Lease>)
    requires Unique(u)
    requires var d := Decide(pol, subject, props, now, u, led); d != Panic && Carries(d, u, t, ops)
    ensures var ls := Decide(pol, subject, props, now, u, led).ls;
            && Swaps(u, xs, [ls], t, ops) && MakesWay(subject, u, xs)
            && ls == Issue(pol, subject, props, now, ls.status, ls.started)
    ensures Decide(pol, subject, props, now, u, led).Creation? <==> xs == []
    ensures Decide(pol, subject, props, now, u, led).Takeover? ==> xs == [Decide(pol, subject, props, now, u, led).slot]
    ensures Decide(pol, subject, props, now, u, led).Renewal? ==>
              FirstIndex(u, subject) < |u| && xs == [u[FirstIndex(u, subject)]]
  {
    hide Unique, FirstIndex, Run, Sorted, Ledger.Total, CanActivate, Subject.HostUser, Replaceable, Subjects, Usable;
    var d := Decide(pol, subject, props, now, u, led);
    match d
    case Renewal(ls) =>
      var k := FirstIndex(u, subject);
      ReplacingTargets(subject, ls);
      TargetedSwaps(Replacing(subject, ls), subject, u, k, t);
      xs := [u[k]];
    case Takeover(slot, ls) =>
      AbsentSubject(u, subject);
      SlotOfConsumer(u, subject, slot);
      var k := UniquePosition(u, slot);
      ReplacingTargets(slot.subject, ls);
      TargetedSwaps(Replacing(slot.subject, ls), slot.subject, u, k, t);
      xs := [slot];
    case Creation(ls) =>
      AbsentSubject(u, subject);
      CreateSwaps(u, ls, t);
      xs := [];
  }

  lemma CreateSwaps(u: seq<Lease>, ls: Lease, t: seq<Lease>)
    requires IsSortOf(t, u + [ls])
    ensures Swaps(u, [], [ls], t, [CreateOp(ls)])
  {
    hide Sorted;
    assert t + [] == t;
  }

  lemma UniquePosition(u: seq<Lease>, x: Lease) returns (k: nat)
    requires Unique(u) && x in u
    ensures k == FirstIndex(u, x.subject) && k < |u| && u[k] == x
  {
    hide Unique, FirstIndex;
    k := FirstIndex(u, x.subject);
    var j :| 0 <= j < |u| && u[j] == x;
    UniqueIndex(u, k, j);
  }

  lemma IssueWellFormed(pol: Policy, subject: Subject, props: map<string, string>, now: Time,
                        status: Status, started: Time)
    requires Proper(pol) && now > ZERO_TIME && (status.Active? || status.Queued?)
    ensures Issue(pol, subject, props, now, status, started).WellFormed()
  {
  }

  lemma DecideStatus(pol: Policy, subject: Subject, props: map<string, string>, now: Time, u: seq<Lease>, led: Ledger)
    requires AllWellFormed(u) && Decide(pol, subject, props, now, u, led) != Panic
    ensures var ls := Decide(pol, subject, props, now, u, led).ls; ls.status.Active? || ls.status.Queued?
  {
    hide FirstIndex, Ledger.Total, CanActivate, Subject.HostUser, Replaceable, Usable;
    var k := FirstIndex(u, subject);
    if k < |u| {
      assert u[k].WellFormed();
    }
  }

  lemma SwapStored(resource: string, u: seq<Lease>, xs: seq<Lease>, ys: seq<Lease>, t: seq<Lease>, ops: seq<Op>)
    requires Stored(resource, u) && Swaps(u, xs, ys, t, ops)
    requires AllWellFormed(ys) && AllFor(resource, ys)
    requires forall y :: y in ys ==> y.subject !in Subjects(u) || (xs != [] && xs[0].subject == y.subject)
    ensures Stored(resource, t)
  {
    hide Unique, SwapOps, Lease.WellFormed, Subjects;
    SwapUnique(u, xs, ys, t, ops);
    forall x | x in t ensures x.WellFormed() && x.subject.resource == resource {
      SameElements(t + xs, u + ys, x);
    }
  }

  lemma AcquireStored(pol: Policy, subject: Subject, props: map<string, string>, now: Time,
                      s: seq<Lease>, t: seq<Lease>, ops: seq<Op>, ls: Lease)
    requires Proper(pol) && now > ZERO_TIME && Stored(subject.resource, s)
    requires Acquires(pol, subject, props, now, s, t, ops, ls)
    ensures Stored(subject.resource, t)
  {
    hide Refreshes, Carries, Decide, Unique, Subjects, Sorted, SwapOps, Lease.WellFormed, Subject.HostUser;
    var u, ops1, led, ops2 :| AcquiresVia(pol, subject, props, now, s, u, ops1, led, t, ops2, ls) && ops == ops1 + ops2;
    RefreshStored(subject.resource, s, now, u, ops1, led);
    var xs := AcquireSwaps(pol, subject, props, now, u, led, t, ops2);
    DecideStatus(pol, subject, props, now, u, led);
    IssueWellFormed(pol, subject, props, now, ls.status, ls.started);
    SwapStored(subject.resource, u, xs, [ls], t, ops2);
  }

  lemma DecideHolders(pol: Policy, subject: Subject, props: map<string, string>, now: Time,
                      u: seq<Lease>, led: Ledger, xs: seq<Lease>)
    requires led == LedgerOf(u) && Consumption(pol.strategy, u) <= pol.limit
    requires var d := Decide(pol, subject, props, now, u, led);
             && d != Panic
             && (d.Renewal? ==> FirstIndex(u, subject) < |u| && xs == [u[FirstIndex(u, subject)]])
             && (d.Takeover? ==> xs == [d.slot] && d.slot.Consumptive() && d.slot.HostUser() == subject.HostUser())
             && (d.Creation? ==> xs == [])
    ensures var ls := Decide(pol, subject, props, now, u, led).ls;
            if xs != [] then Holders([ls]) == Holders(xs)
            else ls.status.Active? ==> CanActivate(pol.strategy, Keys(Active, u)[subject.HostUser()],
                                                   Consumption(pol.strategy, u), pol.limit)
  {
    hide FirstIndex, CanActivate, Subject.HostUser, Replaceable, Usable, Holders, Keys, Size, Ledger.Total, Consumption;
    RecountTotal(u, led, pol.strategy);
    var ls := Decide(pol, subject, props, now, u, led).ls;
    HoldersOne(ls);
    if xs != [] {
      HoldersOne(xs[0]);
    }
  }

  lemma CreationCapacity(strat: Strategy, limit: nat, u: seq<Lease>, t: seq<Lease>, c: string)
    requires Holders(t) == Holders(u) + multiset{c}
    requires CanActivate(strat, Keys(Active, u)[c], Consumption(strat, u), limit)
    ensures Consumption(strat, t) <= limit
  {
    SizeAdd(strat, Holders(u), c);
    hide Size, Keys;
  }

  lemma SwapUniform(strat: Strategy, limit: nat,
                    u: seq<Lease>, xs: seq<Lease>, ys: seq<Lease>, t: seq<Lease>, ops: seq<Op>)
    requires Uniform(strat, limit, u) && Uniform(strat, limit, ys) && Swaps(u, xs, ys, t, ops)
    ensures Uniform(strat, limit, t)
  {
    hide SwapOps, Sorted;
    forall x | x in t ensures x.strategy == strat && x.limit == limit {
      SameElements(t + xs, u + ys, x);
    }
  }

  lemma SwapSameHolders(u: seq<Lease>, xs: seq<Lease>, ys: seq<Lease>, t: seq<Lease>, ops: seq<Op>)
    requires Swaps(u, xs, ys, t, ops) && Holders(xs) == Holders(ys)
    ensures Holders(t) == Holders(u)
  {
    hide Swaps, Holders;
    SwapHolders(u, xs, ys, t, ops);
    assert Holders(t) == (Holders(t) + Holders(xs)) - Holders(xs);
    assert Holders(u) == (Holders(u) + Holders(ys)) - Holders(ys);
  }

  lemma AcquireCapped(pol: Policy, subject: Subject, props: map<string, string>, now: Time,
                      s: seq<Lease>, t: seq<Lease>, ops: seq<Op>, ls: Lease)
    requires Stored(subject.resource, s) && Capped(pol.strategy, pol.limit, s)
    requires Acquires(pol, subject, props, now, s, t, ops, ls)
    ensures Capped(pol.strategy, pol.limit, t)
  {
    hide Refreshes, Carries, Decide, Unique, Subjects, Sorted, SwapOps, Lease.WellFormed, Subject.HostUser,
      Consumption, Holders, Keys, CanActivate, LedgerOf;
    var u, ops1, led, ops2 :| AcquiresVia(pol, subject, props, now, s, u, ops1, led, t, ops2, ls) && ops == ops1 + ops2;
    RefreshStored(subject.resource, s, now, u, ops1, led);
    RefreshCapped(pol.strategy, pol.limit, s, now, u, ops1, led);
    AccumulatorRecounts(s, now, u, ops1, led);
    var xs := AcquireSwaps(pol, subject, props, now, u, led, t, ops2);
    SwapUniform(pol.strategy, pol.limit, u, xs, [ls], t, ops2);
    TakeoverSlot(pol, subject, props, now, u, led);
    DecideHolders(pol, subject, props, now, u, led, xs);
    HoldersOne(ls);
    DecideStatus(pol, subject, props, now, u, led);
    if xs == [] && ls.status.Active? {
      SwapHolders(u, xs, [ls], t, ops2);
      assert Holders(t) + multiset{} == Holders(t);
      CreationCapacity(pol.strategy, pol.limit, u, t, subject.HostUser());
    } else {
      SwapSameHolders(u, xs, [ls], t, ops2);
      ConsumptionSame(pol.strategy, u, t);
    }
  }

  lemma TakeoverSlot(pol: Policy, subject: Subject, props: map<string, string>, now: Time, u: seq<Lease>, led: Ledger)
    ensures var d := Decide(pol, subject, props, now, u, led);
            d.Takeover? ==> d.slot in Replaceable(u, subject) && d.slot.status.Released?
                            && d.slot.HostUser() == subject.HostUser()
  {
    hide FirstIndex, CanActivate, Subject.HostUser, Replaceable, Usable, Ledger.Total, Issue;
    var d := Decide(pol, subject, props, now, u, led);
    if d.Takeover? {
      SlotOfConsumer(u, subject, d.slot);
    }
  }

  lemma ConsumptionSame(strat: Strategy, u: seq<Lease>, t: seq<Lease>)
    requires Holders(t) == Holders(u)
    ensures Consumption(strat, t) == Consumption(strat, u)
  {
    hide Holders;
  }

  // ---------------------------------------------------------------- release

  lemma ReleasingTargets(subject: Subject, at: Time)
    ensures Targets(Releasing(subject, at), subject)
  {
  }

  lemma ReleasingEdit(subject: Subject, at: Time, l: Lease)
    requires l.subject == subject
    ensures Releasing(subject, at)((), l).1 ==
            if l.status.Active? then Update(l.(status := Released, released := at)) else Delete
  {
  }

  /** What the release itself does to the refreshed set: nothing when the lease is unknown. */
  lemma ReleaseSwaps(subject: Subject, now: Time, u: seq<Lease>, v: seq<Lease>) returns (xs: seq<Lease>, ys: seq<Lease>)
    requires Unique(u) && IsSortOf(v, Run(Releasing(subject, now), (), u).leases)
    ensures Swaps(u, xs, ys, v, Run(Releasing(subject, now), (), u).ops)
    ensures if subject !in Subjects(u) then xs == ys == []
            else |xs| == 1 && xs[0].subject == subject &&
                 ys == if xs[0].status.Active? then [xs[0].(status := Released, released := now)] else []
  {
    hide Run, Unique, Sorted, FirstIndex, Subjects, Releasing;
    ReleasingTargets(subject, now);
    TargetedRun(Releasing(subject, now), subject, u);
    var k := FirstIndex(u, subject);
    if k == |u| {
      AbsentSubject(u, subject);
      xs, ys := [], [];
    } else {
      PresentSubject(u, k);
      ReleasingEdit(subject, now, u[k]);
      TargetedSwaps(Releasing(subject, now), subject, u, k, v);
      xs, ys := [u[k]], Kept(Releasing(subject, now)((), u[k]).1, u[k]);
    }
  }

  lemma PresentSubject(u: seq<Lease>, k: nat)
    requires k < |u|
    ensures u[k].subject in Subjects(u)
  {
    ProjectMember(SubjectBag(), u, u[k]);
    hide Project;
  }

  lemma ReleaseStored(subject: Subject, now: Time, u: seq<Lease>, v: seq<Lease>)
    requires now > ZERO_TIME && Stored(subject.resource, u)
    requires IsSortOf(v, Run(Releasing(subject, now), (), u).leases)
    ensures Stored(subject.resource, v)
  {
    hide Run, Releasing, Unique, Subjects, Sorted, SwapOps;
    var xs, ys := ReleaseSwaps(subject, now, u, v);
    if ys != [] {
      assert xs[0] in xs && xs[0] in u;
    }
    SwapStored(subject.resource, u, xs, ys, v, Run(Releasing(subject, now), (), u).ops);
  }

  /** A released slot still counts; a deleted one does not. */
  lemma ReleasedHolders(xs: seq<Lease>, ys: seq<Lease>, now: Time)
    requires |xs| <= 1
    requires ys == if xs != [] && xs[0].status.Active? then [xs[0].(status := Released, released := now)] else []
    ensures Holders(ys) <= Holders(xs)
    ensures forall strat, limit :: Uniform(strat, limit, xs) ==> Uniform(strat, limit, ys)
  {
    hide Holders, Subject.HostUser;
    HoldersNone();
    if ys != [] {
      HoldersOne(xs[0]);
      HoldersOne(ys[0]);
      assert xs == [xs[0]] && ys == [ys[0]];
      assert xs[0] in xs;
    }
  }

  lemma ReleaseCapped(strat: Strategy, limit: nat, subject: Subject, now: Time, u: seq<Lease>, v: seq<Lease>)
    requires Unique(u) && Capped(strat, limit, u)
    requires IsSortOf(v, Run(Releasing(subject, now), (), u).leases)
    ensures Capped(strat, limit, v)
  {
    hide Run, Releasing, Unique, Subjects, Sorted, SwapOps, Holders, Size;
    var xs, ys := ReleaseSwaps(subject, now, u, v);
    var ops := Run(Releasing(subject, now), (), u).ops;
    ReleasedHolders(xs, ys, now);
    assert Uniform(strat, limit, xs);
    SwapUniform(strat, limit, u, xs, ys, v, ops);
    SwapHolders(u, xs, ys, v, ops);
    BagBelow(Holders(v), Holders(xs), Holders(u), Holders(ys));
    SizeMonotone(strat, Holders(v), Holders(u));
  }

  lemma HoldersNone()
    ensures Holders([]) == multiset{}
  {
  }

  lemma BagBelow<U>(a: multiset<U>, x: multiset<U>, b: multiset<U>, y: multiset<U>)
    requires a + x == b + y && y <= x
    ensures a <= b
  {
    forall u ensures a[u] <= b[u] {
      assert (a + x)[u] == (b + y)[u] && y[u] <= x[u];
    }
  }

  // -------------------------------------------------------- every whole step

  /** The representation invariant: each stored set is sorted, holds at most one lease for each subject,
      all of them for that resource, and the release time is set exactly when the lease is released.
      No uniformity of limits or strategies is needed for this. */
  lemma StepStored(pol: Policy, req: Request, now: Time, resource: string, s: seq<Lease>, t: seq<Lease>, ops: seq<Op>)
    requires Proper(pol) && now > ZERO_TIME && Concerns(req, resource) && Stored(resource, s)
    requires Step(pol, req, now, s, t, ops)
    ensures Stored(resource, t)
  {
    hide Acquires, Refreshes, Stored, Run, IsSortOf;
    match req
    case Acquire(subject, props) =>
      var ls :| Acquires(pol, subject, props, now, s, t, ops, ls);
      AcquireStored(pol, subject, props, now, s, t, ops, ls);
    case Release(subject) =>
      var u, ops1, led1, v, ops3, led3 :|
        && ReleasesVia(subject, now, s, u, ops1, led1, v, t, ops3, led3)
        && ops == ops1 + Run(Releasing(subject, now), (), u).ops + ops3;
      RefreshStored(resource, s, now, u, ops1, led1);
      ReleaseStored(subject, now, u, v);
      RefreshStored(resource, v, now, t, ops3, led3);
    case Purge =>
      var led :| Refreshes(s, now, t, ops, led);
      RefreshStored(resource, s, now, t, ops, led);
  }

  /** With one limit and strategy for the resource, no step takes consumption past the limit, whatever
      durations, decays and refresh rates the requests carry. */
  lemma StepCapped(pol: Policy, req: Request, now: Time, resource: string, s: seq<Lease>, t: seq<Lease>, ops: seq<Op>,
                   strat: Strategy, limit: nat)
    requires Proper(pol) && now > ZERO_TIME && Concerns(req, resource) && Stored(resource, s)
    requires Capped(strat, limit, s) && Agreed(pol, req, strat, limit)
    requires Step(pol, req, now, s, t, ops)
    ensures Capped(strat, limit, t)
  {
    hide Acquires, Refreshes, Capped, Run, IsSortOf, Sorted, Unique;
    match req
    case Acquire(subject, props) =>
      var ls :| Acquires(pol, subject, props, now, s, t, ops, ls);
      AcquireCapped(pol, subject, props, now, s, t, ops, ls);
    case Release(subject) =>
      var u, ops1, led1, v, ops3, led3 :|
        && ReleasesVia(subject, now, s, u, ops1, led1, v, t, ops3, led3)
        && ops == ops1 + Run(Releasing(subject, now), (), u).ops + ops3;
      RefreshStored(resource, s, now, u, ops1, led1);
      RefreshCapped(strat, limit, s, now, u, ops1, led1);
      ReleaseCapped(strat, limit, subject, now, u, v);
      ReleaseStored(subject, now, u, v);
      RefreshCapped(strat, limit, v, now, t, ops3, led3);
    case Purge =>
      var led :| Refreshes(s, now, t, ops, led);
      RefreshCapped(strat, limit, s, now, t, ops, led);
  }

  lemma AcquireLogs(pol: Policy, subject: Subject, props: map<string, string>, now: Time, resource: string,
                    s: seq<Lease>, t: seq<Lease>, ops: seq<Op>, ls: Lease)
    requires Stored(resource, s) && Acquires(pol, subject, props, now, s, t, ops, ls)
    ensures Balanced(s, ops, t) && ReplaysTo(s, ops, t) && ops != []
  {
    hide Refreshes, Carries, Decide, Unique, Subjects, Sorted, Replay, Gains, Losses, ReplaysTo, Balanced, Issue;
    var u, ops1, led, ops2 :| AcquiresVia(pol, subject, props, now, s, u, ops1, led, t, ops2, ls) && ops == ops1 + ops2;
    RefreshStored(resource, s, now, u, ops1, led);
    var xs := AcquireSwaps(pol, subject, props, now, u, led, t, ops2);
    RefreshBalanced(s, now, u, ops1, led);
    SwapBalanced(u, xs, [ls], t, ops2);
    BalancedThen(s, ops1, u, ops2, t);
    ReplaysNone(s);
    RefreshReplays(s, now, u, ops1, led, s, []);
    assert [] + ops1 == ops1;
    SwapReplays(u, xs, [ls], t, ops2, s, ops1);
  }

  lemma ReplaysNone(s: seq<Lease>)
    ensures ReplaysTo(s, [], s)
  {
  }

  lemma ReleaseLogs(subject: Subject, now: Time, resource: string, s: seq<Lease>, t: seq<Lease>, ops: seq<Op>)
    requires subject.resource == resource && now > ZERO_TIME
    requires Stored(resource, s) && Releases(subject, now, s, t, ops)
    ensures Balanced(s, ops, t) && ReplaysTo(s, ops, t)
  {
    hide Refreshes, Run, Unique, Subjects, Sorted, Replay, Gains, Losses, ReplaysTo, Balanced, Releasing, SwapOps;
    var u, ops1, led1, v, ops3, led3 :|
      && ReleasesVia(subject, now, s, u, ops1, led1, v, t, ops3, led3)
      && ops == ops1 + Run(Releasing(subject, now), (), u).ops + ops3;
    var ops2 := Run(Releasing(subject, now), (), u).ops;
    RefreshStored(resource, s, now, u, ops1, led1);
    ReleaseStored(subject, now, u, v);
    var xs, ys := ReleaseSwaps(subject, now, u, v);
    RefreshBalanced(s, now, u, ops1, led1);
    SwapBalanced(u, xs, ys, v, ops2);
    RefreshBalanced(v, now, t, ops3, led3);
    BalancedThen(s, ops1, u, ops2, v);
    BalancedThen(s, ops1 + ops2, v, ops3, t);
    ReplaysNone(s);
    RefreshReplays(s, now, u, ops1, led1, s, []);
    assert [] + ops1 == ops1;
    SwapReplays(u, xs, ys, v, ops2, s, ops1);
    RefreshReplays(v, now, t, ops3, led3, s, ops1 + ops2);
  }

  /** Replaying a step's log on the leases it was computed from, as the in-memory provider does, makes the
      leases the transaction ends with, which the bolt provider stores; and the log accounts for the change. */
  lemma StepLogs(pol: Policy, req: Request, now: Time, resource: string, s: seq<Lease>, t: seq<Lease>, ops: seq<Op>)
    requires now > ZERO_TIME && Concerns(req, resource) && Stored(resource, s)
    requires Step(pol, req, now, s, t, ops)
    ensures Balanced(s, ops, t) && ReplaysTo(s, ops, t)
  {
    hide Acquires, Releases, Refreshes, Unique, Balanced, ReplaysTo, Sorted;
    match req
    case Acquire(subject, props) =>
      var ls :| Acquires(pol, subject, props, now, s, t, ops, ls);
      AcquireLogs(pol, subject, props, now, resource, s, t, ops, ls);
    case Release(subject) =>
      ReleaseLogs(subject, now, resource, s, t, ops);
    case Purge =>
      var led :| Refreshes(s, now, t, ops, led);
      RefreshBalanced(s, now, t, ops, led);
      ReplaysNone(s);
      RefreshReplays(s, now, t, ops, led, s, []);
      assert [] + ops == ops;
  }

  // --------------------------------------- sorting once more changes nothing

  lemma RefreshResorted(s: seq<Lease>, at: Time, t: seq<Lease>, ops: seq<Op>, led: Ledger, t': seq<Lease>)
    requires Refreshes(s, at, t, ops, led) && IsSortOf(t', t)
    ensures Refreshes(s, at, t', ops, led)
  {
    hide FirstPass, SecondPass, Sorted;
    var mid :| RefreshesVia(s, at, mid, t, ops, led);
    var first := FirstPass(at, s);
    if first.state.ledger.replacing == multiset{} {
      assert RefreshesVia(s, at, t', t', ops, led);
    } else {
      assert RefreshesVia(s, at, mid, t', ops, led);
    }
  }

  lemma CarriesResorted(d: Decision, u: seq<Lease>, t: seq<Lease>, ops: seq<Op>, t': seq<Lease>)
    requires Carries(d, u, t, ops) && IsSortOf(t', t)
    ensures Carries(d, u, t', ops)
  {
    hide Run, Sorted;
  }

  lemma AcquireSorted(pol: Policy, subject: Subject, props: map<string, string>, now: Time,
                      s: seq<Lease>, t: seq<Lease>, ops: seq<Op>, ls: Lease)
    requires Acquires(pol, subject, props, now, s, t, ops, ls)
    ensures Sorted(t)
  {
    hide Refreshes, Decide, Run, Sorted;
  }

  lemma AcquireResorted(pol: Policy, subject: Subject, props: map<string, string>, now: Time,
                        s: seq<Lease>, t: seq<Lease>, ops: seq<Op>, ls: Lease, t': seq<Lease>)
    requires Acquires(pol, subject, props, now, s, t, ops, ls) && IsSortOf(t', t)
    ensures Acquires(pol, subject, props, now, s, t', ops, ls)
  {
    hide Refreshes, Carries, Decide, IsSortOf, Run;
    var u, ops1, led, ops2 :| AcquiresVia(pol, subject, props, now, s, u, ops1, led, t, ops2, ls) && ops == ops1 + ops2;
    CarriesResorted(Decide(pol, subject, props, now, u, led), u, t, ops2, t');
    assert AcquiresVia(pol, subject, props, now, s, u, ops1, led, t', ops2, ls);
  }

  /** Sorting is free to order ties, so any other order of ties is a result of the same step. */
  lemma StepResorted(pol: Policy, req: Request, now: Time, s: seq<Lease>, t: seq<Lease>, ops: seq<Op>, t': seq<Lease>)
    requires Step(pol, req, now, s, t, ops) && IsSortOf(t', t)
    ensures Step(pol, req, now, s, t', ops)
  {
    hide Acquires, Refreshes, IsSortOf, Run;
    match req
    case Acquire(subject, props) =>
      var ls :| Acquires(pol, subject, props, now, s, t, ops, ls);
      AcquireResorted(pol, subject, props, now, s, t, ops, ls, t');
    case Release(subject) =>
      var u, ops1, led1, v, ops3, led3 :|
        && ReleasesVia(subject, now, s, u, ops1, led1, v, t, ops3, led3)
        && ops == ops1 + Run(Releasing(subject, now), (), u).ops + ops3;
      RefreshResorted(v, now, t, ops3, led3, t');
      assert ReleasesVia(subject, now, s, u, ops1, led1, v, t', ops3, led3);
    case Purge =>
      var led :| Refreshes(s, now, t, ops, led);
      RefreshResorted(s, now, t, ops, led, t');
  }
}
