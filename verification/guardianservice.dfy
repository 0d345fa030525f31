/** What a client can count on from an acquire, and what others' steps leave alone. */
module GuardianService {
  import opened Leases
  import opened LeaseSets
  import opened Transactions
  import opened Accumulators
  import opened Refreshing
  import opened FirstPasses
  import opened FirstPassCounts
  import opened RefreshLaws
  import opened RefreshService
  import opened OneEdits
  import opened Guardian
  import opened GuardianLaws

  // -------------------------------------------------- the panic in acquire

  predicate Matches(l: Lease, subject: Subject) {
    l.MatchHostUser(subject.resource, subject.instance.host, subject.instance.user)
  }

  /** A released lease counted under the subject's key although its host and user are not the subject's. */
  predicate Collides(l: Lease, subject: Subject) {
    l.status.Released? && l.HostUser() == subject.HostUser() && !Matches(l, subject)
  }

  ghost predicate Collision(u: seq<Lease>, subject: Subject) {
    exists l :: l in u && Collides(l, subject)
  }

  lemma ReplaceableLast(u: seq<Lease>, n: nat, subject: Subject)
    requires n == |u| - 1
    ensures |Replaceable(u, subject)| ==
            |Replaceable(u[..n], subject)| + if Matches(u[n], subject) && u[n].status.Released? then 1 else 0
  {
    hide Select;
    var p := IsHostUser(subject.resource, subject.instance.host, subject.instance.user);
    assert u == u[..n] + [u[n]];
    SelectAdd(p, u[..n], u[n]);
    SelectAdd(HasStatus(Released), Select(p, u[..n]), u[n]);
    assert Select(p, u[..n]) + [] == Select(p, u[..n]);
  }

  lemma SelectAdd(p: Lease -> bool, s: seq<Lease>, x: Lease)
    ensures Select(p, s + [x]) == Select(p, s) + if p(x) then [x] else []
  {
    assert (s + [x])[..|s|] == s;
  }

  lemma MatchesKey(l: Lease, subject: Subject)
    requires Matches(l, subject)
    ensures l.HostUser() == subject.HostUser()
  {
  }

  /** The two counts of the subject's released leases differ exactly when there is a collision. */
  lemma {:induction false} CountsDiffer(u: seq<Lease>, subject: Subject)
    ensures |Replaceable(u, subject)| <= Keys(Released, u)[subject.HostUser()]
    ensures |Replaceable(u, subject)| != Keys(Released, u)[subject.HostUser()] <==> Collision(u, subject)
  {
    hide Replaceable, Keys, Matches, Subject.HostUser;
    if u == [] {
      CountsNone(subject);
    } else {
      var n := |u| - 1;
      CountsDiffer(u[..n], subject);
      ReplaceableLast(u, n, subject);
      assert u == u[..n + 1] == u[..n] + [u[n]];
      KeysLast(Released, u, n);
      if Matches(u[n], subject) {
        MatchesKey(u[n], subject);
      }
      CollisionLast(u, n, subject);
    }
  }

  lemma CountsNone(subject: Subject)
    ensures Replaceable([], subject) == [] && Keys(Released, []) == multiset{}
  {
  }

  lemma CollisionLast(u: seq<Lease>, n: nat, subject: Subject)
    requires n == |u| - 1
    ensures Collision(u, subject) <==> Collision(u[..n], subject) || Collides(u[n], subject)
  {
    hide Collides;
    assert u == u[..n] + [u[n]];
    if Collides(u[n], subject) {
      assert u[n] in u;
    }
  }

  /** The subject is new, the limit is not exceeded, and the set holds a released lease whose key is the
      subject's while its host and user are not. */
  ghost predicate PanicGuard(pol: Policy, subject: Subject, u: seq<Lease>) {
    subject !in Subjects(u) && Consumption(pol.strategy, u) <= pol.limit && Collision(u, subject)
  }

  /** When the check in acquire panics, exactly, read off the refreshed set. */
  lemma PanicsExactly(pol: Policy, subject: Subject, props: map<string, string>, now: Time, u: seq<Lease>)
    ensures Decide(pol, subject, props, now, u, LedgerOf(u)) == Panic <==> PanicGuard(pol, subject, u)
  {
    hide Keys, Consumption, Subject.HostUser, Replaceable, Issue, CanActivate, Ledger.Total, Collision, FirstIndex,
         Subjects;
    CountsDiffer(u, subject);
    RecountTotal(u, LedgerOf(u), pol.strategy);
    if subject in Subjects(u) {
      PresentIndex(u, subject);
    } else {
      AbsentIndex(u, subject);
    }
  }

  lemma PresentIndex(u: seq<Lease>, subject: Subject)
    requires subject in Subjects(u)
    ensures FirstIndex(u, subject) < |u|
  {
    hide FirstIndex, Subjects;
    if FirstIndex(u, subject) == |u| {
      AbsentSubject(u, subject);
    }
  }

  /** An acquire can panic if and only if some refresh of the stored set leaves the guard true. */
  lemma AcquirePanicsExactly(pol: Policy, subject: Subject, props: map<string, string>, now: Time, s: seq<Lease>)
    ensures AcquirePanics(pol, subject, props, now, s) <==>
            exists u, ops1, led :: Refreshes(s, now, u, ops1, led) && PanicGuard(pol, subject, u)
  {
    hide Refreshes, Decide, PanicGuard, LedgerOf;
    forall u, ops1, led | Refreshes(s, now, u, ops1, led)
      ensures Decide(pol, subject, props, now, u, led) == Panic <==> PanicGuard(pol, subject, u)
    {
      AccumulatorRecounts(s, now, u, ops1, led);
      PanicsExactly(pol, subject, props, now, u);
    }
  }

  lemma GuardPermutation(pol: Policy, subject: Subject, a: seq<Lease>, b: seq<Lease>)
    requires multiset(a) == multiset(b)
    ensures PanicGuard(pol, subject, a) <==> PanicGuard(pol, subject, b)
  {
    hide Subjects, Collides, Holders, Size;
    SubjectsPermutation(a, b);
    HoldersPermutation(a, b);
    forall l ensures l in a <==> l in b {
      SameElements(a, b, l);
    }
  }

  ghost predicate HostsHaveNoSpace(s: seq<Lease>) {
    forall l :: l in s ==> NoSpace(l.subject.instance.host)
  }

  /** While no host holds a space, the check always agrees: acquire never panics. */
  lemma NoSpaceNoPanic(pol: Policy, subject: Subject, props: map<string, string>, now: Time, s: seq<Lease>)
    requires Stored(subject.resource, s) && HostsHaveNoSpace(s) && NoSpace(subject.instance.host)
    ensures !AcquirePanics(pol, subject, props, now, s)
  {
    hide Refreshes, Decide, Sorted, Unique, Keys, FirstIndex, Consumption, Subject.HostUser, NoSpace, Lease.WellFormed;
    forall u, ops1, led | Refreshes(s, now, u, ops1, led)
      ensures Decide(pol, subject, props, now, u, led) != Panic
    {
      AccumulatorRecounts(s, now, u, ops1, led);
      RefreshWellFormed(s, now, u, ops1, led);
      PanicsExactly(pol, subject, props, now, u);
      forall l | l in u ensures !Collides(l, subject) {
        var was :| was in s && was.subject == l.subject && (l.status.Queued? ==> l == was);
        HostUserInjective(l.subject, subject);
      }
    }
  }

  /** A settled set refreshes to itself. */
  lemma SettledRefreshes(now: Time, s: seq<Lease>)
    requires Sorted(s) && Settled(now, s)
    ensures Refreshes(s, now, s, [], LedgerOf(s))
  {
    hide FirstPass, LedgerOf, Settled, Sorted;
    SettledFirstPass(now, s, |s|);
    assert s[..|s|] == s;
    NoReplacing(s);
    RefreshedOnce(s, now, s);
  }

  lemma NoReplacing(s: seq<Lease>)
    ensures LedgerOf(s).replacing == multiset{}
  {
    hide Keys;
  }

  /** On a stored set with nothing left to refresh, acquire panics if and only if the guard holds of it. */
  lemma CollisionPanics(pol: Policy, subject: Subject, props: map<string, string>, now: Time, s: seq<Lease>)
    requires Sorted(s) && Settled(now, s)
    ensures AcquirePanics(pol, subject, props, now, s) <==> PanicGuard(pol, subject, s)
  {
    hide Refreshes, PanicGuard, Sorted, Settled, AcquirePanics;
    AcquirePanicsExactly(pol, subject, props, now, s);
    SettledRefreshes(now, s);
    forall u, ops1, led | Refreshes(s, now, u, ops1, led)
      ensures PanicGuard(pol, subject, u) <==> PanicGuard(pol, subject, s)
    {
      SettledIsFixed(now, s, u, ops1, led);
      GuardPermutation(pol, subject, u, s);
    }
  }

  // ------------------------------------------------- the slot taken over

  /** The slot acquire takes over is the subject's consumer's, and none of them decays earlier. */
  lemma EarliestSlotTaken(pol: Policy, subject: Subject, props: map<string, string>, now: Time,
                          u: seq<Lease>, led: Ledger, x: Lease)
    requires Sorted(u) && Decide(pol, subject, props, now, u, led).Takeover?
    requires x in u && x.status.Released? && Matches(x, subject)
    ensures var slot := Decide(pol, subject, props, now, u, led).slot;
            && slot in u && slot.status.Released? && Matches(slot, subject)
            && slot.released + slot.decay <= x.released + x.decay
  {
    hide Less, Sorted, FirstIndex, Ledger.Total, CanActivate, Subject.HostUser, Issue;
    var p := IsHostUser(subject.resource, subject.instance.host, subject.instance.user);
    var mine := Select(p, u);
    SelectSorted(p, u);
    SelectSorted(HasStatus(Released), mine);
    var slots := Replaceable(u, subject);
    assert x in mine && x in slots;
    var slot := slots[|slots| - 1];
    assert slot in slots && slot in mine;
    var i :| 0 <= i < |slots| && slots[i] == x;
    LastSlot(slots, i);
  }

  lemma LastSlot(slots: seq<Lease>, i: nat)
    requires Sorted(slots) && i < |slots| && forall y :: y in slots ==> y.status.Released?
    ensures slots[|slots| - 1].released + slots[|slots| - 1].decay <= slots[i].released + slots[i].decay
  {
    assert slots[i] in slots && slots[|slots| - 1] in slots;
    assert i == |slots| - 1 || !Less(slots[|slots| - 1], slots[i]);
  }

  // ------------------------------------------------ what an acquire leaves

  /** After an acquire the set holds the lease that was returned, and no other for the subject; its terms are those of
      the policy, but for a refresh rate that is not shorter than the duration. */
  lemma AcquireLeavesOne(pol: Policy, subject: Subject, props: map<string, string>, now: Time,
                         s: seq<Lease>, t: seq<Lease>, ops: seq<Op>, ls: Lease)
    requires Proper(pol) && now > ZERO_TIME && Stored(subject.resource, s)
    requires Acquires(pol, subject, props, now, s, t, ops, ls)
    ensures ls in t && ls.subject == subject && ls.renewed == now && (ls.status.Active? || ls.status.Queued?)
    ensures forall x :: x in t && x.subject == subject ==> x == ls
    ensures ls.properties == props && ls.released == ZERO_TIME
    ensures ls.strategy == pol.strategy && ls.limit == pol.limit && ls.duration == pol.duration && ls.decay == pol.decay
    ensures ls.refresh.active == if pol.duration <= pol.refresh.active then 0 else pol.refresh.active
    ensures ls.refresh.queued == if pol.duration <= pol.refresh.queued then 0 else pol.refresh.queued
  {
    hide Refreshes, Carries, Decide, Unique, Subjects, Sorted, SwapOps, Subject.HostUser;
    var u, ops1, led, ops2 :| AcquiresVia(pol, subject, props, now, s, u, ops1, led, t, ops2, ls) && ops == ops1 + ops2;
    RefreshStored(subject.resource, s, now, u, ops1, led);
    AcquireStored(pol, subject, props, now, s, t, ops, ls);
    DecideStatus(pol, subject, props, now, u, led);
    var xs := AcquireSwaps(pol, subject, props, now, u, led, t, ops2);
    NewLeaseIn(u, xs, ls, t, ops2);
    forall x | x in t && x.subject == subject ensures x == ls {
      UniqueMember(t, x, ls);
    }
  }

  lemma NewLeaseIn(u: seq<Lease>, xs: seq<Lease>, ls: Lease, t: seq<Lease>, ops: seq<Op>)
    requires Swaps(u, xs, [ls], t, ops)
    ensures ls in t
  {
    hide Sorted, SwapOps;
    if xs != [] && xs[0] == ls {
      assert xs[0] in xs && xs == [ls];
      assert multiset(u + [ls]) == multiset(u) + multiset{ls};
      assert multiset(t + xs) == multiset(t) + multiset{ls};
      assert ls in multiset(u);
      assert multiset(u + [ls])[ls] >= 2;
    } else {
      assert xs == [] || xs == [xs[0]];
      SwapMembers(u, xs, [ls], t, ops, ls);
    }
  }

  // -------------------------------------------------------- second release

  /** Where a subject's lease was released, or had expired, a refresh finds at most a released lease of it. */
  lemma StillReleased(resource: string, now: Time, s: seq<Lease>, u: seq<Lease>, ops: seq<Op>, led: Ledger, x: Lease)
    requires Stored(resource, s) && Refreshes(s, now, u, ops, led)
    requires x in s && (x.status.Released? || (x.status.Active? && x.Expired(now)))
    ensures forall y :: y in u && y.subject == x.subject ==> y.status.Released?
  {
    hide Refreshes, Sorted, Unique;
    RefreshOrigins(s, now, u, ops, led);
    forall y | y in u && y.subject == x.subject ensures y.status.Released? {
      var l :| l in s && ScansTo(now, l, y);
      UniqueMember(s, l, x);
    }
  }

  /** Releasing a lease that has been released already, or that is active and past its expiration, leaves no lease
      of the subject, so that its slot does not go on decaying; the server reports the first case as ignored. */
  lemma ReleasedAgain(subject: Subject, now: Time, s: seq<Lease>, t: seq<Lease>, ops: seq<Op>, x: Lease)
    requires now > ZERO_TIME && Stored(subject.resource, s) && Releases(subject, now, s, t, ops)
    requires x in s && x.subject == subject && (x.status.Released? || (x.status.Active? && x.Expired(now)))
    ensures subject !in Subjects(t)
  {
    hide Refreshes, Run, Releasing, Unique, Subjects, Sorted, SwapOps, IsSortOf, Lease.WellFormed;
    var u, ops1, led1, v, ops3, led3 :|
      && ReleasesVia(subject, now, s, u, ops1, led1, v, t, ops3, led3)
      && ops == ops1 + Run(Releasing(subject, now), (), u).ops + ops3;
    RefreshStored(subject.resource, s, now, u, ops1, led1);
    StillReleased(subject.resource, now, s, u, ops1, led1, x);
    var xs, ys := ReleaseSwaps(subject, now, u, v);
    assert xs != [] ==> xs[0] in xs && xs[0] in u;
    assert ys == [];
    NoSubjects();
    SwapSubjects(u, xs, ys, v, Run(Releasing(subject, now), (), u).ops);
    SubjectGone(u, xs, v, subject);
    RefreshSubjects(v, now, t, ops3, led3);
  }

  lemma SubjectGone(u: seq<Lease>, xs: seq<Lease>, v: seq<Lease>, subject: Subject)
    requires Unique(u) && Subjects(v) + Subjects(xs) == Subjects(u)
    requires subject !in Subjects(u) || (|xs| == 1 && xs[0].subject == subject)
    ensures subject !in Subjects(v)
  {
    hide Subjects;
    if subject in Subjects(u) {
      SubjectsOne(xs[0]);
      assert xs == [xs[0]];
      assert (Subjects(v) + multiset{subject})[subject] <= 1;
    } else {
      assert Subjects(v)[subject] <= Subjects(u)[subject];
    }
  }

  // --------------------------------------------- what others leave alone

  lemma MakesWayFor(subject: Subject, u: seq<Lease>, xs: seq<Lease>, x: Lease)
    requires MakesWay(subject, u, xs) && !x.status.Released? && x.subject != subject
    ensures x !in xs
  {
  }

  lemma OthersAcquire(pol: Policy, subject: Subject, props: map<string, string>, now: Time,
                      s: seq<Lease>, t: seq<Lease>, ops: seq<Op>, ls: Lease, x: Lease)
    requires Stored(subject.resource, s) && Acquires(pol, subject, props, now, s, t, ops, ls)
    requires x in s && x.status.Active? && !x.Expired(now) && x.subject != subject
    ensures x in t
  {
    hide Refreshes, Carries, Decide, Unique, Subjects, Sorted, SwapOps, Swaps, Subject.HostUser, Issue, MakesWay;
    var u, ops1, led, ops2 :| AcquiresVia(pol, subject, props, now, s, u, ops1, led, t, ops2, ls) && ops == ops1 + ops2;
    RefreshStored(subject.resource, s, now, u, ops1, led);
    UnexpiredActiveStays(s, now, u, ops1, led, x);
    var xs := AcquireSwaps(pol, subject, props, now, u, led, t, ops2);
    MakesWayFor(subject, u, xs, x);
    SwapMembers(u, xs, [ls], t, ops2, x);
  }

  lemma OthersRelease(subject: Subject, now: Time, s: seq<Lease>, t: seq<Lease>, ops: seq<Op>, x: Lease)
    requires now > ZERO_TIME && Stored(subject.resource, s) && Releases(subject, now, s, t, ops)
    requires x in s && x.status.Active? && !x.Expired(now) && x.subject != subject
    ensures x in t
  {
    hide Refreshes, Run, Releasing, Unique, Subjects, Sorted, SwapOps, IsSortOf;
    var u, ops1, led1, v, ops3, led3 :|
      && ReleasesVia(subject, now, s, u, ops1, led1, v, t, ops3, led3)
      && ops == ops1 + Run(Releasing(subject, now), (), u).ops + ops3;
    RefreshStored(subject.resource, s, now, u, ops1, led1);
    UnexpiredActiveStays(s, now, u, ops1, led1, x);
    ReleaseStored(subject, now, u, v);
    var xs, ys := ReleaseSwaps(subject, now, u, v);
    SwapMembers(u, xs, ys, v, Run(Releasing(subject, now), (), u).ops, x);
    UnexpiredActiveStays(v, now, t, ops3, led3, x);
  }

  /** An unexpired active lease is not demoted, deleted or replaced by any step but its own release. */
  lemma ActiveLeftAlone(pol: Policy, req: Request, now: Time, resource: string,
                        s: seq<Lease>, t: seq<Lease>, ops: seq<Op>, x: Lease)
    requires now > ZERO_TIME && Concerns(req, resource) && Stored(resource, s)
    requires Step(pol, req, now, s, t, ops)
    requires x in s && x.status.Active? && !x.Expired(now)
    requires req.Purge? || req.subject != x.subject
    ensures x in t
  {
    hide Acquires, Releases, Refreshes, Stored;
    match req
    case Acquire(subject, props) =>
      var ls :| Acquires(pol, subject, props, now, s, t, ops, ls);
      OthersAcquire(pol, subject, props, now, s, t, ops, ls, x);
    case Release(subject) =>
      OthersRelease(subject, now, s, t, ops, x);
    case Purge =>
      var led :| Refreshes(s, now, t, ops, led);
      StoredWellFormed(resource, s);
      UnexpiredActiveStays(s, now, t, ops, led, x);
  }

  lemma StoredWellFormed(resource: string, s: seq<Lease>)
    requires Stored(resource, s)
    ensures AllWellFormed(s)
  {
  }

  /** Renewing an unexpired active lease keeps it active, whatever the limit. */
  lemma ActiveRenewed(pol: Policy, subject: Subject, props: map<string, string>, now: Time,
                      s: seq<Lease>, t: seq<Lease>, ops: seq<Op>, ls: Lease, x: Lease)
    requires Stored(subject.resource, s) && Acquires(pol, subject, props, now, s, t, ops, ls)
    requires x in s && x.status.Active? && !x.Expired(now) && x.subject == subject
    ensures ls in t && ls == Issue(pol, subject, props, now, Active, x.started)
  {
    hide Refreshes, Carries, Unique, Subjects, Sorted, SwapOps, Swaps, Subject.HostUser, Issue, MakesWay, Ledger.Total,
      FirstIndex, Lease.WellFormed;
    var u, ops1, led, ops2 :| AcquiresVia(pol, subject, props, now, s, u, ops1, led, t, ops2, ls) && ops == ops1 + ops2;
    RefreshStored(subject.resource, s, now, u, ops1, led);
    UnexpiredActiveStays(s, now, u, ops1, led, x);
    var xs := AcquireSwaps(pol, subject, props, now, u, led, t, ops2);
    var k := UniquePosition(u, x);
    NewLeaseIn(u, xs, ls, t, ops2);
  }

  /** A refresh leaves an unexpired queued lease in the set, waiting as it was or activated. */
  lemma QueuedRemains(s: seq<Lease>, now: Time, u: seq<Lease>, ops: seq<Op>, led: Ledger, x: Lease)
    requires Refreshes(s, now, u, ops, led) && x in s && x.status.Queued? && !x.Expired(now)
    ensures x in u || Activate(x) in u
  {
    hide Refreshes, Blocked, FirstPass;
    var i :| 0 <= i < |s| && s[i] == x;
    ServiceOutcome(s, now, u, ops, led, i);
  }

  /** Renewing an unexpired queued lease keeps its place: its start, by which the queue is ordered, stays. */
  lemma QueuedRenewed(pol: Policy, subject: Subject, props: map<string, string>, now: Time,
                      s: seq<Lease>, t: seq<Lease>, ops: seq<Op>, ls: Lease, x: Lease)
    requires Stored(subject.resource, s) && Acquires(pol, subject, props, now, s, t, ops, ls)
    requires x in s && x.status.Queued? && !x.Expired(now) && x.subject == subject
    ensures ls in t && ls == Issue(pol, subject, props, now, ls.status, x.started)
    ensures ls.status.Queued? || ls.status.Active?
  {
    hide Refreshes, Carries, Unique, Subjects, Sorted, SwapOps, Swaps, Subject.HostUser, Issue, MakesWay, Ledger.Total,
      FirstIndex, Lease.WellFormed;
    var u, ops1, led, ops2 :| AcquiresVia(pol, subject, props, now, s, u, ops1, led, t, ops2, ls) && ops == ops1 + ops2;
    RefreshStored(subject.resource, s, now, u, ops1, led);
    QueuedRemains(s, now, u, ops1, led, x);
    var xs := AcquireSwaps(pol, subject, props, now, u, led, t, ops2);
    var y := if x in u then x else Activate(x);
    var k := UniquePosition(u, y);
    IssuedStatus(pol, subject, props, now, y.status, y.started);
    NewLeaseIn(u, xs, ls, t, ops2);
  }

  lemma IssuedStatus(pol: Policy, subject: Subject, props: map<string, string>, now: Time,
                     status: Status, started: Time)
    ensures Issue(pol, subject, props, now, status, started).status == status
  {
  }

  lemma OthersLeaveQueued(resource: string, subject: Subject, now: Time, u: seq<Lease>, v: seq<Lease>,
                          t: seq<Lease>, ops3: seq<Op>, led3: Ledger, y: Lease) returns (z: Lease)
    requires now > ZERO_TIME && subject.resource == resource && Stored(resource, u)
    requires IsSortOf(v, Run(Releasing(subject, now), (), u).leases) && Refreshes(v, now, t, ops3, led3)
    requires y in u && y.subject != subject && !y.Expired(now) && (y.status.Active? || y.status.Queued?)
    ensures z in t && (z == y || (y.status.Queued? && z == Activate(y)))
  {
    hide Refreshes, Run, Releasing, Unique, Subjects, Sorted, SwapOps, IsSortOf, Lease.WellFormed;
    ReleaseStored(subject, now, u, v);
    StoredWellFormed(resource, v);
    var xs, ys := ReleaseSwaps(subject, now, u, v);
    SwapMembers(u, xs, ys, v, Run(Releasing(subject, now), (), u).ops, y);
    if y.status.Active? {
      UnexpiredActiveStays(v, now, t, ops3, led3, y);
      z := y;
    } else {
      QueuedRemains(v, now, t, ops3, led3, y);
      z := if y in t then y else Activate(y);
    }
  }

  /** An unexpired queued lease keeps its place through every step but its own release and renewal: it is left as it
      is, or activated. */
  lemma QueuedLeftAlone(pol: Policy, req: Request, now: Time, resource: string,
                        s: seq<Lease>, t: seq<Lease>, ops: seq<Op>, x: Lease) returns (z: Lease)
    requires now > ZERO_TIME && Concerns(req, resource) && Stored(resource, s)
    requires Step(pol, req, now, s, t, ops)
    requires x in s && x.status.Queued? && !x.Expired(now)
    requires req.Purge? || req.subject != x.subject
    ensures z in t && (z == x || z == Activate(x))
  {
    hide Refreshes, Carries, Decide, Unique, Subjects, Sorted, SwapOps, Swaps, Subject.HostUser, Issue, MakesWay, Run,
         IsSortOf, Lease.WellFormed;
    match req
    case Acquire(subject, props) =>
      var ls :| Acquires(pol, subject, props, now, s, t, ops, ls);
      var u, ops1, led, ops2 :|
        AcquiresVia(pol, subject, props, now, s, u, ops1, led, t, ops2, ls) && ops == ops1 + ops2;
      RefreshStored(resource, s, now, u, ops1, led);
      QueuedRemains(s, now, u, ops1, led, x);
      z := if x in u then x else Activate(x);
      var xs := AcquireSwaps(pol, subject, props, now, u, led, t, ops2);
      MakesWayFor(subject, u, xs, z);
      SwapMembers(u, xs, [ls], t, ops2, z);
    case Release(subject) =>
      var u, ops1, led1, v, ops3, led3 :|
        && ReleasesVia(subject, now, s, u, ops1, led1, v, t, ops3, led3)
        && ops == ops1 + Run(Releasing(subject, now), (), u).ops + ops3;
      RefreshStored(resource, s, now, u, ops1, led1);
      QueuedRemains(s, now, u, ops1, led1, x);
      z := OthersLeaveQueued(resource, subject, now, u, v, t, ops3, led3, if x in u then x else Activate(x));
    case Purge =>
      var led :| Refreshes(s, now, t, ops, led);
      QueuedRemains(s, now, t, ops, led, x);
      z := if x in t then x else Activate(x);
  }

  // ------------------------------------------------------------- newcomers

  lemma NoSlotNoKeys(strat: Strategy, c: string, u: seq<Lease>)
    requires !HoldsSlot(strat, c, u)
    ensures Keys(Released, u)[c] == 0 && (strat == ByConsumer ==> Keys(Active, u)[c] == 0)
  {
    hide Keys, Subject.HostUser;
    if c in Keys(Released, u) {
      var x := KeysWitness(Released, u, c);
    }
    if c in Keys(Active, u) {
      var x := KeysWitness(Active, u, c);
    }
  }

  /** First come, first served at the door: a newcomer holding no slot waits while anyone is queued. */
  lemma NewcomerWaits(pol: Policy, subject: Subject, props: map<string, string>, now: Time,
                      s: seq<Lease>, u: seq<Lease>, ops1: seq<Op>, led: Ledger, q: Lease)
    requires Stored(subject.resource, s) && Capped(pol.strategy, pol.limit, s) && Refreshes(s, now, u, ops1, led)
    requires q in u && q.status.Queued?
    requires subject !in Subjects(u) && !HoldsSlot(pol.strategy, subject.HostUser(), u)
    ensures Decide(pol, subject, props, now, u, led) == Creation(Issue(pol, subject, props, now, Queued, now))
  {
    hide Refreshes, Sorted, Unique, Consumption, Keys, Subjects, Subject.HostUser, HoldsSlot, Ledger.Total,
      Issue, FirstIndex, Lease.WellFormed;
    WorkConserved(s, now, u, ops1, led, pol.strategy, pol.limit, q);
    AccumulatorRecounts(s, now, u, ops1, led);
    NoSlotNoKeys(pol.strategy, subject.HostUser(), u);
    AbsentIndex(u, subject);
    assert led.Total(pol.strategy) == Consumption(pol.strategy, u);
  }

  lemma SlotIsCounted(strat: Strategy, c: string, u: seq<Lease>)
    ensures HoldsSlot(strat, c, u) <==> Keys(Released, u)[c] > 0 || (strat == ByConsumer && Keys(Active, u)[c] > 0)
  {
    hide Keys, Subject.HostUser;
    if x :| x in u && x.HostUser() == c && (x.status.Released? || (strat == ByConsumer && x.status.Active?)) {
      KeysMember(x.status, u, x);
    } else {
      NoSlotNoKeys(strat, c, u);
    }
  }

  lemma SlotConsumes(strat: Strategy, c: string, u: seq<Lease>)
    requires HoldsSlot(strat, c, u)
    ensures Consumption(strat, u) > 0
  {
    hide Keys, HoldsSlot, Ledger.Total, Consumption;
    SlotIsCounted(strat, c, u);
    RecountTotal(u, LedgerOf(u), strat);
    HolderCounts(strat, LedgerOf(u), c);
  }

  ghost predicate HeldActive(subject: Subject, u: seq<Lease>) {
    exists x :: x in u && x.subject == subject && x.status.Active?
  }

  lemma HeldAt(u: seq<Lease>, subject: Subject)
    requires Unique(u)
    ensures var k := FirstIndex(u, subject); HeldActive(subject, u) <==> k < |u| && u[k].status.Active?
  {
    hide Unique, FirstIndex;
    var k := FirstIndex(u, subject);
    if x :| x in u && x.subject == subject && x.status.Active? {
      var j :| 0 <= j < |u| && u[j] == x;
      UniqueIndex(u, k, j);
    }
  }

  lemma QueuesExactly(pol: Policy, subject: Subject, props: map<string, string>, now: Time, u: seq<Lease>)
    requires var d := Decide(pol, subject, props, now, u, LedgerOf(u)); d != Panic
    requires Unique(u) && AllWellFormed(u) && Consumption(pol.strategy, u) <= pol.limit
    requires forall q :: q in u && q.status.Queued? ==>
                           Consumption(pol.strategy, u) == pol.limit && !HoldsSlot(pol.strategy, q.HostUser(), u)
    ensures Decide(pol, subject, props, now, u, LedgerOf(u)).ls.status.Queued? <==>
            && Consumption(pol.strategy, u) == pol.limit
            && !HoldsSlot(pol.strategy, subject.HostUser(), u)
            && !HeldActive(subject, u)
  {
    hide Keys, Consumption, Subject.HostUser, Ledger.Total, Usable, FirstIndex, HoldsSlot, HeldActive, Unique,
         Lease.WellFormed, Replaceable;
    var c := subject.HostUser();
    RecountTotal(u, LedgerOf(u), pol.strategy);
    SlotIsCounted(pol.strategy, c, u);
    HeldAt(u, subject);
    if HoldsSlot(pol.strategy, c, u) {
      SlotConsumes(pol.strategy, c, u);
    }
    var k := FirstIndex(u, subject);
    if k < |u| {
      assert u[k] in u;
      WellFormedStatus(u[k]);
      if u[k].status.Released? {
        SlotItself(pol.strategy, u, k);
      }
    }
  }

  lemma WellFormedStatus(l: Lease)
    requires l.WellFormed()
    ensures l.status.Active? || l.status.Released? || l.status.Queued?
  {
  }

  lemma SlotItself(strat: Strategy, u: seq<Lease>, k: nat)
    requires k < |u| && u[k].status.Released?
    ensures HoldsSlot(strat, u[k].HostUser(), u)
  {
    hide Subject.HostUser;
  }

  /** An acquire conserves work: under one policy for the resource it returns a queued lease exactly when the
      refreshed set consumes the whole limit and has nothing of the subject's or its consumer's to go on from. */
  lemma AcquireQueuesExactly(pol: Policy, subject: Subject, props: map<string, string>, now: Time, s: seq<Lease>,
                             u: seq<Lease>, ops1: seq<Op>, led: Ledger, t: seq<Lease>, ops2: seq<Op>, ls: Lease)
    requires Stored(subject.resource, s) && Capped(pol.strategy, pol.limit, s)
    requires AcquiresVia(pol, subject, props, now, s, u, ops1, led, t, ops2, ls)
    ensures ls.status.Queued? <==>
            && Consumption(pol.strategy, u) == pol.limit
            && !HoldsSlot(pol.strategy, subject.HostUser(), u)
            && !HeldActive(subject, u)
  {
    hide Refreshes, Sorted, Unique, Consumption, Subject.HostUser, HoldsSlot, Uniform, Decide, Carries, HeldActive,
         Lease.WellFormed;
    AccumulatorRecounts(s, now, u, ops1, led);
    RefreshStored(subject.resource, s, now, u, ops1, led);
    RefreshCapacity(s, now, u, ops1, led, pol.strategy, pol.limit);
    forall q | q in u && q.status.Queued?
      ensures Consumption(pol.strategy, u) == pol.limit && !HoldsSlot(pol.strategy, q.HostUser(), u)
    {
      WorkConserved(s, now, u, ops1, led, pol.strategy, pol.limit, q);
    }
    QueuesExactly(pol, subject, props, now, u);
  }

  lemma AbsentIndex(u: seq<Lease>, subject: Subject)
    requires subject !in Subjects(u)
    ensures FirstIndex(u, subject) == |u|
  {
    hide FirstIndex, Subjects;
    var k := FirstIndex(u, subject);
    if k < |u| {
      PresentSubject(u, k);
    }
  }
}
