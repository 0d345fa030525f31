/** Slots are held until they have decayed: which steps keep that, exactly. */
module Slots {
  import opened Leases
  import opened Projections
  import opened LeaseSets
  import opened Transactions
  import opened Accumulators
  import opened Refreshing
  import opened FirstPasses
  import opened FirstPassCounts
  import opened SecondPasses
  import opened RefreshLaws
  import opened RefreshService
  import opened OneEdits
  import opened Guardian
  import opened GuardianLaws
  import opened GuardianService

  function HeldIf(now: Time): Lease -> multiset<string> {
    (l: Lease) => if l.Consumptive() && !l.Decayed(now) then multiset{l.HostUser()} else multiset{}
  }

  /** The consumers of the slots that have not decayed at `now`, one entry for each slot. */
  function Held(now: Time, s: seq<Lease>): multiset<string> {
    Project(HeldIf(now), s)
  }

  /** A step that works on what its first refresh made of `s`, which is `u`. */
  ghost predicate StepFrom(pol: Policy, req: Request, now: Time,
                           s: seq<Lease>, u: seq<Lease>, t: seq<Lease>, ops: seq<Op>) {
    match req
    case Acquire(subject, props) =>
      exists ops1, led, ops2, ls ::
        AcquiresVia(pol, subject, props, now, s, u, ops1, led, t, ops2, ls) && ops == ops1 + ops2
    case Release(subject) =>
      exists ops1, led1, v, ops3, led3 ::
        && ReleasesVia(subject, now, s, u, ops1, led1, v, t, ops3, led3)
        && ops == ops1 + Run(Releasing(subject, now), (), u).ops + ops3
    case Purge => u == t && exists led :: Refreshes(s, now, t, ops, led)
  }

  lemma StepIsFrom(pol: Policy, req: Request, now: Time, s: seq<Lease>, t: seq<Lease>, ops: seq<Op>)
    ensures Step(pol, req, now, s, t, ops) <==> exists u :: StepFrom(pol, req, now, s, u, t, ops)
  {
    hide AcquiresVia, ReleasesVia, Refreshes, Run;
    if Step(pol, req, now, s, t, ops) {
      match req
      case Acquire(subject, props) =>
        var ls :| Acquires(pol, subject, props, now, s, t, ops, ls);
        var u, ops1, led, ops2 :|
          AcquiresVia(pol, subject, props, now, s, u, ops1, led, t, ops2, ls) && ops == ops1 + ops2;
        assert StepFrom(pol, req, now, s, u, t, ops);
      case Release(subject) =>
        var u, ops1, led1, v, ops3, led3 :|
          && ReleasesVia(subject, now, s, u, ops1, led1, v, t, ops3, led3)
          && ops == ops1 + Run(Releasing(subject, now), (), u).ops + ops3;
        assert StepFrom(pol, req, now, s, u, t, ops);
      case Purge =>
        assert StepFrom(pol, req, now, s, t, t, ops);
    }
    if u :| StepFrom(pol, req, now, s, u, t, ops) {
      StepOf(pol, req, now, s, u, t, ops);
    }
  }

  lemma StepOf(pol: Policy, req: Request, now: Time, s: seq<Lease>, u: seq<Lease>, t: seq<Lease>, ops: seq<Op>)
    requires StepFrom(pol, req, now, s, u, t, ops)
    ensures Step(pol, req, now, s, t, ops)
  {
    hide AcquiresVia, ReleasesVia, Refreshes, Run;
    match req
    case Acquire(subject, props) =>
      var ops1, led, ops2, ls :|
        AcquiresVia(pol, subject, props, now, s, u, ops1, led, t, ops2, ls) && ops == ops1 + ops2;
      AcquiredBy(pol, subject, props, now, s, u, ops1, led, t, ops2, ls);
    case Release(subject) =>
    case Purge =>
  }

  /** The subject's lease in the refreshed set is a released one. */
  ghost predicate ReleasedIn(u: seq<Lease>, subject: Subject) {
    exists x :: x in u && x.subject == subject && x.status.Released?
  }

  /** A release deletes such a lease; an acquire puts it back in the queue when the limit is exceeded. */
  ghost predicate GivesUp(pol: Policy, req: Request, u: seq<Lease>) {
    match req
    case Acquire(subject, _) => ReleasedIn(u, subject) && Consumption(pol.strategy, u) > pol.limit
    case Release(subject) => ReleasedIn(u, subject)
    case Purge => false
  }

  // -------------------------------------------------------------- refresh

  lemma HeldLast(now: Time, s: seq<Lease>, n: nat)
    requires n < |s|
    ensures Held(now, s[..n + 1]) == Held(now, s[..n]) + HeldIf(now)(s[n])
  {
    assert s[..n + 1][..n] == s[..n];
  }

  lemma HeldNone(now: Time)
    ensures Held(now, []) == multiset{}
  {
  }

  lemma ScanHeldSlots(now: Time, st: Scan, l: Lease)
    requires !l.status.Queued?
    ensures ScanStep(now, st, l).0.ledger.Holders() == st.ledger.Holders() + HeldIf(now)(l)
  {
    hide Subject.HostUser, Ledger.Holders;
    AddHolders(st.ledger, l.HostUser(), Active);
    AddHolders(st.ledger, l.HostUser(), Released);
    assert st.ledger.Holders() + multiset{} == st.ledger.Holders();
  }

  lemma ScanQueuedSlots(now: Time, st: Scan, l: Lease)
    requires l.status.Queued?
    ensures var after := ScanStep(now, st, l).0.ledger;
            && st.ledger.Holders() <= after.Holders()
            && after.released <= st.ledger.released
            && forall c :: after.Holders()[c] > st.ledger.Holders()[c] ==> st.ledger.released[c] == 0
  {
    hide Subject.HostUser, Ledger.Holders, Ledger.Total, CanActivate;
    AddHolders(st.ledger, l.HostUser(), Active);
    if l.HostUser() in st.ledger.released {
      StartHolders(st.ledger, l.HostUser());
    }
  }

  /** What one lease does to the slots counted. */
  lemma ScanStepSlots(now: Time, st: Scan, l: Lease)
    ensures var after := ScanStep(now, st, l).0.ledger;
            && (!l.status.Queued? ==> after.Holders() == st.ledger.Holders() + HeldIf(now)(l))
            && (l.status.Queued? ==>
                  && st.ledger.Holders() <= after.Holders()
                  && after.released <= st.ledger.released
                  && forall c :: after.Holders()[c] > st.ledger.Holders()[c] ==> st.ledger.released[c] == 0)
  {
    hide ScanStep, Ledger.Holders, HeldIf;
    if l.status.Queued? {
      ScanQueuedSlots(now, st, l);
    } else {
      ScanHeldSlots(now, st, l);
    }
  }

  lemma QueuedHoldsNothing(now: Time, l: Lease)
    requires !l.Consumptive()
    ensures HeldIf(now)(l) == multiset{}
  {
  }

  /** Every undecayed slot is counted; while there is a released one left to its consumer, nothing else is. */
  lemma {:induction false} FirstPassSlots(now: Time, s: seq<Lease>, k: nat)
    requires Sorted(s) && k <= |s|
    ensures var led := FirstPass(now, s[..k]).state.ledger;
            && Held(now, s[..k]) <= led.Holders()
            && (NoneQueued(s[..k]) ==> led.Holders() == Held(now, s[..k]))
            && (forall c :: led.released[c] > 0 ==> led.Holders()[c] == Held(now, s[..k])[c])
  {
    hide FirstPass, ScanStep, Held, HeldIf, Sorted, Ledger.Holders, Subject.HostUser;
    FirstPassNone(now);
    if k == 0 {
      assert s[..0] == [];
      HeldNone(now);
      EmptyLedgerHolders();
    } else {
      var n := k - 1;
      FirstPassSlots(now, s, n);
      FirstPassStep(now, s, n);
      HeldLast(now, s, n);
      assert s[..k] == s[..n] + [s[n]];
      ScanStepSlots(now, FirstPass(now, s[..n]).state, s[n]);
      if s[n].Consumptive() {
        HeldBeforeQueued(s, n);
      } else {
        QueuedHoldsNothing(now, s[n]);
        ScanIdleReleasedBelow(now, FirstPass(now, s[..n]).state, s[n]);
        assert s[n] in s[..k];
      }
    }
  }

  lemma ScanIdleReleasedBelow(now: Time, st: Scan, l: Lease)
    requires !l.Consumptive()
    ensures ScanStep(now, st, l).0.ledger.released <= st.ledger.released
  {
    hide Subject.HostUser, Ledger.Total, CanActivate;
  }

  lemma RefreshLedger(s: seq<Lease>, at: Time, t: seq<Lease>, ops: seq<Op>, led: Ledger)
    requires Refreshes(s, at, t, ops, led)
    ensures led.Holders() == FirstPass(at, s).state.ledger.Holders()
    ensures led.released == FirstPass(at, s).state.ledger.released
    ensures Holders(t) == led.Holders() && Keys(Released, t) == led.released
  {
    AccumulatorRecounts(s, at, t, ops, led);
    hide FirstPass, SecondPass, Sorted, Fits, Keys;
    var mid :| RefreshesVia(s, at, mid, t, ops, led);
    var first := FirstPass(at, s);
    FirstPassFits(at, s, mid);
    if first.state.ledger.replacing != multiset{} {
      NoPanic(first.state, mid);
    }
  }

  /** A refresh keeps every undecayed slot with its consumer, and adds none to a consumer that has a released one
      left. */
  lemma RefreshSlots(s: seq<Lease>, now: Time, u: seq<Lease>, ops: seq<Op>, led: Ledger)
    requires Refreshes(s, now, u, ops, led) && Sorted(s)
    ensures Held(now, s) <= Holders(u)
    ensures forall c :: Keys(Released, u)[c] > 0 ==> Holders(u)[c] == Held(now, s)[c]
  {
    hide Refreshes, FirstPass, Sorted, Held, Ledger.Holders, Holders, Keys;
    RefreshLedger(s, now, u, ops, led);
    FirstPassSlots(now, s, |s|);
    assert s[..|s|] == s;
  }

  /** Where nothing has decayed, all that is counted is held. */
  lemma {:induction false} HeldIsHolders(now: Time, s: seq<Lease>, k: nat)
    requires k <= |s| && forall x :: x in s && x.Consumptive() ==> !x.Decayed(now)
    ensures Held(now, s[..k]) == Holders(s[..k])
  {
    hide Held, Holders, Subject.HostUser;
    if k == 0 {
      assert s[..0] == [];
      HeldNone(now);
      HoldersNone();
    } else {
      var n := k - 1;
      HeldIsHolders(now, s, n);
      HeldLast(now, s, n);
      HoldersLast(s, n);
      assert s[n] in s;
    }
  }

  // ------------------------------------------- what a deleted slot is worth

  /** Why no lease of consumer `c` is activated on the strength of a slot that was deleted: with the slot the limit
      was exceeded, so without it the limit is met at least; and exceeded still if `c` holds another and consumers
      are what is counted. */
  predicate Tight(l: Lease, c: string, held: multiset<string>) {
    && Size(l.strategy, held) >= l.limit
    && (l.strategy == ByConsumer && c in held ==> Size(l.strategy, held) > l.limit)
  }

  lemma TightWithout(l: Lease, c: string, full: multiset<string>, held: multiset<string>)
    requires full == held + multiset{c} && Size(l.strategy, full) > l.limit
    ensures Tight(l, c, held)
  {
    SizeAdd(l.strategy, held, c);
    hide Size;
  }

  lemma TightBlocks(now: Time, st: Scan, l: Lease, held: multiset<string>)
    requires l.status.Queued? && Tight(l, l.HostUser(), held)
    requires held <= st.ledger.Holders() && st.ledger.Holders()[l.HostUser()] == held[l.HostUser()]
    ensures ScanStep(now, st, l).0.ledger.Holders()[l.HostUser()] == held[l.HostUser()]
  {
    hide Subject.HostUser, Size;
    SizeMonotone(l.strategy, held, st.ledger.Holders());
  }

  lemma OthersQueued(now: Time, st: Scan, l: Lease, c: string)
    requires !l.Consumptive() && l.HostUser() != c
    ensures ScanStep(now, st, l).0.ledger.Holders()[c] == st.ledger.Holders()[c]
  {
    hide Subject.HostUser, Ledger.Total, CanActivate;
  }

  lemma IdleHolders(now: Time, st: Scan, l: Lease)
    requires !l.Consumptive()
    ensures st.ledger.Holders() <= ScanStep(now, st, l).0.ledger.Holders()
    ensures !l.status.Queued? ==> ScanStep(now, st, l).0.ledger.Holders() == st.ledger.Holders()
  {
    hide Subject.HostUser, Ledger.Total, CanActivate;
  }

  lemma {:induction false} HoldersQueued(s: seq<Lease>, n: nat, k: nat)
    requires Sorted(s) && n <= k <= |s| && n < |s| && !s[n].Consumptive()
    ensures Holders(s[..k]) == Holders(s[..n])
  {
    hide Holders, Sorted, Subject.HostUser;
    if n < k {
      HoldersQueued(s, n, k - 1);
      HoldersLast(s, k - 1);
      SortedByStatus(s, n, k - 1);
    }
  }

  /** A set in which nothing held is past its time, and every queued lease of `c` is tight. */
  ghost predicate TightSet(now: Time, c: string, v: seq<Lease>) {
    && (forall x :: x in v && x.Consumptive() ==> !x.Decayed(now))
    && (forall q :: q in v && q.status.Queued? && q.HostUser() == c ==> Tight(q, c, Holders(v)))
  }

  lemma {:induction false} FirstPassGainsNothing(now: Time, v: seq<Lease>, c: string, k: nat)
    requires Sorted(v) && TightSet(now, c, v) && k <= |v|
    ensures var led := FirstPass(now, v[..k]).state.ledger;
            Holders(v[..k]) <= led.Holders() && led.Holders()[c] == Holders(v[..k])[c]
  {
    hide FirstPass, ScanStep, Sorted, Holders, Ledger.Holders, Subject.HostUser, Tight, HeldIf;
    FirstPassNone(now);
    if k == 0 {
      assert v[..0] == [];
      HoldersNone();
      EmptyLedgerHolders();
    } else {
      var n := k - 1;
      var before := FirstPass(now, v[..n]).state;
      FirstPassGainsNothing(now, v, c, n);
      FirstPassStep(now, v, n);
      HoldersLast(v, n);
      assert v[n] in v;
      if v[n].Consumptive() {
        ScanStepSlots(now, before, v[n]);
        HeldNow(now, v[n]);
      } else {
        IdleHolders(now, before, v[n]);
        HoldersQueued(v, n, |v|);
        assert v[..|v|] == v;
        if v[n].HostUser() != c {
          OthersQueued(now, before, v[n], c);
        } else if v[n].status.Queued? {
          TightBlocks(now, before, v[n], Holders(v));
        }
      }
    }
  }

  lemma HeldNow(now: Time, l: Lease)
    requires l.Consumptive() && !l.Decayed(now)
    ensures HeldIf(now)(l) == multiset{l.HostUser()} && !l.status.Queued?
  {
  }

  lemma RefreshGainsNothing(now: Time, v: seq<Lease>, t: seq<Lease>, ops: seq<Op>, led: Ledger, c: string)
    requires Refreshes(v, now, t, ops, led) && Sorted(v) && TightSet(now, c, v)
    ensures Holders(t)[c] == Holders(v)[c]
  {
    hide Refreshes, FirstPass, Sorted, Holders, Ledger.Holders, TightSet, Keys;
    RefreshLedger(v, now, t, ops, led);
    FirstPassGainsNothing(now, v, c, |v|);
    assert v[..|v|] == v;
  }

  lemma SettledTight(now: Time, u: seq<Lease>, x: Lease, v: seq<Lease>)
    requires Settled(now, u) && x in u && x.status.Released?
    requires Holders(u) == Holders(v) + multiset{x.HostUser()} && forall y :: y in v ==> y in u
    ensures TightSet(now, x.HostUser(), v)
  {
    hide Subject.HostUser, Holders, Size, Tight, Blocked;
    var c := x.HostUser();
    KeysMember(Released, u, x);
    forall q | q in v && q.status.Queued? && q.HostUser() == c ensures Tight(q, c, Holders(v)) {
      BlockedOver(q, u);
      TightWithout(q, c, Holders(u), Holders(v));
    }
  }

  lemma BlockedOver(q: Lease, u: seq<Lease>)
    requires Blocked(q, LedgerOf(u)) && Keys(Released, u)[q.HostUser()] > 0
    ensures Size(q.strategy, Holders(u)) > q.limit
  {
    hide Subject.HostUser, Keys, Size;
  }

  // -------------------------------------------------------------- release

  /** Deleting a released lease costs its consumer one slot, for good. */
  lemma DeletedSlot(now: Time, u: seq<Lease>, x: Lease, v: seq<Lease>, ops: seq<Op>,
                    t: seq<Lease>, ops3: seq<Op>, led3: Ledger)
    requires Settled(now, u) && x.status.Released? && Swaps(u, [x], [], v, ops)
    requires Refreshes(v, now, t, ops3, led3)
    ensures Holders(t)[x.HostUser()] < Holders(u)[x.HostUser()]
  {
    hide Settled, Refreshes, Sorted, SwapOps, Holders, Subject.HostUser, TightSet;
    SwapHolders(u, [x], [], v, ops);
    HoldersOne(x);
    assert Holders(u) + multiset{} == Holders(u);
    assert x in [x];
    forall y | y in v ensures y in u {
      SameElements(v + [x], u + [], y);
    }
    SettledTight(now, u, x, v);
    RefreshGainsNothing(now, v, t, ops3, led3, x.HostUser());
  }

  lemma ReleasedLease(now: Time, y: Lease, x: Lease)
    requires x.WellFormed() && now > ZERO_TIME && y == x.(status := Released, released := now)
    ensures !y.Decayed(now)
  {
  }

  /** Any other release keeps all slots. */
  lemma KeptSlots(now: Time, u: seq<Lease>, subject: Subject, xs: seq<Lease>, ys: seq<Lease>, v: seq<Lease>,
                  ops: seq<Op>, t: seq<Lease>, ops3: seq<Op>, led3: Ledger)
    requires now > ZERO_TIME && Settled(now, u) && AllWellFormed(u) && !ReleasedIn(u, subject)
    requires Swaps(u, xs, ys, v, ops)
    requires if subject !in Subjects(u) then xs == ys == []
             else |xs| == 1 && xs[0].subject == subject &&
                  ys == if xs[0].status.Active? then [xs[0].(status := Released, released := now)] else []
    requires Refreshes(v, now, t, ops3, led3)
    ensures Holders(u) <= Holders(t)
  {
    hide Settled, Refreshes, Sorted, SwapOps, Holders, Subject.HostUser, Subjects, Lease.WellFormed, Held;
    HoldersNone();
    if xs != [] {
      assert xs[0] in xs && xs == [xs[0]];
      HoldersOne(xs[0]);
      WellFormedStatus(xs[0]);
    }
    if ys != [] {
      HoldersOne(ys[0]);
      ReleasedLease(now, ys[0], xs[0]);
    }
    SwapSameHolders(u, xs, ys, v, ops);
    forall y | y in v && y.Consumptive() ensures !y.Decayed(now) {
      SameElements(v + xs, u + ys, y);
      if y in u {
        SettledHeld(now, u, y);
      }
    }
    HeldIsHolders(now, v, |v|);
    assert v[..|v|] == v;
    RefreshSlots(v, now, t, ops3, led3);
  }

  lemma SettledHeld(now: Time, u: seq<Lease>, y: Lease)
    requires Settled(now, u) && y in u && y.Consumptive()
    ensures !y.Decayed(now)
  {
    hide LedgerOf, Blocked;
  }

  // -------------------------------------------------------------- acquire

  /** What the lease put in counts for, against the one taken out. */
  lemma DecideSlots(pol: Policy, subject: Subject, props: map<string, string>, now: Time, u: seq<Lease>, xs: seq<Lease>)
    requires Unique(u) && AllWellFormed(u)
    requires var d := Decide(pol, subject, props, now, u, LedgerOf(u));
             && d != Panic
             && (d.Renewal? ==> FirstIndex(u, subject) < |u| && xs == [u[FirstIndex(u, subject)]])
             && (d.Takeover? ==> xs == [d.slot] && d.slot.Consumptive() && d.slot.HostUser() == subject.HostUser())
             && (d.Creation? ==> xs == [])
    ensures var ls := Decide(pol, subject, props, now, u, LedgerOf(u)).ls;
            if GivesUp(pol, Acquire(subject, props), u) then
              |xs| == 1 && xs[0] in u && xs[0].status.Released? && Holders([ls]) == multiset{}
            else Holders(xs) <= Holders([ls])
  {
    hide FirstIndex, CanActivate, Subject.HostUser, Replaceable, Usable, Holders, Keys, Size, Ledger.Total, Consumption,
         Unique, Lease.WellFormed;
    RecountTotal(u, LedgerOf(u), pol.strategy);
    var ls := Decide(pol, subject, props, now, u, LedgerOf(u)).ls;
    HoldersOne(ls);
    HoldersNone();
    if xs != [] {
      HoldersOne(xs[0]);
    }
    var k := FirstIndex(u, subject);
    if x :| x in u && x.subject == subject && x.status.Released? {
      var j := UniquePosition(u, x);
    } else if k < |u| {
      assert u[k] in u;
    }
  }

  lemma MoreHolders(u: seq<Lease>, xs: seq<Lease>, ys: seq<Lease>, t: seq<Lease>, ops: seq<Op>)
    requires Swaps(u, xs, ys, t, ops)
    ensures Holders(xs) <= Holders(ys) ==> Holders(u) <= Holders(t)
    ensures forall c :: Holders(xs)[c] > Holders(ys)[c] ==> Holders(t)[c] < Holders(u)[c]
  {
    hide Swaps, Holders;
    SwapHolders(u, xs, ys, t, ops);
    forall c ensures Holders(t)[c] + Holders(xs)[c] == Holders(u)[c] + Holders(ys)[c] {
      assert (Holders(t) + Holders(xs))[c] == (Holders(u) + Holders(ys))[c];
    }
  }

  lemma AcquireSlots(pol: Policy, subject: Subject, props: map<string, string>, now: Time,
                     s: seq<Lease>, u: seq<Lease>, ops1: seq<Op>, led: Ledger, t: seq<Lease>, ops2: seq<Op>, ls: Lease)
    requires Stored(subject.resource, s) && AcquiresVia(pol, subject, props, now, s, u, ops1, led, t, ops2, ls)
    ensures Held(now, s) <= Holders(t) <==> !GivesUp(pol, Acquire(subject, props), u)
  {
    hide Refreshes, Carries, Decide, Unique, Subjects, Sorted, SwapOps, Swaps, Lease.WellFormed, Subject.HostUser,
         Holders, Keys, LedgerOf, Held, GivesUp, Usable, Consumption;
    RefreshStored(subject.resource, s, now, u, ops1, led);
    AccumulatorRecounts(s, now, u, ops1, led);
    RefreshSlots(s, now, u, ops1, led);
    var xs := AcquireSwaps(pol, subject, props, now, u, led, t, ops2);
    TakeoverSlot(pol, subject, props, now, u, led);
    DecideSlots(pol, subject, props, now, u, xs);
    MoreHolders(u, xs, [ls], t, ops2);
    if GivesUp(pol, Acquire(subject, props), u) {
      HoldersOne(xs[0]);
      KeysMember(Released, u, xs[0]);
      assert xs == [xs[0]];
    }
  }

  lemma ReleaseSlots(subject: Subject, now: Time, s: seq<Lease>, u: seq<Lease>, ops1: seq<Op>, led1: Ledger,
                     v: seq<Lease>, t: seq<Lease>, ops3: seq<Op>, led3: Ledger)
    requires now > ZERO_TIME && Stored(subject.resource, s)
    requires ReleasesVia(subject, now, s, u, ops1, led1, v, t, ops3, led3)
    ensures Held(now, s) <= Holders(t) <==> !ReleasedIn(u, subject)
  {
    hide Refreshes, Run, Unique, Subjects, Sorted, Swaps, Lease.WellFormed, Subject.HostUser, Holders, Keys, Held,
         Releasing, IsSortOf, Settled;
    RefreshStored(subject.resource, s, now, u, ops1, led1);
    RefreshSettles(s, now, u, ops1, led1);
    RefreshSlots(s, now, u, ops1, led1);
    var xs, ys := ReleaseSwaps(subject, now, u, v);
    var ops := Run(Releasing(subject, now), (), u).ops;
    if x :| x in u && x.subject == subject && x.status.Released? {
      OnlyLease(u, subject, x, xs, ys, v, ops);
      DeletedSlot(now, u, x, v, ops, t, ops3, led3);
      KeysMember(Released, u, x);
    } else {
      KeptSlots(now, u, subject, xs, ys, v, ops, t, ops3, led3);
    }
  }

  lemma OnlyLease(u: seq<Lease>, subject: Subject, x: Lease,
                  xs: seq<Lease>, ys: seq<Lease>, v: seq<Lease>, ops: seq<Op>)
    requires Unique(u) && x in u && x.subject == subject && Swaps(u, xs, ys, v, ops)
    requires subject in Subjects(u) ==> |xs| == 1 && xs[0].subject == subject
    ensures xs == [x]
  {
    hide Unique, Subjects, Sorted, SwapOps;
    var k := UniquePosition(u, x);
    PresentSubject(u, k);
    assert xs[0] in xs;
    UniqueMember(u, xs[0], x);
  }

  /** Slots are held until they have decayed, exactly: a step leaves every consumer all the slots it held that
      have not decayed, if and only if it does not give one up: a release does when the refreshed set has its
      subject's lease as released, and an acquire when in addition the refreshed set exceeds its limit. */
  lemma SlotsHeldExactly(pol: Policy, req: Request, now: Time, resource: string,
                         s: seq<Lease>, u: seq<Lease>, t: seq<Lease>, ops: seq<Op>)
    requires now > ZERO_TIME && Concerns(req, resource) && Stored(resource, s)
    requires StepFrom(pol, req, now, s, u, t, ops)
    ensures Held(now, s) <= Holders(t) <==> !GivesUp(pol, req, u)
  {
    hide AcquiresVia, ReleasesVia, Refreshes, Run, Holders, Held, ReleasedIn, Sorted, Unique, Consumption, Keys;
    match req
    case Acquire(subject, props) =>
      var ops1, led, ops2, ls :|
        AcquiresVia(pol, subject, props, now, s, u, ops1, led, t, ops2, ls) && ops == ops1 + ops2;
      AcquireSlots(pol, subject, props, now, s, u, ops1, led, t, ops2, ls);
    case Release(subject) =>
      var ops1, led1, v, ops3, led3 :|
        && ReleasesVia(subject, now, s, u, ops1, led1, v, t, ops3, led3)
        && ops == ops1 + Run(Releasing(subject, now), (), u).ops + ops3;
      ReleaseSlots(subject, now, s, u, ops1, led1, v, t, ops3, led3);
    case Purge =>
      var led :| Refreshes(s, now, t, ops, led);
      RefreshSlots(s, now, t, ops, led);
  }

  /** Under one limit and strategy, within the limit, only a release gives a slot up. */
  lemma SlotsHeldUnder(pol: Policy, req: Request, now: Time, resource: string,
                       s: seq<Lease>, u: seq<Lease>, t: seq<Lease>, ops: seq<Op>, strat: Strategy, limit: nat)
    requires now > ZERO_TIME && Concerns(req, resource) && Stored(resource, s)
    requires Capped(strat, limit, s) && Agreed(pol, req, strat, limit)
    requires StepFrom(pol, req, now, s, u, t, ops)
    ensures Held(now, s) <= Holders(t) <==> !(req.Release? && ReleasedIn(u, req.subject))
  {
    hide AcquiresVia, Refreshes, Held, Holders, ReleasedIn, Sorted, Unique, Consumption, Lease.WellFormed, Uniform;
    SlotsHeldExactly(pol, req, now, resource, s, u, t, ops);
    if req.Acquire? {
      var ops1, led, ops2, ls :|
        AcquiresVia(pol, req.subject, req.props, now, s, u, ops1, led, t, ops2, ls) && ops == ops1 + ops2;
      RefreshedBy(pol, req.subject, req.props, now, s, u, ops1, led, t, ops2, ls);
      RefreshCapacity(s, now, u, ops1, led, strat, limit);
    }
  }

  lemma RefreshedBy(pol: Policy, subject: Subject, props: map<string, string>, now: Time, s: seq<Lease>,
                    u: seq<Lease>, ops1: seq<Op>, led: Ledger, t: seq<Lease>, ops2: seq<Op>, ls: Lease)
    requires AcquiresVia(pol, subject, props, now, s, u, ops1, led, t, ops2, ls)
    ensures Refreshes(s, now, u, ops1, led)
  {
    hide Refreshes, Decide, Carries;
  }

  // -------------------------------------------------------- stored terms

  /** The subject's stored lease is an undecayed slot that is released, or that the refresh will find expired. */
  ghost predicate Open(now: Time, s: seq<Lease>, subject: Subject) {
    exists x :: x in s && x.subject == subject && !x.Decayed(now)
                && (x.status.Released? || (x.status.Active? && x.Expired(now)))
  }

  /** The consumer has a lease in the queue that has not expired. */
  ghost predicate Waiting(now: Time, s: seq<Lease>, c: string) {
    exists q :: q in s && q.status.Queued? && !q.Expired(now) && q.HostUser() == c
  }

  /** What the refreshed set has as released was open in the stored one. */
  lemma ReleasedWasOpen(now: Time, s: seq<Lease>, u: seq<Lease>, ops: seq<Op>, led: Ledger, subject: Subject)
    requires AllWellFormed(s) && Refreshes(s, now, u, ops, led) && ReleasedIn(u, subject)
    ensures Open(now, s, subject)
  {
    hide Refreshes;
    RefreshOrigins(s, now, u, ops, led);
    var y :| y in u && y.subject == subject && y.status.Released?;
    var l :| l in s && ScansTo(now, l, y);
    assert l.WellFormed();
  }

  lemma FillStepWanted(replacements: seq<Lease>, st: Fill, l: Lease)
    ensures var (after, e) := FillStep(replacements, st, l);
            && after.ledger.replacing <= st.ledger.replacing
            && (e != Keep ==> l.HostUser() in st.ledger.replacing)
  {
    hide Subject.HostUser;
  }

  lemma LossesMore(ops: seq<Op>, e: Edit, l: Lease)
    ensures forall x :: x in Losses(ops + Logged(e, l)) ==> x in Losses(ops) || (e != Keep && x == l)
  {
    hide Project;
    if e == Keep {
      assert ops + Logged(e, l) == ops;
    } else {
      ProjectAppend(RemovedBy(), ops, Logged(e, l));
      ProjectOne(RemovedBy(), Logged(e, l)[0]);
    }
  }

  lemma {:induction false} LossesWanted(scan: Scan, mid: seq<Lease>, k: nat)
    requires k <= |mid|
    ensures SecondPass(scan, mid[..k]).state.ledger.replacing <= scan.ledger.replacing
    ensures forall x :: x in Losses(SecondPass(scan, mid[..k]).ops) ==> x.HostUser() in scan.ledger.replacing
  {
    hide SecondPass, Subject.HostUser, FillStep, Losses, Logged, Kept;
    SecondPassNone(scan);
    if k == 0 {
      assert mid[..0] == [];
      NothingLost();
    } else {
      var n := k - 1;
      LossesWanted(scan, mid, n);
      SecondPassStep(scan, mid, n);
      var before := SecondPass(scan, mid[..n]);
      FillStepWanted(scan.replacements, before.state, mid[n]);
      LossesMore(before.ops, FillStep(scan.replacements, before.state, mid[n]).1, mid[n]);
    }
  }

  lemma NothingLost()
    ensures Losses([]) == multiset{}
  {
  }

  lemma WantedWaits(now: Time, s: seq<Lease>, c: string)
    requires c in FirstPass(now, s).state.ledger.replacing
    ensures Waiting(now, s, c)
  {
    hide FirstPass, Subject.HostUser;
    FirstPassAgrees(now, s);
    FirstPassOrigins(now, s, |s|);
    assert s[..|s|] == s;
    var replacements := FirstPass(now, s).state.replacements;
    var k := ProjectWitness(KeyOf(), replacements, c);
    assert replacements[k] in replacements;
  }

  lemma SecondPassLeaves(scan: Scan, mid: seq<Lease>, y: Lease)
    requires Fits(scan, mid) && y in mid && y.HostUser() !in scan.ledger.replacing
    ensures y in SecondPass(scan, mid).leases
  {
    hide SecondPass, Fits, Keys, Subjects, Activated, Losses, Subject.HostUser;
    var second := SecondPass(scan, mid);
    SecondPassCounts(scan, mid);
    LossesWanted(scan, mid, |mid|);
    assert mid[..|mid|] == mid;
    assert y in multiset(mid) + multiset(Activated(scan.replacements));
    assert y in multiset(second.leases) + Losses(second.ops);
  }

  lemma RefreshLeaves(now: Time, s: seq<Lease>, u: seq<Lease>, ops: seq<Op>, led: Ledger, y: Lease)
    requires Refreshes(s, now, u, ops, led) && !Waiting(now, s, y.HostUser()) && y in FirstPass(now, s).leases
    ensures y in u
  {
    hide FirstPass, SecondPass, Sorted, Fits, Activated, Project, Waiting, Subject.HostUser;
    var mid :| RefreshesVia(s, now, mid, u, ops, led);
    var first := FirstPass(now, s);
    FirstPassFits(now, s, mid);
    if y.HostUser() in first.state.ledger.replacing {
      WantedWaits(now, s, y.HostUser());
    }
    SameElements(mid, first.leases, y);
    if first.state.ledger.replacing != multiset{} {
      SecondPassLeaves(first.state, mid, y);
      SameElements(u, SecondPass(first.state, mid).leases, y);
    }
  }

  /** An open slot is found released, unless its consumer has a lease waiting that may take it over first. */
  lemma OpenIsReleased(now: Time, s: seq<Lease>, u: seq<Lease>, ops: seq<Op>, led: Ledger, subject: Subject)
    requires Refreshes(s, now, u, ops, led)
    requires Open(now, s, subject) && !Waiting(now, s, subject.HostUser())
    ensures ReleasedIn(u, subject)
  {
    hide Refreshes, FirstPass, Waiting, Subject.HostUser;
    var x :| x in s && x.subject == subject && !x.Decayed(now)
             && (x.status.Released? || (x.status.Active? && x.Expired(now)));
    var i :| 0 <= i < |s| && s[i] == x;
    FirstPassHolds(now, s, |s|, i);
    assert s[..|s|] == s;
    var y := if x.status.Active? then Expire(x) else x;
    assert y in Aged(now, x);
    RefreshLeaves(now, s, u, ops, led, y);
  }

  /** Under one limit and strategy a consumer's only slot does not stay open while it has a lease waiting:
      the refresh puts that lease into it. */
  lemma OnlySlotTakenOver(now: Time, s: seq<Lease>, u: seq<Lease>, ops: seq<Op>, led: Ledger, subject: Subject,
                          strat: Strategy, limit: nat)
    requires Refreshes(s, now, u, ops, led) && Sorted(s) && AllWellFormed(s) && Capped(strat, limit, s)
    requires Held(now, s)[subject.HostUser()] == 1 && Waiting(now, s, subject.HostUser())
    ensures !ReleasedIn(u, subject)
  {
    hide Refreshes, Sorted, Held, Holders, Keys, Subject.HostUser, Consumption, Uniform, Lease.WellFormed;
    var c := subject.HostUser();
    if y :| y in u && y.subject == subject && y.status.Released? {
      var q :| q in s && q.status.Queued? && !q.Expired(now) && q.HostUser() == c;
      KeysMember(Released, u, y);
      RefreshSlots(s, now, u, ops, led);
      QueuedRemains(s, now, u, ops, led, q);
      if q in u {
        WorkConserved(s, now, u, ops, led, strat, limit, q);
      } else {
        KeysMember(Active, u, Activate(q));
        TwoSlots(u, c);
      }
      assert false;
    }
  }

  lemma TwoSlots(u: seq<Lease>, c: string)
    requires Keys(Active, u)[c] > 0 && Keys(Released, u)[c] > 0
    ensures Holders(u)[c] > 1
  {
    hide Keys;
  }

  /** In stored terms: a release frees a slot before it has decayed when the subject's stored lease is released
      already, or is active and past its expiration, and no lease of its consumer is waiting to take it over. */
  lemma ReleaseFreesExactly(pol: Policy, subject: Subject, now: Time, s: seq<Lease>, t: seq<Lease>, ops: seq<Op>)
    requires now > ZERO_TIME && Stored(subject.resource, s) && Step(pol, Release(subject), now, s, t, ops)
    requires !Waiting(now, s, subject.HostUser())
    ensures Held(now, s) <= Holders(t) <==> !Open(now, s, subject)
  {
    hide Step, ReleasesVia, Held, Holders, Open, Waiting, ReleasedIn, Subject.HostUser, Run, Sorted, Unique;
    StepIsFrom(pol, Release(subject), now, s, t, ops);
    var u :| StepFrom(pol, Release(subject), now, s, u, t, ops);
    var ops1, led1 := ReleaseRefreshed(pol, subject, now, s, u, t, ops);
    SlotsHeldExactly(pol, Release(subject), now, subject.resource, s, u, t, ops);
    if Open(now, s, subject) {
      OpenIsReleased(now, s, u, ops1, led1, subject);
    } else if ReleasedIn(u, subject) {
      ReleasedWasOpen(now, s, u, ops1, led1, subject);
    }
  }

  lemma ReleaseRefreshed(pol: Policy, subject: Subject, now: Time,
                         s: seq<Lease>, u: seq<Lease>, t: seq<Lease>, ops: seq<Op>)
    returns (ops1: seq<Op>, led1: Ledger)
    requires StepFrom(pol, Release(subject), now, s, u, t, ops)
    ensures Refreshes(s, now, u, ops1, led1)
  {
    hide Refreshes, Run, IsSortOf;
    var o1, l1, v, o3, l3 :|
      && ReleasesVia(subject, now, s, u, o1, l1, v, t, o3, l3)
      && ops == o1 + Run(Releasing(subject, now), (), u).ops + o3;
    ops1, led1 := o1, l1;
  }

  /** The same for a consumer's only slot under one limit and strategy, whether or not it has a lease waiting. */
  lemma OnlySlotFreedExactly(pol: Policy, subject: Subject, now: Time, s: seq<Lease>, t: seq<Lease>, ops: seq<Op>,
                             strat: Strategy, limit: nat)
    requires now > ZERO_TIME && Stored(subject.resource, s) && Step(pol, Release(subject), now, s, t, ops)
    requires Capped(strat, limit, s) && Held(now, s)[subject.HostUser()] == 1
    ensures Held(now, s) <= Holders(t) <==> !Open(now, s, subject) || Waiting(now, s, subject.HostUser())
  {
    hide Step, ReleasesVia, Held, Holders, Open, Waiting, ReleasedIn, Subject.HostUser, Run, Sorted, Unique, Capped,
         Lease.WellFormed;
    if Waiting(now, s, subject.HostUser()) {
      StepIsFrom(pol, Release(subject), now, s, t, ops);
      var u :| StepFrom(pol, Release(subject), now, s, u, t, ops);
      var ops1, led1 := ReleaseRefreshed(pol, subject, now, s, u, t, ops);
      OnlySlotTakenOver(now, s, u, ops1, led1, subject, strat, limit);
      SlotsHeldExactly(pol, Release(subject), now, subject.resource, s, u, t, ops);
    } else {
      ReleaseFreesExactly(pol, subject, now, s, t, ops);
    }
  }

  /** On a settled set an acquire for a released lease gives its slot up whenever the limit it comes with is exceeded,
      which an acquire under a higher limit can have left behind. */
  lemma LoweredLimitFrees(pol: Policy, subject: Subject, props: map<string, string>, now: Time,
                          s: seq<Lease>, t: seq<Lease>, ops: seq<Op>)
    requires now > ZERO_TIME && Stored(subject.resource, s) && Settled(now, s)
    requires Step(pol, Acquire(subject, props), now, s, t, ops)
    requires ReleasedIn(s, subject) && Consumption(pol.strategy, s) > pol.limit
    ensures !(Held(now, s) <= Holders(t))
  {
    hide Step, Refreshes, Held, Holders, Sorted, Unique, Settled, Size, Lease.WellFormed, Decide, Carries;
    StepIsFrom(pol, Acquire(subject, props), now, s, t, ops);
    var u :| StepFrom(pol, Acquire(subject, props), now, s, u, t, ops);
    SlotsHeldExactly(pol, Acquire(subject, props), now, subject.resource, s, u, t, ops);
    var ops1, led, ops2, ls :|
      AcquiresVia(pol, subject, props, now, s, u, ops1, led, t, ops2, ls) && ops == ops1 + ops2;
    SettledIsFixed(now, s, u, ops1, led);
    HoldersPermutation(u, s);
    var x :| x in s && x.subject == subject && x.status.Released?;
    SameElements(s, u, x);
  }
}
