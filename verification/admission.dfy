/** Who is let in, whatever limits and strategies the leases carry: exactly those with whom the limit is not
    exceeded. */
module Admission {
  import opened Leases
  import opened Projections
  import opened LeaseSets
  import opened Transactions
  import opened Accumulators
  import opened Refreshing
  import opened FirstPasses
  import opened FirstPassCounts
  import opened RefreshLaws
  import opened GuardianLaws
  import opened Guardian
  import opened Fates

  /** With one more active lease of consumer `c`, put into a released slot of its own if it has one, no more than the
      limit is consumed. */
  ghost predicate Admissible(strat: Strategy, limit: nat, c: string, s: seq<Lease>) {
    Size(strat, if Keys(Released, s)[c] > 0 then Holders(s) else Holders(s) + multiset{c}) <= limit
  }

  lemma CanActivateMeans(strat: Strategy, limit: nat, led: Ledger, c: string)
    requires led.released[c] == 0
    ensures CanActivate(strat, led.active[c], led.Total(strat), limit) <==>
            Size(strat, led.Holders() + multiset{c}) <= limit
  {
    hide Size;
    SizeAdd(strat, led.Holders(), c);
    if c in led.Holders() {
      HeldConsumes(strat, led.Holders(), c);
    }
  }

  lemma HeldConsumes(strat: Strategy, bag: multiset<string>, c: string)
    requires c in bag
    ensures Size(strat, bag) > 0
  {
    assert c in Distinct(bag);
  }

  lemma BlockedIs(l: Lease, led: Ledger)
    ensures var c := l.HostUser();
            Blocked(l, led) <==>
            Size(l.strategy, if led.released[c] > 0 then led.Holders() else led.Holders() + multiset{c}) > l.limit
  {
    hide Subject.HostUser, Size, CanActivate;
    var c := l.HostUser();
    SizeAdd(l.strategy, led.Holders(), c);
    if led.released[c] == 0 {
      CanActivateMeans(l.strategy, l.limit, led, c);
    }
  }

  lemma RecountAdmits(strat: Strategy, limit: nat, c: string, s: seq<Lease>)
    ensures var led := LedgerOf(s);
            Admissible(strat, limit, c, s) <==>
            Size(strat, if led.released[c] > 0 then led.Holders() else led.Holders() + multiset{c}) <= limit
  {
    hide Keys, Size;
  }

  /** What a refresh leaves waiting cannot be let in: neither limits nor strategies need be the same. */
  lemma WaitingNotAdmissible(s: seq<Lease>, at: Time, t: seq<Lease>, ops: seq<Op>, led: Ledger, q: Lease)
    requires Refreshes(s, at, t, ops, led) && Sorted(s) && q in t && q.status == Queued
    ensures !Admissible(q.strategy, q.limit, q.HostUser(), t)
  {
    hide Refreshes, Sorted, Blocked, LedgerOf, Size, Keys, Subject.HostUser, Admissible;
    RefreshWaiting(s, at, t, ops, led);
    AccumulatorRecounts(s, at, t, ops, led);
    BlockedIs(q, led);
    RecountAdmits(q.strategy, q.limit, q.HostUser(), t);
  }

  /** What the first pass grants does not take the count past the limit of the lease granted. */
  lemma GrantedWithin(at: Time, s: seq<Lease>, i: nat)
    requires i < |s| && Granted(at, s, i)
    ensures FirstPass(at, s[..i + 1]).state.ledger.Total(s[i].strategy) <= s[i].limit
  {
    hide FirstPass, Subject.HostUser;
    FirstPassStep(at, s, i);
    GrantWithin(at, FirstPass(at, s[..i]).state, s[i]);
  }

  lemma GrantWithin(at: Time, st: Scan, l: Lease)
    requires l.status == Queued && !l.Expired(at) && !Blocked(l, st.ledger)
    ensures ScanStep(at, st, l).0.ledger.Total(l.strategy) <= l.limit
  {
    hide Subject.HostUser, Ledger.Total;
    var c := l.HostUser();
    TotalAdd(st.ledger, c, l.strategy);
    if c in st.ledger.released {
      TotalStart(st.ledger, c, l.strategy);
    } else {
      ActiveCounts(st.ledger, c, l.strategy);
    }
  }

  lemma ActiveCounts(led: Ledger, c: string, strat: Strategy)
    requires c !in led.released
    ensures led.active[c] > 0 <==> c in led.Holders()
  {
  }

  // ---------------------------------------------------------------- acquire

  /** The subject's lease in the refreshed set that goes on as it is: active, or queued. */
  ghost predicate GoesOn(u: seq<Lease>, subject: Subject, x: Lease) {
    x in u && x.subject == subject && x.status != Released
  }

  lemma DecideAdmits(pol: Policy, subject: Subject, props: map<string, string>, now: Time, u: seq<Lease>)
    requires Unique(u) && Decide(pol, subject, props, now, u, LedgerOf(u)) != Panic
    requires forall x :: !GoesOn(u, subject, x)
    ensures var ls := Decide(pol, subject, props, now, u, LedgerOf(u)).ls;
            && ls.started == now
            && ls.status == if Admissible(pol.strategy, pol.limit, subject.HostUser(), u) then Active else Queued
  {
    hide Keys, Consumption, Subject.HostUser, Ledger.Total, Usable, FirstIndex, Unique, Replaceable, Size, CanActivate,
         Admissible, LedgerOf;
    var led, c := LedgerOf(u), subject.HostUser();
    RecountAdmits(pol.strategy, pol.limit, c, u);
    TotalIs(led, pol.strategy);
    if led.released[c] == 0 {
      CanActivateMeans(pol.strategy, pol.limit, led, c);
    } else {
      OverLimit(pol.strategy, led.active[c], led.Total(pol.strategy), pol.limit);
    }
    var k := FirstIndex(u, subject);
    if k < |u| {
      assert !GoesOn(u, subject, u[k]);
      ReleasedCounts(u, k);
    }
  }

  lemma OverLimit(strat: Strategy, active: nat, consumed: nat, limit: nat)
    ensures consumed > limit ==> !CanActivate(strat, active, consumed, limit)
  {
  }

  lemma TotalIs(led: Ledger, strat: Strategy)
    ensures led.Total(strat) == Size(strat, led.Holders())
  {
  }

  lemma ReleasedCounts(u: seq<Lease>, k: nat)
    requires k < |u| && u[k].status == Released
    ensures LedgerOf(u).released[u[k].HostUser()] > 0
  {
    hide Subject.HostUser;
    ProjectMember(KeyIf(Released), u, u[k]);
  }

  lemma DecideGoesOn(pol: Policy, subject: Subject, props: map<string, string>, now: Time, u: seq<Lease>, x: Lease)
    requires Unique(u) && GoesOn(u, subject, x)
    ensures var d := Decide(pol, subject, props, now, u, LedgerOf(u));
            d != Panic && d.ls.status == x.status && d.ls.started == x.started
  {
    hide Keys, Consumption, Subject.HostUser, Ledger.Total, Usable, FirstIndex, Unique, Replaceable, Size, CanActivate,
         LedgerOf;
    var k := UniquePosition(u, x);
  }

  /** Who an acquire lets in, exactly, with any mix of limits and strategies: read off the refreshed set, a subject
      that has an active or queued lease goes on with it, since its start; any other becomes active, as of now, if and
      only if with it the limit is not exceeded. */
  lemma AcquireAdmitsExactly(pol: Policy, subject: Subject, props: map<string, string>, now: Time, s: seq<Lease>,
                             u: seq<Lease>, ops1: seq<Op>, led: Ledger, t: seq<Lease>, ops2: seq<Op>, ls: Lease)
    requires Stored(subject.resource, s) && AcquiresVia(pol, subject, props, now, s, u, ops1, led, t, ops2, ls)
    ensures forall x :: GoesOn(u, subject, x) ==> ls.status == x.status && ls.started == x.started
    ensures (forall x :: !GoesOn(u, subject, x)) ==>
              && ls.started == now
              && ls.status == if Admissible(pol.strategy, pol.limit, subject.HostUser(), u) then Active else Queued
  {
    hide Refreshes, Carries, Decide, Unique, Sorted, Lease.WellFormed, Admissible, Subject.HostUser, LedgerOf, GoesOn;
    RefreshStored(subject.resource, s, now, u, ops1, led);
    AccumulatorRecounts(s, now, u, ops1, led);
    forall x | GoesOn(u, subject, x) ensures ls.status == x.status && ls.started == x.started {
      DecideGoesOn(pol, subject, props, now, u, x);
    }
    if forall x :: !GoesOn(u, subject, x) {
      DecideAdmits(pol, subject, props, now, u);
    }
  }

  /** The start of the lease an acquire returns: that of the stored lease it renews, if that was active or queued and
      had not run out, and else the time of the acquire. */
  lemma AcquireStarted(pol: Policy, subject: Subject, props: map<string, string>, now: Time,
                       s: seq<Lease>, t: seq<Lease>, ops: seq<Op>, ls: Lease)
    requires Stored(subject.resource, s) && Acquires(pol, subject, props, now, s, t, ops, ls)
    ensures forall x :: x in s && Renewable(now, subject, x) ==> ls.started == x.started
    ensures (forall x :: x in s ==> !Renewable(now, subject, x)) ==> ls.started == now
  {
    hide Refreshes, Carries, Decide, Unique, Sorted, Lease.WellFormed, Admissible, Subject.HostUser, GoesOn;
    var u, ops1, led, ops2 :| AcquiresVia(pol, subject, props, now, s, u, ops1, led, t, ops2, ls) && ops == ops1 + ops2;
    AcquireAdmitsExactly(pol, subject, props, now, s, u, ops1, led, t, ops2, ls);
    forall x | x in s && Renewable(now, subject, x) ensures ls.started == x.started {
      var y := RenewableGoesOn(subject, now, s, u, ops1, led, x);
    }
    forall y | GoesOn(u, subject, y) ensures exists x :: x in s && Renewable(now, subject, x) {
      var x := GoesOnFrom(subject, now, s, u, ops1, led, y);
    }
  }

  /** The subject's lease, active or queued, that has not run out. */
  predicate Renewable(now: Time, subject: Subject, x: Lease) {
    x.subject == subject && (x.status == Active || x.status == Queued) && now <= x.renewed + x.duration
  }

  lemma RenewableGoesOn(subject: Subject, now: Time, s: seq<Lease>, u: seq<Lease>, ops: seq<Op>, led: Ledger, x: Lease)
    returns (y: Lease)
    requires Stored(subject.resource, s) && Refreshes(s, now, u, ops, led) && x in s && Renewable(now, subject, x)
    ensures GoesOn(u, subject, y) && y.started == x.started
  {
    hide Refreshes, Unique, Sorted, Lease.WellFormed;
    if x.status == Active {
      ActiveFate(s, now, u, ops, led, x);
      y := x;
    } else {
      QueuedFate(s, now, u, ops, led, x);
      y := if x in u then x else x.(status := Active);
    }
  }

  lemma GoesOnFrom(subject: Subject, now: Time, s: seq<Lease>, u: seq<Lease>, ops: seq<Op>, led: Ledger, y: Lease)
    returns (x: Lease)
    requires Stored(subject.resource, s) && Refreshes(s, now, u, ops, led) && GoesOn(u, subject, y)
    ensures x in s && Renewable(now, subject, x)
  {
    hide Refreshes, Unique, Sorted;
    x := RefreshOnlyAges(s, now, u, ops, led, y);
    assert x.WellFormed();
    RefreshWellFormed(s, now, u, ops, led);
    assert y.WellFormed();
  }
}
