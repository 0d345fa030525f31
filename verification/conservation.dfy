/** Work conservation over whole steps: nobody is left waiting for what is free. */
module Conservation {
  import opened Leases
  import opened LeaseSets
  import opened Transactions
  import opened Accumulators
  import opened Refreshing
  import opened FirstPassCounts
  import opened RefreshLaws
  import opened RefreshService
  import opened OneEdits
  import opened Guardian
  import opened GuardianLaws
  import opened GuardianService

  /** A lease waits only while the limit is fully consumed and its consumer has no slot of its own to go on from. */
  ghost predicate Conserving(strat: Strategy, limit: nat, s: seq<Lease>) {
    forall q :: q in s && q.status.Queued? ==> Consumption(strat, s) == limit && !HoldsSlot(strat, q.HostUser(), s)
  }

  lemma RefreshConserves(s: seq<Lease>, at: Time, t: seq<Lease>, ops: seq<Op>, led: Ledger, strat: Strategy, limit: nat)
    requires Refreshes(s, at, t, ops, led) && Sorted(s) && AllWellFormed(s) && Capped(strat, limit, s)
    ensures Conserving(strat, limit, t)
  {
    hide Refreshes, Sorted, Consumption, HoldsSlot, Lease.WellFormed, Subject.HostUser;
    forall q | q in t && q.status.Queued?
      ensures Consumption(strat, t) == limit && !HoldsSlot(strat, q.HostUser(), t)
    {
      WorkConserved(s, at, t, ops, led, strat, limit, q);
    }
  }

  lemma SwapOrigin(u: seq<Lease>, xs: seq<Lease>, ys: seq<Lease>, t: seq<Lease>, ops: seq<Op>, x: Lease)
    requires Swaps(u, xs, ys, t, ops) && x in t
    ensures x in u || x in ys
  {
    hide Sorted, SwapOps;
    SameElements(t + xs, u + ys, x);
  }

  /** A lease created active when the limit is fully consumed is one more of a consumer that is active already. */
  lemma CreatedInFull(strat: Strategy, limit: nat, u: seq<Lease>, t: seq<Lease>, c: string)
    requires Holders(t) == Holders(u) + multiset{c} && Consumption(strat, u) == limit
    requires CanActivate(strat, Keys(Active, u)[c], Consumption(strat, u), limit)
    ensures Consumption(strat, t) == limit && HoldsSlot(strat, c, u) && strat == ByConsumer
  {
    hide Keys, Size, HoldsSlot, Subject.HostUser;
    SizeAdd(strat, Holders(u), c);
    SlotIsCounted(strat, c, u);
  }

  lemma HolderSlot(u: seq<Lease>, x: Lease, ls: Lease)
    requires x in u && Holders([ls]) == Holders([x]) && ls.status.Active?
    ensures HoldsSlot(ByConsumer, ls.HostUser(), u)
  {
    hide Holders, Subject.HostUser;
    HoldersOne(ls);
    HoldersOne(x);
    assert ls.HostUser() in multiset{ls.HostUser()};
  }

  /** What an acquire does to consumption and to slots when the refreshed set is full. */
  lemma AcquireInFull(pol: Policy, subject: Subject, props: map<string, string>, now: Time,
                      u: seq<Lease>, t: seq<Lease>, ops: seq<Op>)
    requires Unique(u) && AllWellFormed(u) && Consumption(pol.strategy, u) == pol.limit
    requires var d := Decide(pol, subject, props, now, u, LedgerOf(u)); d != Panic && Carries(d, u, t, ops)
    ensures Consumption(pol.strategy, t) == pol.limit
    ensures var ls := Decide(pol, subject, props, now, u, LedgerOf(u)).ls;
            ls.HostUser() == subject.HostUser() && !ls.status.Released?
            && (ls.status.Active? && pol.strategy == ByConsumer ==> HoldsSlot(pol.strategy, subject.HostUser(), u))
  {
    hide Carries, Decide, Unique, Subjects, Sorted, SwapOps, Lease.WellFormed, Subject.HostUser, Consumption, Holders,
         Keys, CanActivate, LedgerOf, HoldsSlot, Usable;
    var led := LedgerOf(u);
    var ls := Decide(pol, subject, props, now, u, led).ls;
    var xs := AcquireSwaps(pol, subject, props, now, u, led, t, ops);
    TakeoverSlot(pol, subject, props, now, u, led);
    DecideHolders(pol, subject, props, now, u, led, xs);
    DecideStatus(pol, subject, props, now, u, led);
    HoldersOne(ls);
    if xs != [] {
      SwapSameHolders(u, xs, [ls], t, ops);
      ConsumptionSame(pol.strategy, u, t);
      assert xs == [xs[0]] && xs[0] in u;
      if ls.status.Active? {
        HolderSlot(u, xs[0], ls);
      }
    } else if ls.status.Active? {
      SwapHolders(u, xs, [ls], t, ops);
      assert Holders(t) + multiset{} == Holders(t);
      CreatedInFull(pol.strategy, pol.limit, u, t, subject.HostUser());
    } else {
      SwapSameHolders(u, xs, [ls], t, ops);
      ConsumptionSame(pol.strategy, u, t);
    }
  }

  lemma SlotBefore(strat: Strategy, c: string, u: seq<Lease>, ls: Lease, t: seq<Lease>)
    requires forall x :: x in t ==> x in u || x == ls
    requires !ls.status.Released? && (ls.status.Active? && strat == ByConsumer ==> HoldsSlot(strat, ls.HostUser(), u))
    requires HoldsSlot(strat, c, t)
    ensures HoldsSlot(strat, c, u)
  {
    hide Subject.HostUser;
  }

  lemma AcquireConserves(pol: Policy, subject: Subject, props: map<string, string>, now: Time,
                         s: seq<Lease>, t: seq<Lease>, ops: seq<Op>, ls: Lease)
    requires Stored(subject.resource, s) && Capped(pol.strategy, pol.limit, s)
    requires Acquires(pol, subject, props, now, s, t, ops, ls)
    ensures Conserving(pol.strategy, pol.limit, t)
  {
    hide Refreshes, Carries, Decide, Unique, Subjects, Sorted, SwapOps, Swaps, Lease.WellFormed, Subject.HostUser,
         Consumption, LedgerOf, HoldsSlot, Usable, HeldActive, Uniform;
    var u, ops1, led, ops2 :| AcquiresVia(pol, subject, props, now, s, u, ops1, led, t, ops2, ls) && ops == ops1 + ops2;
    RefreshStored(subject.resource, s, now, u, ops1, led);
    AccumulatorRecounts(s, now, u, ops1, led);
    RefreshConserves(s, now, u, ops1, led, pol.strategy, pol.limit);
    AcquireQueuesExactly(pol, subject, props, now, s, u, ops1, led, t, ops2, ls);
    var xs := AcquireSwaps(pol, subject, props, now, u, led, t, ops2);
    forall q | q in t && q.status.Queued?
      ensures Consumption(pol.strategy, t) == pol.limit && !HoldsSlot(pol.strategy, q.HostUser(), t)
    {
      forall x | x in t ensures x in u || x == ls {
        SwapOrigin(u, xs, [ls], t, ops2, x);
      }
      AcquireInFull(pol, subject, props, now, u, t, ops2);
      if HoldsSlot(pol.strategy, q.HostUser(), t) {
        SlotBefore(pol.strategy, q.HostUser(), u, ls, t);
      }
    }
  }

  /** Under one limit and strategy every step, of whatever kind, leaves a set that conserves work. */
  lemma StepConserves(pol: Policy, req: Request, now: Time, resource: string,
                      s: seq<Lease>, t: seq<Lease>, ops: seq<Op>, strat: Strategy, limit: nat)
    requires now > ZERO_TIME && Concerns(req, resource) && Stored(resource, s)
    requires Capped(strat, limit, s) && Agreed(pol, req, strat, limit)
    requires Step(pol, req, now, s, t, ops)
    ensures Conserving(strat, limit, t)
  {
    hide Acquires, Refreshes, Capped, Run, IsSortOf, Sorted, Unique, Conserving;
    match req
    case Acquire(subject, props) =>
      var ls :| Acquires(pol, subject, props, now, s, t, ops, ls);
      AcquireConserves(pol, subject, props, now, s, t, ops, ls);
    case Release(subject) =>
      var u, ops1, led1, v, ops3, led3 :|
        && ReleasesVia(subject, now, s, u, ops1, led1, v, t, ops3, led3)
        && ops == ops1 + Run(Releasing(subject, now), (), u).ops + ops3;
      RefreshStored(resource, s, now, u, ops1, led1);
      RefreshCapped(strat, limit, s, now, u, ops1, led1);
      ReleaseCapped(strat, limit, subject, now, u, v);
      ReleaseStored(subject, now, u, v);
      RefreshConserves(v, now, t, ops3, led3, strat, limit);
    case Purge =>
      var led :| Refreshes(s, now, t, ops, led);
      RefreshConserves(s, now, t, ops, led, strat, limit);
  }
}
