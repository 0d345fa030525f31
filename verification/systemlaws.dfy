/** More that holds in every reachable state: work is conserved, and acquire does not panic. */
module SystemLaws {
  import opened Leases
  import opened Projections
  import opened LeaseSets
  import opened Transactions
  import opened Accumulators
  import opened Refreshing
  import opened FirstPasses
  import opened RefreshLaws
  import opened OneEdits
  import opened Guardian
  import opened GuardianLaws
  import opened GuardianService
  import opened Conservation
  import opened Providers
  import opened Systems

  // ----------------------------------------------------- work conservation

  lemma {:induction false} SequentialConserving(history: seq<Event>, resource: string, s: seq<Lease>,
                                                strat: Strategy, limit: nat)
    requires Sequential(history, resource, s) && Under(history, resource, strat, limit)
    ensures Conserving(strat, limit, s)
    decreases |history|
  {
    hide Stored, Step, Capped, Conserving;
    if history == [] {
      NoneWaiting(strat, limit);
    } else {
      var n := |history| - 1;
      var e := history[n];
      assert Front(history) == history[..n];
      if e.resource != resource {
        SequentialConserving(history[..n], resource, s, strat, limit);
      } else {
        var before :| Sequential(history[..n], resource, before)
                      && Carried(e, LastTime(history[..n], resource), before, s);
        SequentialCapped(history[..n], resource, before, strat, limit);
        SequentialStored(history[..n], resource, before);
        var ops :| Step(e.pol, e.req, e.now, before, s, ops) && ops != [];
        StepConserves(e.pol, e.req, e.now, resource, before, s, ops, strat, limit);
      }
    }
  }

  lemma NoneWaiting(strat: Strategy, limit: nat)
    ensures Conserving(strat, limit, [])
  {
  }

  /** Work is conserved over whole runs: in every reachable state of any interleaving, when acquires of the
      resource carry one limit and strategy, a lease waits only while the limit is fully consumed and its
      consumer has no slot of its own. */
  lemma AlwaysConserving(run: seq<System>, i: nat, resource: string, strat: Strategy, limit: nat)
    requires Behavior(run) && i < |run| && AlwaysUnder(run, resource, strat, limit)
    ensures Conserving(strat, limit, run[i].store.Leases(resource))
  {
    hide Behavior, AlwaysUnder, Under, Conserving, Sequential;
    HistoryUnder(run, i, resource, strat, limit);
    Linearizable(run, i, resource);
    SequentialConserving(run[i].history, resource, run[i].store.Leases(resource), strat, limit);
  }

  // ---------------------------------------------------------------- hosts

  /** An acquire is asked for by a host without a space. */
  predicate CleanRequest(req: Request) {
    req.Acquire? ==> NoSpace(req.subject.instance.host)
  }

  lemma RefreshHosts(s: seq<Lease>, at: Time, t: seq<Lease>, ops: seq<Op>, led: Ledger)
    requires Refreshes(s, at, t, ops, led) && HostsHaveNoSpace(s)
    ensures HostsHaveNoSpace(t)
  {
    hide Refreshes, NoSpace;
    RefreshOrigins(s, at, t, ops, led);
    forall x | x in t ensures NoSpace(x.subject.instance.host) {
      var l :| l in s && ScansTo(at, l, x);
    }
  }

  lemma SwapHosts(u: seq<Lease>, xs: seq<Lease>, ys: seq<Lease>, t: seq<Lease>, ops: seq<Op>)
    requires Swaps(u, xs, ys, t, ops) && HostsHaveNoSpace(u) && HostsHaveNoSpace(ys)
    ensures HostsHaveNoSpace(t)
  {
    hide Swaps, NoSpace;
    forall x | x in t ensures NoSpace(x.subject.instance.host) {
      SwapOrigin(u, xs, ys, t, ops, x);
    }
  }

  /** A step brings in no host but that of the acquire it carries out. */
  lemma StepHosts(pol: Policy, req: Request, now: Time, resource: string, s: seq<Lease>, t: seq<Lease>, ops: seq<Op>)
    requires Concerns(req, resource) && Stored(resource, s) && now > ZERO_TIME
    requires Step(pol, req, now, s, t, ops) && HostsHaveNoSpace(s) && CleanRequest(req)
    ensures HostsHaveNoSpace(t)
  {
    hide Refreshes, Run, IsSortOf, Sorted, Unique, HostsHaveNoSpace, NoSpace, Decide, Carries, Swaps, Subjects,
         Lease.WellFormed, MakesWay, Usable;
    match req
    case Acquire(subject, props) =>
      var ls :| Acquires(pol, subject, props, now, s, t, ops, ls);
      var u, ops1, led, ops2 :|
        AcquiresVia(pol, subject, props, now, s, u, ops1, led, t, ops2, ls) && ops == ops1 + ops2;
      RefreshStored(resource, s, now, u, ops1, led);
      RefreshHosts(s, now, u, ops1, led);
      var xs := AcquireSwaps(pol, subject, props, now, u, led, t, ops2);
      OneHost(ls);
      SwapHosts(u, xs, [ls], t, ops2);
    case Release(subject) =>
      var u, ops1, led1, v, ops3, led3 :|
        && ReleasesVia(subject, now, s, u, ops1, led1, v, t, ops3, led3)
        && ops == ops1 + Run(Releasing(subject, now), (), u).ops + ops3;
      RefreshStored(resource, s, now, u, ops1, led1);
      RefreshHosts(s, now, u, ops1, led1);
      var xs, ys := ReleaseSwaps(subject, now, u, v);
      ReleasedHosts(u, xs, ys, v, Run(Releasing(subject, now), (), u).ops);
      SwapHosts(u, xs, ys, v, Run(Releasing(subject, now), (), u).ops);
      RefreshHosts(v, now, t, ops3, led3);
    case Purge =>
      var led :| Refreshes(s, now, t, ops, led);
      RefreshHosts(s, now, t, ops, led);
  }

  lemma OneHost(ls: Lease)
    ensures HostsHaveNoSpace([ls]) <==> NoSpace(ls.subject.instance.host)
  {
    hide NoSpace;
    assert ls in [ls];
  }

  lemma ReleasedHosts(u: seq<Lease>, xs: seq<Lease>, ys: seq<Lease>, t: seq<Lease>, ops: seq<Op>)
    requires Swaps(u, xs, ys, t, ops) && HostsHaveNoSpace(u)
    requires ys != [] ==> xs != [] && ys[0].subject == xs[0].subject
    ensures HostsHaveNoSpace(ys)
  {
    hide NoSpace, Sorted, SwapOps;
    if ys != [] {
      assert xs[0] in xs && xs[0] in u;
      assert ys == [ys[0]];
    }
  }

  ghost predicate CleanHistory(history: seq<Event>, resource: string) {
    forall i :: 0 <= i < |history| && history[i].resource == resource ==> CleanRequest(history[i].req)
  }

  lemma {:induction false} SequentialHosts(history: seq<Event>, resource: string, s: seq<Lease>)
    requires Sequential(history, resource, s) && CleanHistory(history, resource)
    ensures HostsHaveNoSpace(s)
    decreases |history|
  {
    hide Stored, Step, CleanRequest, NoSpace;
    if history != [] {
      var n := |history| - 1;
      var e := history[n];
      assert Front(history) == history[..n];
      if e.resource != resource {
        SequentialHosts(history[..n], resource, s);
      } else {
        var before :| Sequential(history[..n], resource, before)
                      && Carried(e, LastTime(history[..n], resource), before, s);
        SequentialHosts(history[..n], resource, before);
        SequentialStored(history[..n], resource, before);
        var ops :| Step(e.pol, e.req, e.now, before, s, ops) && ops != [];
        StepHosts(e.pol, e.req, e.now, resource, before, s, ops);
      }
    }
  }

  /** Acquires of the resource come from hosts without a space. */
  ghost predicate AlwaysClean(run: seq<System>, resource: string) {
    forall i, c :: 0 <= i < |run| && c in run[i].flights && run[i].flights[c].resource == resource ==>
                     CleanRequest(run[i].flights[c].req)
  }

  lemma {:induction false} HistoryClean(run: seq<System>, i: nat, resource: string)
    requires Behavior(run) && i < |run| && AlwaysClean(run, resource)
    ensures CleanHistory(run[i].history, resource)
  {
    hide Step, StoreCommits, CleanRequest;
    if i > 0 {
      HistoryClean(run, i - 1, resource);
      HistoryGrows(run[i - 1], run[i]);
      var a, b := run[i - 1], run[i];
      if b.history != a.history {
        var c :| c in a.flights && a.flights[c].stage.Ready?
                 && b.history == a.history + [EventOf(a.flights[c])];
      }
    }
  }

  lemma AlwaysHosts(run: seq<System>, i: nat, resource: string)
    requires Behavior(run) && i < |run| && AlwaysClean(run, resource)
    ensures HostsHaveNoSpace(run[i].store.Leases(resource))
  {
    hide Behavior, AlwaysClean, CleanHistory, Sequential, HostsHaveNoSpace;
    HistoryClean(run, i, resource);
    Linearizable(run, i, resource);
    SequentialHosts(run[i].history, resource, run[i].store.Leases(resource));
  }

  // ------------------------------------------------------ what flights see

  /** The leases a request works on, however old, were stored when it viewed them. */
  ghost predicate Seen(run: seq<System>, i: nat, f: Flight)
    requires i < |run|
  {
    exists k :: 0 <= k <= i && run[k].store.Leases(f.resource) == f.base
  }

  lemma FlightsFrom(a: System, b: System, c: nat)
    requires Next(a, b) && c in b.flights
    ensures || (c in a.flights && b.flights[c].base == a.flights[c].base
                && b.flights[c].resource == a.flights[c].resource)
            || b.flights[c].base == b.store.Leases(b.flights[c].resource)
  {
    hide Step, StoreCommits;
  }

  lemma {:induction false} FlightsSeen(run: seq<System>, i: nat, c: nat)
    requires Behavior(run) && i < |run| && c in run[i].flights
    ensures Seen(run, i, run[i].flights[c])
  {
    hide Next;
    assert i > 0;
    FlightsFrom(run[i - 1], run[i], c);
    if run[i].flights[c].base != run[i].store.Leases(run[i].flights[c].resource) {
      FlightsSeen(run, i - 1, c);
    }
  }

  /** No panic is reachable while hosts hold no space: in every state of every run, whatever an acquire in
      flight has viewed and whatever time it is, its check on the released leases agrees. */
  lemma NeverPanics(run: seq<System>, i: nat, c: nat, now: Time)
    requires Behavior(run) && i < |run| && c in run[i].flights && run[i].flights[c].req.Acquire?
    requires AlwaysClean(run, run[i].flights[c].resource)
    ensures var f := run[i].flights[c]; !AcquirePanics(f.pol, f.req.subject, f.req.props, now, f.base)
  {
    hide Behavior, AlwaysClean, HostsHaveNoSpace, Stored, Sound, AcquirePanics, NoSpace;
    var f := run[i].flights[c];
    FlightsSeen(run, i, c);
    var k :| 0 <= k <= i && run[k].store.Leases(f.resource) == f.base;
    AlwaysHosts(run, k, f.resource);
    AlwaysStored(run, k, f.resource);
    ReachableSound(run, i);
    FlightIs(run, i, c);
    NoSpaceNoPanic(f.pol, f.req.subject, f.req.props, now, f.base);
  }

  lemma FlightIs(run: seq<System>, i: nat, c: nat)
    requires i < |run| && Sound(run[i]) && c in run[i].flights && AlwaysClean(run, run[i].flights[c].resource)
    ensures Concerns(run[i].flights[c].req, run[i].flights[c].resource) && CleanRequest(run[i].flights[c].req)
  {
    hide Sequential, Step, CleanRequest;
    assert FlightSound(run[i], run[i].flights[c]);
  }

  /** A request is tried five times at most. */
  lemma TriesBounded(run: seq<System>, i: nat, c: nat)
    requires Behavior(run) && i < |run| && c in run[i].flights
    ensures 1 <= run[i].flights[c].tries <= 5
  {
    hide Behavior, Sequential, Step;
    ReachableSound(run, i);
    assert FlightSound(run[i], run[i].flights[c]);
  }

  // ---------------------------------------------- the panic, with a space

  lemma OneSettled(now: Time, l: Lease)
    requires l.Consumptive() && !l.Decayed(now) && (l.status.Active? ==> !l.Expired(now))
    ensures Sorted([l]) && Settled(now, [l]) && Refreshes([l], now, [l], [], LedgerOf([l]))
  {
    hide LedgerOf, Refreshes;
    SettledRefreshes(now, [l]);
  }

  lemma NoneSettled(now: Time)
    ensures Refreshes([], now, [], [], LedgerOf([]))
    ensures LedgerOf([]).Holders() == multiset{} && LedgerOf([]) == Ledger(multiset{}, multiset{}, multiset{})
  {
    hide Refreshes;
    SettledRefreshes(now, []);
  }

  /** On an empty set an acquire under a positive limit creates an active lease. */
  lemma FirstAcquire(pol: Policy, subject: Subject, props: map<string, string>, now: Time)
    requires pol.limit > 0
    ensures var a := Issue(pol, subject, props, now, Active, now);
            Step(pol, Acquire(subject, props), now, [], [a], [CreateOp(a)])
  {
    hide *;
    var a := Issue(pol, subject, props, now, Active, now);
    NoneSettled(now);
    FirstDecision(pol, subject, props, now, a);
    AcquiredBy(pol, subject, props, now, [], [], [], LedgerOf([]), [a], [CreateOp(a)], a);
    assert [] + [CreateOp(a)] == [CreateOp(a)];
    AcquireIsStep(pol, subject, props, now, [], [a], [CreateOp(a)], a);
  }

  lemma AcquireIsStep(pol: Policy, subject: Subject, props: map<string, string>, now: Time,
                      s: seq<Lease>, t: seq<Lease>, ops: seq<Op>, ls: Lease)
    requires Acquires(pol, subject, props, now, s, t, ops, ls)
    ensures Step(pol, Acquire(subject, props), now, s, t, ops)
  {
    hide Acquires;
  }

  lemma FirstDecision(pol: Policy, subject: Subject, props: map<string, string>, now: Time, a: Lease)
    requires pol.limit > 0 && a == Issue(pol, subject, props, now, Active, now)
    requires Refreshes([], now, [], [], LedgerOf([]))
    ensures AcquiresVia(pol, subject, props, now, [], [], [], LedgerOf([]), [a], [CreateOp(a)], a)
  {
    hide Refreshes, Issue, Subject.HostUser, LedgerOf, Ledger.Total, Replaceable;
    NoneSettled(now);
    EmptyTotal(pol.strategy);
    assert Decide(pol, subject, props, now, [], LedgerOf([])) == Creation(a);
    assert [] + [a] == [a];
    OneSorted(a);
  }

  lemma OneSorted(l: Lease)
    ensures Sorted([l])
  {
  }

  lemma EmptyTotal(strat: Strategy)
    ensures Ledger(multiset{}, multiset{}, multiset{}).Total(strat) == 0
  {
    assert Distinct<string>(multiset{}) == {};
  }

  lemma OnlyRun(now: Time, a: Lease, held: Lease)
    requires a.status.Active? && held == a.(status := Released, released := now)
    ensures Run(Releasing(a.subject, now), (), [a]) == Trace((), [held], [UpdateOp(a, held)])
  {
    hide Run;
    var f := Releasing(a.subject, now);
    RunStep(f, (), [a], 0);
    RunNone(f, ());
    assert [a][..0] == [] && [a][..1] == [a];
  }

  /** Releasing the only lease, active and unexpired, leaves it released. */
  lemma OnlyRelease(pol: Policy, now: Time, a: Lease)
    requires a.WellFormed() && a.status.Active? && !a.Expired(now) && now > ZERO_TIME
    ensures var held := a.(status := Released, released := now);
            Step(pol, Release(a.subject), now, [a], [held], [UpdateOp(a, held)])
  {
    var held := a.(status := Released, released := now);
    assert held.Consumptive() && !held.Decayed(now) && a.Consumptive() && !a.Decayed(now);
    hide *;
    OneSettled(now, a);
    OneSettled(now, held);
    OnlyRun(now, a, held);
    OnlyVia(now, a, held);
    ReleaseIsVia(pol, a.subject, now, [a], [a], [], LedgerOf([a]), [held], [held], [], LedgerOf([held]));
    assert [] + [UpdateOp(a, held)] + [] == [UpdateOp(a, held)];
  }

  lemma OnlyVia(now: Time, a: Lease, held: Lease)
    requires Refreshes([a], now, [a], [], LedgerOf([a])) && Refreshes([held], now, [held], [], LedgerOf([held]))
    requires Run(Releasing(a.subject, now), (), [a]).leases == [held] && Sorted([held])
    ensures ReleasesVia(a.subject, now, [a], [a], [], LedgerOf([a]), [held], [held], [], LedgerOf([held]))
  {
    hide Refreshes, LedgerOf, Run, Releasing, Sorted;
  }

  lemma ReleaseIsVia(pol: Policy, subject: Subject, now: Time,
                     s: seq<Lease>, u: seq<Lease>, ops1: seq<Op>, led1: Ledger,
                     v: seq<Lease>, t: seq<Lease>, ops3: seq<Op>, led3: Ledger)
    requires ReleasesVia(subject, now, s, u, ops1, led1, v, t, ops3, led3)
    ensures Step(pol, Release(subject), now, s, t, ops1 + Run(Releasing(subject, now), (), u).ops + ops3)
  {
    hide ReleasesVia, Run, Releasing;
  }

  /** A released lease that two requests leave behind: an acquire at 1 and a release at 2. */
  lemma LeftBehind(pol: Policy, subject: Subject)
    requires Proper(pol) && pol.limit > 0 && pol.duration >= 1
    ensures var a := Issue(pol, subject, map[], 1, Active, 1);
            var held := a.(status := Released, released := 2);
            var history := [Event(subject.resource, Acquire(subject, map[]), pol, 1),
                            Event(subject.resource, Release(subject), pol, 2)];
            Sequential(history, subject.resource, [held])
  {
    hide Step, Issue, Sequential, LastTime;
    var r := subject.resource;
    var a := Issue(pol, subject, map[], 1, Active, 1);
    var held := a.(status := Released, released := 2);
    var e1, e2 := Event(r, Acquire(subject, map[]), pol, 1), Event(r, Release(subject), pol, 2);
    NothingYet(r);
    FirstAcquire(pol, subject, map[], 1);
    SequentialMore([], e1, r, [], [a]);
    LastTimeMore([], e1, r);
    IssuedAt(pol, subject, 1);
    OnlyRelease(pol, 2, a);
    assert [] + [e1] == [e1];
    SequentialMore([e1], e2, r, [a], [held]);
    assert [e1] + [e2] == [e1, e2];
  }

  lemma NothingYet(resource: string)
    ensures Sequential([], resource, []) && LastTime([], resource) == ZERO_TIME
  {
  }

  lemma IssuedAt(pol: Policy, subject: Subject, now: Time)
    requires Proper(pol) && now > ZERO_TIME
    ensures var a := Issue(pol, subject, map[], now, Active, now);
            a.subject == subject && a.status.Active? && a.WellFormed() && a.ExpirationTime() == now + pol.duration
            && a.decay == pol.decay
  {
  }

  /** With a space in a host the panic is reachable: after host `x y` with user `z` has acquired and released,
      an acquire by host `x` with user `y z` panics. */
  lemma PanicReachable(pol: Policy, props: map<string, string>)
    requires pol.limit > 0
    ensures var first, second := Subject("r", Instance("x y", "z", "1")), Subject("r", Instance("x", "y z", "2"));
            var given := Policy(ByInstance, 1, 1, 100, RefreshRates(0, 0));
            var history := [Event("r", Acquire(first, map[]), given, 1), Event("r", Release(first), given, 2)];
            exists s :: Sequential(history, "r", s) && AcquirePanics(pol, second, props, 3, s)
  {
    hide Sequential, AcquirePanics, Issue, PanicGuard;
    var first, second := Subject("r", Instance("x y", "z", "1")), Subject("r", Instance("x", "y z", "2"));
    var given := Policy(ByInstance, 1, 1, 100, RefreshRates(0, 0));
    LeftBehind(given, first);
    IssuedAt(given, first, 1);
    var held := Issue(given, first, map[], 1, Active, 1).(status := Released, released := 2);
    OneSettled(3, held);
    CollisionPanics(pol, second, props, 3, [held]);
    OneCollides(pol, second, held);
  }

  lemma OneCollides(pol: Policy, second: Subject, held: Lease)
    requires pol.limit > 0 && held.status.Released? && held.subject == Subject("r", Instance("x y", "z", "1"))
    requires second == Subject("r", Instance("x", "y z", "2"))
    ensures PanicGuard(pol, second, [held])
  {
    HostUserCollides();
    assert "x y" + " " + "z" == "x" + " " + "y z";
    assert |"x y"| != |"x"|;
    hide Subject.HostUser;
    SubjectsOne(held);
    HoldersOne(held);
    var c := held.HostUser();
    assert Distinct(multiset{c}) == {c};
    assert Holders([held]) == multiset{c};
    assert Collides(held, second) && held in [held];
  }
}
