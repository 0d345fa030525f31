/** Any number of requests in flight against one store: every interleaving is a sequential run. */
module Systems {
  import opened Leases
  import opened Projections
  import opened LeaseSets
  import opened Transactions
  import opened Replays
  import opened Refreshing
  import opened FirstPassCounts
  import opened RefreshLaws
  import opened Guardian
  import opened GuardianLaws
  import opened Providers

  const MAX_TRIES := 5

  /** Where a request is: it has viewed the store; it has a transaction; its commit was refused. */
  datatype Stage = Viewed | Ready(now: Time, leases: seq<Lease>, ops: seq<Op>) | Refused

  datatype Flight = Flight(
    resource: string, req: Request, pol: Policy, tries: nat,
    revision: nat, base: seq<Lease>, viewedAt: Time, stage: Stage)

  /** A committed request. */
  datatype Event = Event(resource: string, req: Request, pol: Policy, now: Time)

  function EventOf(f: Flight): Event
    requires f.stage.Ready?
  {
    Event(f.resource, f.req, f.pol, f.stage.now)
  }

  datatype System = System(store: Store, flights: map<nat, Flight>, clock: Time, history: seq<Event>)

  // ----------------------------------------------------------- transitions

  ghost predicate Initial(sys: System) {
    && (sys.store == Mem(map[]) || sys.store == Bolt(0, map[]))
    && sys.flights == map[] && sys.clock > ZERO_TIME && sys.history == []
  }

  ghost predicate Ticks(a: System, b: System) {
    b.clock >= a.clock && b == a.(clock := b.clock)
  }

  function View(a: System, f: Flight, tries: nat): Flight {
    f.(tries := tries, revision := a.store.Revision(f.resource), base := a.store.Leases(f.resource),
       viewedAt := a.clock, stage := Viewed)
  }

  /** A request arrives and views its resource. */
  ghost predicate Begins(a: System, b: System, c: nat, f: Flight) {
    && c !in a.flights && Proper(f.pol) && Concerns(f.req, f.resource)
    && b == a.(flights := a.flights[c := View(a, f, 1)])
  }

  /** A refused request tries again, five times at most. */
  ghost predicate Retries(a: System, b: System, c: nat) {
    && c in a.flights && a.flights[c].stage == Refused && a.flights[c].tries < MAX_TRIES
    && b == a.(flights := a.flights[c := View(a, a.flights[c], a.flights[c].tries + 1)])
  }

  /** The server computes a transaction from what it viewed, at the time on the clock. */
  ghost predicate Computes(a: System, b: System, c: nat, t: seq<Lease>, ops: seq<Op>) {
    && c in a.flights && a.flights[c].stage == Viewed
    && var f := a.flights[c];
       Step(f.pol, f.req, a.clock, f.base, t, ops)
       && b == a.(flights := a.flights[c := f.(stage := Ready(a.clock, t, ops))])
  }

  /** The transaction is committed, or there was nothing to commit. */
  ghost predicate Succeeds(a: System, b: System, c: nat, store: Store) {
    && c in a.flights && a.flights[c].stage.Ready?
    && var f := a.flights[c];
       StoreCommits(a.store, f.resource, f.revision, f.stage.ops, f.stage.leases, store, true)
       && b == System(store, a.flights - {c}, a.clock,
                      if f.stage.ops == [] then a.history
                      else a.history + [EventOf(f)])
  }

  ghost predicate IsRefused(a: System, b: System, c: nat, store: Store) {
    && c in a.flights && a.flights[c].stage.Ready?
    && var f := a.flights[c];
       StoreCommits(a.store, f.resource, f.revision, f.stage.ops, f.stage.leases, store, false)
       && b == a.(store := store, flights := a.flights[c := f.(stage := Refused)])
  }

  /** A request ends without a commit: after five tries, on a failed view, or in a panic. */
  ghost predicate Abandons(a: System, b: System, c: nat) {
    c in a.flights && b == a.(flights := a.flights - {c})
  }

  ghost predicate Next(a: System, b: System) {
    || Ticks(a, b)
    || (exists c, f :: Begins(a, b, c, f))
    || (exists c :: Retries(a, b, c))
    || (exists c, t, ops :: Computes(a, b, c, t, ops))
    || (exists c, store :: Succeeds(a, b, c, store))
    || (exists c, store :: IsRefused(a, b, c, store))
    || (exists c :: Abandons(a, b, c))
  }

  ghost predicate Behavior(run: seq<System>) {
    run != [] && Initial(run[0]) && forall i :: 0 <= i < |run| - 1 ==> Next(run[i], run[i + 1])
  }

  // ------------------------------------------------------ sequential runs

  /** The time of the last committed request on the resource. */
  function LastTime(history: seq<Event>, resource: string): Time
    decreases |history|
  {
    if history == [] then ZERO_TIME
    else
      var e := history[|history| - 1];
      if e.resource == resource then e.now else LastTime(Front(history), resource)
  }

  /** Whole requests carried out one after the other, from an empty set and at times that never go back,
      can leave the resource holding `s`. */
  ghost predicate Sequential(history: seq<Event>, resource: string, s: seq<Lease>)
    decreases |history|
  {
    if history == [] then s == []
    else
      var e := history[|history| - 1];
      if e.resource != resource then Sequential(Front(history), resource, s)
      else exists before :: Sequential(Front(history), resource, before)
                            && Carried(e, LastTime(Front(history), resource), before, s)
  }

  ghost predicate Carried(e: Event, since: Time, s: seq<Lease>, t: seq<Lease>) {
    && Proper(e.pol) && Concerns(e.req, e.resource) && e.now > ZERO_TIME && since <= e.now
    && exists ops :: Step(e.pol, e.req, e.now, s, t, ops) && ops != []
  }

  lemma SequentialMore(history: seq<Event>, e: Event, resource: string, before: seq<Lease>, s: seq<Lease>)
    requires Sequential(history, resource, before)
    requires if e.resource == resource then Carried(e, LastTime(history, resource), before, s) else s == before
    ensures Sequential(history + [e], resource, s)
  {
    hide Carried;
    assert Front(history + [e]) == history;
  }

  lemma LastTimeMore(history: seq<Event>, e: Event, resource: string)
    ensures LastTime(history + [e], resource) == if e.resource == resource then e.now else LastTime(history, resource)
  {
    assert Front(history + [e]) == history;
  }

  lemma StoredNone(resource: string)
    ensures Stored(resource, [])
  {
    assert Subjects([]) == multiset{};
  }

  /** What a sequential run keeps, every stored set has. */
  lemma {:induction false} SequentialStored(history: seq<Event>, resource: string, s: seq<Lease>)
    requires Sequential(history, resource, s)
    ensures Stored(resource, s)
    decreases |history|
  {
    hide Stored, Step;
    if history == [] {
      StoredNone(resource);
    } else {
      var n := |history| - 1;
      var e := history[n];
      assert Front(history) == history[..n];
      if e.resource != resource {
        SequentialStored(history[..n], resource, s);
      } else {
        var before :| Sequential(history[..n], resource, before)
                      && Carried(e, LastTime(history[..n], resource), before, s);
        SequentialStored(history[..n], resource, before);
        var ops :| Step(e.pol, e.req, e.now, before, s, ops) && ops != [];
        StepStored(e.pol, e.req, e.now, resource, before, s, ops);
      }
    }
  }

  /** Every acquire on the resource was made under one limit and one strategy. */
  ghost predicate Under(history: seq<Event>, resource: string, strat: Strategy, limit: nat) {
    forall i :: 0 <= i < |history| && history[i].resource == resource ==>
                  Agreed(history[i].pol, history[i].req, strat, limit)
  }

  lemma CappedNone(strat: Strategy, limit: nat)
    ensures Capped(strat, limit, [])
  {
    assert Holders([]) == multiset{};
    assert Distinct<string>(multiset{}) == {};
  }

  /** Under one limit and strategy a sequential run never takes the resource past the limit. */
  lemma {:induction false} SequentialCapped(history: seq<Event>, resource: string, s: seq<Lease>,
                                            strat: Strategy, limit: nat)
    requires Sequential(history, resource, s) && Under(history, resource, strat, limit)
    ensures Capped(strat, limit, s)
    decreases |history|
  {
    hide Stored, Step, Capped;
    if history == [] {
      CappedNone(strat, limit);
    } else {
      var n := |history| - 1;
      var e := history[n];
      assert Front(history) == history[..n];
      if e.resource != resource {
        SequentialCapped(history[..n], resource, s, strat, limit);
      } else {
        var before :| Sequential(history[..n], resource, before)
                      && Carried(e, LastTime(history[..n], resource), before, s);
        SequentialCapped(history[..n], resource, before, strat, limit);
        SequentialStored(history[..n], resource, before);
        var ops :| Step(e.pol, e.req, e.now, before, s, ops) && ops != [];
          StepCapped(e.pol, e.req, e.now, resource, before, s, ops, strat, limit);
      }
    }
  }

  // ------------------------------------------------------------- invariant

  /** A request in flight whose revision still matches was computed from exactly the stored leases. */
  ghost predicate FlightSound(sys: System, f: Flight) {
    && Proper(f.pol) && Concerns(f.req, f.resource) && 1 <= f.tries <= MAX_TRIES
    && f.viewedAt <= sys.clock
    && f.revision <= sys.store.Revision(f.resource)
    && (f.revision == sys.store.Revision(f.resource) ==>
          f.base == sys.store.Leases(f.resource) && LastTime(sys.history, f.resource) <= f.viewedAt)
    && (f.stage.Ready? ==>
          ZERO_TIME < f.stage.now && f.viewedAt <= f.stage.now <= sys.clock
          && Step(f.pol, f.req, f.stage.now, f.base, f.stage.leases, f.stage.ops))
  }

  ghost predicate Sound(sys: System) {
    && sys.clock > ZERO_TIME
    && (forall r :: Sequential(sys.history, r, sys.store.Leases(r)))
    && (forall r :: LastTime(sys.history, r) <= sys.clock)
    && (forall c :: c in sys.flights ==> FlightSound(sys, sys.flights[c]))
  }

  lemma InitialSound(sys: System)
    requires Initial(sys)
    ensures Sound(sys)
  {
  }

  lemma TicksSound(a: System, b: System)
    requires Sound(a) && Ticks(a, b)
    ensures Sound(b)
  {
    hide Step, Sequential;
    forall c | c in b.flights ensures FlightSound(b, b.flights[c]) {
      assert FlightSound(a, a.flights[c]);
    }
  }

  /** Changing one flight, and nothing else, keeps the system sound if the flight is. */
  lemma FlightChanged(a: System, b: System, c: nat, f: Flight)
    requires Sound(a) && b == a.(flights := a.flights[c := f]) && FlightSound(a, f)
    ensures Sound(b)
  {
    hide Step, Sequential;
    forall k | k in b.flights ensures FlightSound(b, b.flights[k]) {
      assert k == c || FlightSound(a, a.flights[k]);
    }
  }

  lemma AbandonsSound(a: System, b: System, c: nat)
    requires Sound(a) && Abandons(a, b, c)
    ensures Sound(b)
  {
    hide Step, Sequential;
    forall k | k in b.flights ensures FlightSound(b, b.flights[k]) {
      assert FlightSound(a, a.flights[k]);
    }
  }

  /** A ready transaction whose revision matches replays on the stored leases. */
  lemma ReadyReplays(sys: System, f: Flight)
    requires Sound(sys) && FlightSound(sys, f) && f.stage.Ready?
    ensures Sorted(f.stage.leases)
    ensures f.revision == sys.store.Revision(f.resource) ==>
              ReplaysTo(sys.store.Leases(f.resource), f.stage.ops, f.stage.leases)
  {
    hide Step, Sequential, Stored, Sorted, Replay;
    StepSorted(f.pol, f.req, f.stage.now, f.base, f.stage.leases, f.stage.ops);
    if f.revision == sys.store.Revision(f.resource) {
      SequentialStored(sys.history, f.resource, f.base);
      StepLogs(f.pol, f.req, f.stage.now, f.resource, f.base, f.stage.leases, f.stage.ops);
    }
  }

  lemma StepSorted(pol: Policy, req: Request, now: Time, s: seq<Lease>, t: seq<Lease>, ops: seq<Op>)
    requires Step(pol, req, now, s, t, ops)
    ensures Sorted(t)
  {
    hide Acquires, Refreshes, Run, Sorted;
    match req
    case Acquire(subject, props) =>
      var ls :| Acquires(pol, subject, props, now, s, t, ops, ls);
      AcquireSorted(pol, subject, props, now, s, t, ops, ls);
    case Release(subject) =>
      var u, ops1, led1, v, ops3, led3 :|
        && ReleasesVia(subject, now, s, u, ops1, led1, v, t, ops3, led3)
        && ops == ops1 + Run(Releasing(subject, now), (), u).ops + ops3;
      RefreshSorted(v, now, t, ops3, led3);
    case Purge =>
      var led :| Refreshes(s, now, t, ops, led);
      RefreshSorted(s, now, t, ops, led);
  }

  /** What a commit that writes does to the history: one more whole step of the sequential run. */
  lemma SucceedsSequential(a: System, b: System, c: nat, store: Store, r: string)
    requires Sound(a) && Succeeds(a, b, c, store) && a.flights[c].stage.ops != []
    ensures Sequential(b.history, r, b.store.Leases(r))
    ensures LastTime(b.history, r) <= b.clock
    ensures forall g :: g in b.flights && b.flights[g].resource == r ==> FlightSound(b, b.flights[g])
  {
    hide Step, Sequential, Sorted, Replay, IsSortOf, StoreCommits, LastTime;
    var f := a.flights[c];
    ReadyReplays(a, f);
    CommitMeans(a.store, f.resource, f.revision, f.stage.ops, f.stage.leases, store, true);
    var e := EventOf(f);
    LastTimeMore(a.history, e, r);
    if r == f.resource {
      StepResorted(f.pol, f.req, f.stage.now, f.base, f.stage.leases, f.stage.ops, store.Leases(r));
      assert Carried(e, LastTime(a.history, r), f.base, store.Leases(r));
    }
    SequentialMore(a.history, e, r, a.store.Leases(r), store.Leases(r));
    forall g | g in b.flights && b.flights[g].resource == r ensures FlightSound(b, b.flights[g]) {
      assert FlightSound(a, a.flights[g]);
      RevisionsMove(a.store, f.resource, f.revision, f.stage.ops, f.stage.leases, store, r);
    }
  }

  /** A revision that still matches after a write belongs to another page, which has not changed. */
  lemma RevisionsMove(st: Store, resource: string, revision: nat, ops: seq<Op>, t: seq<Lease>, st': Store, r: string)
    requires StoreCommits(st, resource, revision, ops, t, st', true) && ops != []
    ensures st'.Revision(r) > st.Revision(r)
            || (r != resource && st'.Revision(r) == st.Revision(r) && st'.Leases(r) == st.Leases(r))
  {
    hide IsSortOf, Replay;
  }

  lemma SucceedsSound(a: System, b: System, c: nat, store: Store)
    requires Sound(a) && Succeeds(a, b, c, store)
    ensures Sound(b)
  {
    hide Step, Sequential, Sorted, Replay, IsSortOf, StoreCommits, FlightSound;
    var f := a.flights[c];
    if f.stage.ops == [] {
      NothingCommitted(a.store, f.resource, f.revision, f.stage.leases, store);
      forall k | k in b.flights ensures FlightSound(b, b.flights[k]) {
        assert FlightSound(a, a.flights[k]);
        SameViewSound(a, b, a.flights[k]);
      }
    } else {
      forall r ensures Sequential(b.history, r, b.store.Leases(r)) && LastTime(b.history, r) <= b.clock {
        SucceedsSequential(a, b, c, store, r);
      }
      forall k | k in b.flights ensures FlightSound(b, b.flights[k]) {
        SucceedsSequential(a, b, c, store, b.flights[k].resource);
      }
    }
  }

  lemma NothingCommitted(st: Store, resource: string, revision: nat, t: seq<Lease>, st': Store)
    requires StoreCommits(st, resource, revision, [], t, st', true)
    ensures forall r :: st'.Leases(r) == st.Leases(r) && st'.Revision(r) == st.Revision(r)
  {
  }

  lemma NothingRefused(st: Store, resource: string, revision: nat, ops: seq<Op>, t: seq<Lease>, st': Store)
    requires StoreCommits(st, resource, revision, ops, t, st', false)
    ensures forall r :: st'.Leases(r) == st.Leases(r) && st'.Revision(r) == st.Revision(r)
  {
  }

  lemma SameViewSound(a: System, b: System, f: Flight)
    requires FlightSound(a, f) && b.clock == a.clock && b.history == a.history
    requires forall r :: b.store.Leases(r) == a.store.Leases(r) && b.store.Revision(r) == a.store.Revision(r)
    ensures FlightSound(b, f)
  {
    hide Step;
  }

  lemma RefusedSound(a: System, b: System, c: nat, store: Store)
    requires Sound(a) && IsRefused(a, b, c, store)
    ensures Sound(b)
  {
    hide Step, Sequential, StoreCommits, FlightSound;
    var f := a.flights[c];
    NothingRefused(a.store, f.resource, f.revision, f.stage.ops, f.stage.leases, store);
    forall k | k in b.flights ensures FlightSound(b, b.flights[k]) {
      assert FlightSound(a, a.flights[k]);
      if k == c {
        RefusedFlight(a, f);
        SameViewSound(a, b, f.(stage := Refused));
      } else {
        SameViewSound(a, b, a.flights[k]);
      }
    }
  }

  lemma RefusedFlight(a: System, f: Flight)
    requires FlightSound(a, f)
    ensures FlightSound(a, f.(stage := Refused))
  {
    hide Step;
  }

  lemma NextSound(a: System, b: System)
    requires Sound(a) && Next(a, b)
    ensures Sound(b)
  {
    hide Step, Sequential, Sound, Ticks, Begins, Retries, Computes, Succeeds, IsRefused, Abandons;
    if Ticks(a, b) {
      TicksSound(a, b);
    } else if c, f :| Begins(a, b, c, f) {
      BeginsSound(a, b, c, f);
    } else if c :| Retries(a, b, c) {
      RetriesSound(a, b, c);
    } else if c, t, ops :| Computes(a, b, c, t, ops) {
      ComputesSound(a, b, c, t, ops);
    } else if c, store :| Succeeds(a, b, c, store) {
      SucceedsSound(a, b, c, store);
    } else if c, store :| IsRefused(a, b, c, store) {
      RefusedSound(a, b, c, store);
    } else {
      var c :| Abandons(a, b, c);
      AbandonsSound(a, b, c);
    }
  }

  lemma BeginsSound(a: System, b: System, c: nat, f: Flight)
    requires Sound(a) && Begins(a, b, c, f)
    ensures Sound(b)
  {
    hide Step, Sequential;
    FlightChanged(a, b, c, View(a, f, 1));
  }

  lemma RetriesSound(a: System, b: System, c: nat)
    requires Sound(a) && Retries(a, b, c)
    ensures Sound(b)
  {
    hide Step, Sequential;
    var f := a.flights[c];
    assert FlightSound(a, f);
    FlightChanged(a, b, c, View(a, f, f.tries + 1));
  }

  lemma ComputesSound(a: System, b: System, c: nat, t: seq<Lease>, ops: seq<Op>)
    requires Sound(a) && Computes(a, b, c, t, ops)
    ensures Sound(b)
  {
    hide Step, Sequential;
    var f := a.flights[c];
    assert FlightSound(a, f);
    FlightChanged(a, b, c, f.(stage := Ready(a.clock, t, ops)));
  }

  // -------------------------------------------------- what a transition writes

  lemma SoundStored(sys: System, resource: string)
    requires Sound(sys)
    ensures Stored(resource, sys.store.Leases(resource))
  {
    hide Sequential, Stored, FlightSound;
    SequentialStored(sys.history, resource, sys.store.Leases(resource));
  }

  /** The event by which a transition wrote to the resource, if it did: then the leases stored after it come
      from those stored before it by one whole step, at a time no later than the clock. */
  lemma NextWrites(a: System, b: System, resource: string) returns (written: Option<Event>)
    requires Sound(a) && Next(a, b)
    ensures written.None? ==> b.store.Leases(resource) == a.store.Leases(resource)
    ensures written.Some? ==>
              var e := written.value;
              && e.resource == resource && Concerns(e.req, resource) && ZERO_TIME < e.now <= a.clock
              && LastTime(a.history, resource) <= e.now
              && (exists c :: c in a.flights && a.flights[c].req == e.req && a.flights[c].pol == e.pol)
              && exists ops :: Step(e.pol, e.req, e.now, a.store.Leases(resource), b.store.Leases(resource), ops)
  {
    hide Step, Sequential, Sound, StoreCommits;
    written := None;
    if c, store :| Succeeds(a, b, c, store) {
      written := SucceedsWrites(a, b, c, store, resource);
    } else if c, store :| IsRefused(a, b, c, store) {
      var f := a.flights[c];
      NothingRefused(a.store, f.resource, f.revision, f.stage.ops, f.stage.leases, store);
    }
  }

  lemma SucceedsWrites(a: System, b: System, c: nat, store: Store, resource: string) returns (written: Option<Event>)
    requires Sound(a) && Succeeds(a, b, c, store)
    ensures written.None? ==> b.store.Leases(resource) == a.store.Leases(resource)
    ensures written.Some? ==>
              var e := written.value;
              && e.resource == resource && Concerns(e.req, resource) && ZERO_TIME < e.now <= a.clock
              && LastTime(a.history, resource) <= e.now
              && (exists c :: c in a.flights && a.flights[c].req == e.req && a.flights[c].pol == e.pol)
              && exists ops :: Step(e.pol, e.req, e.now, a.store.Leases(resource), b.store.Leases(resource), ops)
  {
    hide Step, Sequential, Sorted, Replay, IsSortOf, StoreCommits, LastTime, ReplaysTo;
    var f := a.flights[c];
    assert FlightSound(a, f);
    ReadyReplays(a, f);
    CommitMeans(a.store, f.resource, f.revision, f.stage.ops, f.stage.leases, store, true);
    if f.stage.ops == [] || f.resource != resource {
      written := None;
    } else {
      written := Some(EventOf(f));
      StepResorted(f.pol, f.req, f.stage.now, f.base, f.stage.leases, f.stage.ops, store.Leases(resource));
    }
  }

  // ------------------------------------------------------ over every run

  lemma {:induction false} ReachableSound(run: seq<System>, i: nat)
    requires Behavior(run) && i < |run|
    ensures Sound(run[i])
  {
    hide Sound, Next, Initial;
    if i == 0 {
      InitialSound(run[0]);
    } else {
      ReachableSound(run, i - 1);
      NextSound(run[i - 1], run[i]);
    }
  }

  /** Optimistic commits are linearizable: in every reachable state of any interleaving, on either store,
      each resource holds what its committed requests leave when carried out whole, one after the other in
      the order of their commits and at times that never go back. */
  lemma Linearizable(run: seq<System>, i: nat, resource: string)
    requires Behavior(run) && i < |run|
    ensures Sequential(run[i].history, resource, run[i].store.Leases(resource))
  {
    hide Sequential, FlightSound, Next, Initial;
    ReachableSound(run, i);
  }

  /** The representation invariant holds in every reachable state, whatever policies requests carry. */
  lemma AlwaysStored(run: seq<System>, i: nat, resource: string)
    requires Behavior(run) && i < |run|
    ensures Stored(resource, run[i].store.Leases(resource))
  {
    hide Sequential, Stored, Behavior;
    Linearizable(run, i, resource);
    SequentialStored(run[i].history, resource, run[i].store.Leases(resource));
  }

  /** With one limit and strategy for the resource, consumption never exceeds the limit in any reachable state. */
  lemma NeverOverAllocated(run: seq<System>, i: nat, resource: string, strat: Strategy, limit: nat)
    requires Behavior(run) && i < |run| && Under(run[i].history, resource, strat, limit)
    ensures Consumption(strat, run[i].store.Leases(resource)) <= limit
  {
    hide Sequential, Behavior, Under, Consumption, Uniform;
    Linearizable(run, i, resource);
    SequentialCapped(run[i].history, resource, run[i].store.Leases(resource), strat, limit);
  }

  /** All acquires of the resource carry one limit and strategy. */
  ghost predicate AlwaysUnder(run: seq<System>, resource: string, strat: Strategy, limit: nat) {
    forall i, c :: 0 <= i < |run| && c in run[i].flights && run[i].flights[c].resource == resource ==>
                     Agreed(run[i].flights[c].pol, run[i].flights[c].req, strat, limit)
  }

  lemma {:induction false} HistoryUnder(run: seq<System>, i: nat, resource: string, strat: Strategy, limit: nat)
    requires Behavior(run) && i < |run| && AlwaysUnder(run, resource, strat, limit)
    ensures Under(run[i].history, resource, strat, limit)
  {
    hide Step, StoreCommits;
    if i > 0 {
      HistoryUnder(run, i - 1, resource, strat, limit);
      HistoryGrows(run[i - 1], run[i]);
      var a, b := run[i - 1], run[i];
      if b.history != a.history {
        var c :| c in a.flights && a.flights[c].stage.Ready?
                 && b.history == a.history + [EventOf(a.flights[c])];
      }
    }
  }

  lemma HistoryGrows(a: System, b: System)
    requires Next(a, b)
    ensures b.history == a.history
            || exists c :: c in a.flights && a.flights[c].stage.Ready?
                  && b.history == a.history + [EventOf(a.flights[c])]
  {
    hide Step, StoreCommits;
  }

  /** The capacity of a resource is safe over whole runs: any number of clients acquiring, releasing,
      purging and refreshing in any interleaving, as long as acquires of the resource carry one limit and
      strategy. Durations, decays and refresh rates are free. */
  lemma CapacitySafe(run: seq<System>, i: nat, resource: string, strat: Strategy, limit: nat)
    requires Behavior(run) && i < |run| && AlwaysUnder(run, resource, strat, limit)
    ensures Consumption(strat, run[i].store.Leases(resource)) <= limit
  {
    hide Behavior, AlwaysUnder, Under, Consumption;
    HistoryUnder(run, i, resource, strat, limit);
    NeverOverAllocated(run, i, resource, strat, limit);
  }
}
