/** The client among the others: one that waits as it should keeps its place in the queue until it is active, and then
    stays active, whatever the others do. */
module ClientRuns {
  import opened Leases
  import opened Projections
  import opened LeaseSets
  import opened Refreshing
  import opened FirstPasses
  import opened Transactions
  import opened Replays
  import opened Accumulators
  import opened RefreshLaws
  import opened OneEdits
  import opened Guardian
  import opened GuardianLaws
  import opened GuardianService
  import opened Conservation
  import opened Providers
  import opened Systems
  import opened Maintainers

  // ------------------------------------------------- renewal times go forward

  ghost predicate RenewedBy(s: seq<Lease>, at: Time) {
    forall x :: x in s ==> x.renewed <= at
  }

  lemma RefreshRenewed(s: seq<Lease>, at: Time, t: seq<Lease>, ops: seq<Op>, led: Ledger, bound: Time)
    requires Refreshes(s, at, t, ops, led) && RenewedBy(s, bound)
    ensures RenewedBy(t, bound)
  {
    hide Refreshes;
    RefreshOrigins(s, at, t, ops, led);
    forall x | x in t ensures x.renewed <= bound {
      var l :| l in s && ScansTo(at, l, x);
    }
  }

  lemma SwapRenewed(u: seq<Lease>, xs: seq<Lease>, ys: seq<Lease>, t: seq<Lease>, ops: seq<Op>, bound: Time)
    requires Swaps(u, xs, ys, t, ops) && RenewedBy(u, bound) && RenewedBy(ys, bound)
    ensures RenewedBy(t, bound)
  {
    hide Swaps;
    forall x | x in t ensures x.renewed <= bound {
      SwapOrigin(u, xs, ys, t, ops, x);
    }
  }

  /** No step leaves a lease renewed later than its own time, if there was none before. */
  lemma StepRenewed(pol: Policy, req: Request, now: Time, resource: string, s: seq<Lease>, t: seq<Lease>, ops: seq<Op>)
    requires Concerns(req, resource) && Stored(resource, s) && now > ZERO_TIME
    requires Step(pol, req, now, s, t, ops) && RenewedBy(s, now)
    ensures RenewedBy(t, now)
  {
    hide Refreshes, Run, IsSortOf, Sorted, Unique, RenewedBy, Decide, Carries, Swaps, Subjects, Lease.WellFormed,
         MakesWay, Usable, Releasing;
    match req
    case Acquire(subject, props) =>
      var ls :| Acquires(pol, subject, props, now, s, t, ops, ls);
      var u, ops1, led, ops2 :|
        AcquiresVia(pol, subject, props, now, s, u, ops1, led, t, ops2, ls) && ops == ops1 + ops2;
      RefreshStored(resource, s, now, u, ops1, led);
      RefreshRenewed(s, now, u, ops1, led, now);
      var xs := AcquireSwaps(pol, subject, props, now, u, led, t, ops2);
      OneRenewed(ls, now);
      SwapRenewed(u, xs, [ls], t, ops2, now);
    case Release(subject) =>
      var u, ops1, led1, v, ops3, led3 :|
        && ReleasesVia(subject, now, s, u, ops1, led1, v, t, ops3, led3)
        && ops == ops1 + Run(Releasing(subject, now), (), u).ops + ops3;
      RefreshStored(resource, s, now, u, ops1, led1);
      RefreshRenewed(s, now, u, ops1, led1, now);
      var xs, ys := ReleaseSwaps(subject, now, u, v);
      ReleasedRenewed(u, xs, ys, v, Run(Releasing(subject, now), (), u).ops, now);
      SwapRenewed(u, xs, ys, v, Run(Releasing(subject, now), (), u).ops, now);
      RefreshRenewed(v, now, t, ops3, led3, now);
    case Purge =>
      var led :| Refreshes(s, now, t, ops, led);
      RefreshRenewed(s, now, t, ops, led, now);
  }

  lemma OneRenewed(ls: Lease, bound: Time)
    ensures RenewedBy([ls], bound) <==> ls.renewed <= bound
  {
    assert ls in [ls];
  }

  lemma ReleasedRenewed(u: seq<Lease>, xs: seq<Lease>, ys: seq<Lease>, t: seq<Lease>, ops: seq<Op>, bound: Time)
    requires Swaps(u, xs, ys, t, ops) && RenewedBy(u, bound)
    requires ys != [] ==> xs != [] && ys[0].renewed == xs[0].renewed
    ensures RenewedBy(ys, bound)
  {
    hide Sorted, SwapOps;
    if ys != [] {
      assert xs[0] in xs && xs[0] in u;
      assert ys == [ys[0]];
    }
  }

  lemma {:induction false} SequentialRenewed(history: seq<Event>, resource: string, s: seq<Lease>)
    requires Sequential(history, resource, s)
    ensures RenewedBy(s, LastTime(history, resource))
    decreases |history|
  {
    hide Stored, Step;
    if history != [] {
      var n := |history| - 1;
      var e := history[n];
      assert Front(history) == history[..n];
      if e.resource != resource {
        SequentialRenewed(history[..n], resource, s);
      } else {
        var before :| Sequential(history[..n], resource, before)
                      && Carried(e, LastTime(history[..n], resource), before, s);
        SequentialRenewed(history[..n], resource, before);
        SequentialStored(history[..n], resource, before);
        var ops :| Step(e.pol, e.req, e.now, before, s, ops) && ops != [];
        StepRenewed(e.pol, e.req, e.now, resource, before, s, ops);
      }
    }
  }

  // ------------------------------------------------- one step, one transition

  /** Active, or in the queue. */
  predicate Live(y: Lease) {
    y.status == Active || y.status == Queued
  }

  ghost predicate Holds(sys: System, subject: Subject, y: Lease) {
    y in sys.store.Leases(subject.resource) && y.subject == subject && Live(y)
  }

  /** Nobody releases the subject's lease, and whoever acquires it is given the same duration. */
  ghost predicate Undisturbed(sys: System, subject: Subject, duration: Duration) {
    forall c :: c in sys.flights ==>
                  && sys.flights[c].req != Request.Release(subject)
                  && (sys.flights[c].req.Acquire? && sys.flights[c].req.subject == subject ==>
                        sys.flights[c].pol.duration == duration)
  }

  /** `y` carries on from `x`: as it was, or renewed no earlier, for as long, since the same start; an active lease
      stays active. */
  predicate Continues(x: Lease, y: Lease, duration: Duration) {
    && Live(y) && (x.status == Active ==> y.status == Active)
    && y.subject == x.subject && y.started == x.started && y.renewed >= x.renewed
    && (x.duration == duration ==> y.duration == duration)
  }

  lemma RenewalContinues(pol: Policy, subject: Subject, props: map<string, string>, now: Time, status: Status, x: Lease)
    requires x.subject == subject && x.renewed <= now
    requires (status == Active || status == Queued) && (x.status == Active ==> status == Active)
    ensures Continues(x, Issue(pol, subject, props, now, status, x.started), pol.duration)
  {
  }

  lemma StepContinues(e: Event, s: seq<Lease>, t: seq<Lease>, ops: seq<Op>, x: Lease, duration: Duration)
    returns (y: Lease)
    requires e.now > ZERO_TIME && Concerns(e.req, e.resource) && Stored(e.resource, s)
    requires Step(e.pol, e.req, e.now, s, t, ops) && e.req != Request.Release(x.subject)
    requires e.req.Acquire? && e.req.subject == x.subject ==> e.pol.duration == duration
    requires x in s && Live(x) && !x.Expired(e.now) && x.renewed <= e.now
    ensures y in t && Continues(x, y, duration)
  {
    hide Acquires, Releases, Refreshes, Stored, Issue;
    if e.req.Acquire? && e.req.subject == x.subject {
      var ls :| Acquires(e.pol, e.req.subject, e.req.props, e.now, s, t, ops, ls);
      StoredResource(e.resource, s, x);
      LiveRenewed(e.pol, x.subject, e.req.props, e.now, s, t, ops, ls, x);
      RenewalContinues(e.pol, x.subject, e.req.props, e.now, ls.status, x);
      y := ls;
    } else if x.status == Active {
      ActiveLeftAlone(e.pol, e.req, e.now, e.resource, s, t, ops, x);
      y := x;
    } else {
      y := QueuedLeftAlone(e.pol, e.req, e.now, e.resource, s, t, ops, x);
    }
  }

  lemma LiveRenewed(pol: Policy, subject: Subject, props: map<string, string>, now: Time,
                    s: seq<Lease>, t: seq<Lease>, ops: seq<Op>, ls: Lease, x: Lease)
    requires Stored(subject.resource, s) && Acquires(pol, subject, props, now, s, t, ops, ls)
    requires x in s && Live(x) && !x.Expired(now) && x.subject == subject
    ensures ls in t && ls == Issue(pol, subject, props, now, ls.status, x.started)
    ensures (ls.status == Active || ls.status == Queued) && (x.status == Active ==> ls.status == Active)
  {
    hide Acquires, Stored, Issue;
    if x.status == Active {
      ActiveRenewed(pol, subject, props, now, s, t, ops, ls, x);
      IssuedStatus(pol, subject, props, now, Active, x.started);
    } else {
      QueuedRenewed(pol, subject, props, now, s, t, ops, ls, x);
    }
  }

  lemma StoredResource(resource: string, s: seq<Lease>, x: Lease)
    requires Stored(resource, s) && x in s
    ensures x.subject.resource == resource
  {
    hide Sorted, Unique, Lease.WellFormed;
  }

  lemma HeldRenewed(sys: System, resource: string)
    requires Sound(sys)
    ensures RenewedBy(sys.store.Leases(resource), LastTime(sys.history, resource))
  {
    hide Sequential, FlightSound, RenewedBy;
    SequentialRenewed(sys.history, resource, sys.store.Leases(resource));
  }

  /** One transition of the whole system cannot take an unexpired lease, active or queued, from a client that is not
      releasing it: it leaves the lease alone, activates it, or renews it. */
  lemma NextContinues(a: System, b: System, subject: Subject, x: Lease, duration: Duration) returns (y: Lease)
    requires Sound(a) && Next(a, b) && Holds(a, subject, x)
    requires Undisturbed(a, subject, duration) && !x.Expired(a.clock)
    ensures Holds(b, subject, y) && Continues(x, y, duration)
  {
    hide Next, Step, Sound, Stored, Sequential, LastTime;
    var r := subject.resource;
    var written := NextWrites(a, b, r);
    if written.None? {
      y := x;
    } else {
      var e := written.value;
      SoundStored(a, r);
      HeldRenewed(a, r);
      var ops :| Step(e.pol, e.req, e.now, a.store.Leases(r), b.store.Leases(r), ops);
      y := StepContinues(e, a.store.Leases(r), b.store.Leases(r), ops, x, duration);
    }
  }

  // -------------------------------------------------------------- the client

  /** Waiting for its timer, or for a request sent since that has not reached the server; asking, by a request in
      flight; answered, with a response on its way. `wake` is when the timer goes off. */
  datatype Phase =
    | Waiting(wake: Time)
    | Asking(flight: nat, wake: Time)
    | Answered(lease: Lease, wake: Time)

  datatype Client = Client(
    subject: Subject, props: map<string, string>, retry: Duration, state: State, phase: Phase, failures: nat)

  datatype World = World(sys: System, client: Client)

  ghost predicate StateValid(state: State) {
    state.acquired ==> state.lease.Some?
  }

  /** Anything else that happens; the server may work on the client's request, but not finish it. */
  ghost predicate Elsewhere(a: World, b: World) {
    && Next(a.sys, b.sys) && b.client == a.client
    && (a.client.phase.Asking? ==> a.client.phase.flight in b.sys.flights)
  }

  /** The timer has gone off and the request reaches the server. */
  ghost predicate Asks(a: World, b: World, c: nat, f: Flight) {
    && a.client.phase.Waiting? && a.client.phase.wake <= a.sys.clock
    && f.resource == a.client.subject.resource && f.req == Acquire(a.client.subject, a.client.props)
    && Begins(a.sys, b.sys, c, f)
    && b.client == a.client.(phase := Asking(c, a.client.phase.wake))
  }

  /** The request is committed; the lease it acquired is sent back. */
  ghost predicate Commits(a: World, b: World, store: Store, ls: Lease) {
    && a.client.phase.Asking?
    && var c := a.client.phase.flight;
       Succeeds(a.sys, b.sys, c, store)
       && var f := a.sys.flights[c];
          f.resource == a.client.subject.resource && f.req == Acquire(a.client.subject, a.client.props)
          && Acquires(f.pol, a.client.subject, a.client.props, f.stage.now, f.base, f.stage.leases, f.stage.ops, ls)
          && b.client == a.client.(phase := Answered(ls, a.client.phase.wake))
  }

  /** The response arrives, and the next wait is computed. */
  ghost predicate Receives(a: World, b: World, all: seq<Lease>, interval: Duration) {
    && a.client.phase.Answered? && b.sys == a.sys
    && var state := Receive(a.client.state, Granted(a.client.phase.lease, all));
       IsInterval(state, a.client.retry, a.sys.clock, interval)
       && b.client == a.client.(state := state, phase := Waiting(a.sys.clock + interval), failures := 0)
  }

  /** The request fails, or its response is lost: before it reached the server, while the server works on it and may
      commit it yet, when the server gives it up, or after its commit. The next wait is computed. */
  ghost predicate Fails(a: World, b: World, reason: string, interval: Duration) {
    && StateValid(a.client.state) && a.client.phase.wake <= a.sys.clock
    && (b.sys == a.sys || (a.client.phase.Asking? && Abandons(a.sys, b.sys, a.client.phase.flight)))
    && var state := Receive(a.client.state, Failed(reason));
       IsInterval(state, a.client.retry, a.sys.clock, interval)
       && b.client == a.client.(state := state, phase := Waiting(a.sys.clock + interval),
                                failures := a.client.failures + 1)
  }

  ghost predicate WorldNext(a: World, b: World) {
    || Elsewhere(a, b)
    || (exists c, f :: Asks(a, b, c, f))
    || (exists store, ls :: Commits(a, b, store, ls))
    || (exists all, interval :: Receives(a, b, all, interval))
    || (exists reason, interval :: Fails(a, b, reason, interval))
  }

  ghost predicate WorldInitial(w: World) {
    Initial(w.sys) && w.client.state == IDLE && w.client.phase == Waiting(w.sys.clock) && w.client.failures == 0
  }

  ghost predicate WorldBehavior(run: seq<World>) {
    run != [] && WorldInitial(run[0]) && forall i :: 0 <= i < |run| - 1 ==> WorldNext(run[i], run[i + 1])
  }

  /** To the guardian and its store the client is one more of the requests in flight. */
  lemma WorldIsSystem(a: World, b: World)
    requires WorldNext(a, b)
    ensures b.sys == a.sys || Next(a.sys, b.sys)
  {
    hide Ticks, Begins, Retries, Computes, Succeeds, IsRefused, Abandons, Acquires, IsInterval;
  }

  lemma {:induction false} WorldSound(run: seq<World>, i: nat)
    requires WorldBehavior(run) && i < |run|
    ensures Sound(run[i].sys)
  {
    hide Sound, WorldNext, Initial, Next;
    if i == 0 {
      InitialSound(run[0].sys);
    } else {
      WorldSound(run, i - 1);
      WorldIsSystem(run[i - 1], run[i]);
      if run[i].sys != run[i - 1].sys {
        NextSound(run[i - 1].sys, run[i].sys);
      }
    }
  }

  // --------------------------------------------------------------- the budget

  /** How long after the renewal of `l` the client wakes at the latest, after `j` failed requests in a row. */
  function Reach(l: Lease, retry: Duration, d1: Duration, d2: Duration, j: nat): Duration {
    if j == 0 then d1 + Max(Chosen(l, true, retry), MINIMUM_REFRESH)
    else Reach(l, retry, d1, d2, j - 1) + d1 + d2 + Max(Chosen(l, false, retry), MINIMUM_REFRESH)
  }

  /** What must be left of `l` when the wait is computed. The wait for a queued lease makes no allowance for the
      request. */
  predicate RoomFor(l: Lease, remaining: Duration, chosen: Duration, d2: Duration) {
    if l.status == Active then Room(remaining, chosen, d2) else Max(chosen, MINIMUM_REFRESH) + d2 <= remaining
  }

  /** The duration of `l` leaves room for its renewal, and for another try after each of `n` failures in a row. */
  ghost predicate Affords(l: Lease, retry: Duration, d1: Duration, d2: Duration, n: nat) {
    && RoomFor(l, l.duration - d1, Chosen(l, true, retry), d2)
    && forall j: nat :: j < n ==>
         RoomFor(l, l.duration - Reach(l, retry, d1, d2, j) - d1 - d2, Chosen(l, false, retry), d2)
  }

  /** What a duration has to afford when no failure is to be made good: the cadence and the delays; or, for an active
      lease, if requests take eight tenths of a second at most, no more than a second and the delays. */
  lemma AffordsMeans(l: Lease, retry: Duration, d1: Duration, d2: Duration)
    ensures Affords(l, retry, d1, d2, 0) <==>
            || (l.status == Active && 1_000_000_000 + d1 + d2 <= l.duration && d2 <= 800_000_000)
            || Cadence(l) + d1 + d2 <= l.duration
  {
    EffectiveRefreshMeans(l);
  }

  lemma RoomForMore(l: Lease, a: Duration, b: Duration, chosen: Duration, d2: Duration)
    requires RoomFor(l, a, chosen, d2) && a <= b
    ensures RoomFor(l, b, chosen, d2)
  {
  }

  /** The delays of the client and of the network: a request is committed, or known to have failed, at most `d2`
      after the timer went off, a response arrives at most `d1` after the renewal; and at most `n` fail in a row. */
  ghost predicate Timely(w: World, d1: Duration, d2: Duration, n: nat) {
    && w.client.failures <= n
    && match w.client.phase
       case Waiting(wake) => w.sys.clock <= wake + d2
       case Asking(_, wake) => w.sys.clock <= wake + d2
       case Answered(ls, _) => w.sys.clock <= ls.renewed + d1
  }

  /** The leases the client is given are long enough. */
  ghost predicate LongEnough(c: Client, duration: Duration, d1: Duration, d2: Duration, n: nat) {
    && (c.state.lease.Some? ==>
          c.state.lease.value.duration == duration && Affords(c.state.lease.value, c.retry, d1, d2, n))
    && (c.phase.Answered? ==> c.phase.lease.duration == duration && Affords(c.phase.lease, c.retry, d1, d2, n))
  }

  /** What is asked of a run for the client to keep its place. Nothing here speaks of the lease that is stored. */
  ghost predicate Fair(w: World, duration: Duration, d1: Duration, d2: Duration, n: nat) {
    && Timely(w, d1, d2, n) && LongEnough(w.client, duration, d1, d2, n)
    && Undisturbed(w.sys, w.client.subject, duration)
  }

  // ------------------------------------------------------------ keeping a place

  /** The client knows of the lease `l`. */
  ghost predicate Knows(c: Client, l: Lease) {
    c.state.acquired && c.state.lease == Some(l) && Live(l) && l.subject == c.subject
  }

  /** The client will have renewed before the lease it knows of expires. */
  ghost predicate OnTime(c: Client, l: Lease, d1: Duration, d2: Duration) {
    && c.phase.wake + d2 <= l.ExpirationTime()
    && c.phase.wake <= l.renewed + Reach(l, c.retry, d1, d2, c.failures)
  }

  /** The lease stored for the client, started at `started`, is at least as new as what the client knows and as
      what is on its way to it. */
  ghost predicate Kept(w: World, l: Lease, y: Lease, started: Time, duration: Duration, d1: Duration, d2: Duration) {
    && Knows(w.client, l) && l.duration == duration && OnTime(w.client, l, d1, d2)
    && Holds(w.sys, w.client.subject, y) && y.duration == duration && y.started == started && l.renewed <= y.renewed
    && match w.client.phase
       case Waiting(_) => true
       case Asking(_, _) => true
       case Answered(ls, wake) =>
         && Live(ls) && ls.subject == w.client.subject && ls.duration == duration && ls.started == started
         && l.renewed <= ls.renewed <= y.renewed && ls.renewed <= wake + d2
  }

  /** The clock never passes the expiration of the lease that is stored. */
  lemma Punctual(w: World, l: Lease, y: Lease, started: Time, duration: Duration, d1: Duration, d2: Duration, n: nat)
    requires 0 <= d1 && 0 <= d2 && Fair(w, duration, d1, d2, n) && Kept(w, l, y, started, duration, d1, d2)
    ensures !y.Expired(w.sys.clock)
  {
    hide Reach, Undisturbed, Holds, Chosen;
  }

  /** The wait computed for a lease, when enough of it is left, ends in time for a request. */
  lemma WaitIsOnTime(state: State, l: Lease, retry: Duration, now: Time, d2: Duration, interval: Duration)
    requires 0 <= d2 && now >= ZERO_TIME && Live(l) && state.acquired && state.lease == Some(l)
    requires IsInterval(state, retry, now, interval)
    requires RoomFor(l, l.ExpirationTime() - now, Chosen(l, state.online, retry), d2)
    ensures now + interval + d2 <= l.ExpirationTime()
    ensures interval <= Max(Chosen(l, state.online, retry), MINIMUM_REFRESH)
  {
    hide Chosen;
    if l.status == Active {
      InTimeExactly(l, Chosen(l, state.online, retry), now, d2);
    }
  }

  lemma ElsewhereKeeps(a: World, b: World, l: Lease, y: Lease, started: Time,
                       duration: Duration, d1: Duration, d2: Duration, n: nat) returns (z: Lease)
    requires 0 <= d1 && 0 <= d2 && Sound(a.sys) && Fair(a, duration, d1, d2, n)
    requires Kept(a, l, y, started, duration, d1, d2) && Next(a.sys, b.sys)
    requires b.client == a.client || (a.client.phase.Waiting? && b.client.phase.Asking?
               && b.client == a.client.(phase := Asking(b.client.phase.flight, a.client.phase.wake)))
    ensures Kept(b, l, z, started, duration, d1, d2) && (y.status == Active ==> z.status == Active)
  {
    hide Sound, Next, Reach, Timely, LongEnough, Holds, Undisturbed;
    Punctual(a, l, y, started, duration, d1, d2, n);
    HoldsSubject(a.sys, a.client.subject, y);
    z := NextContinues(a.sys, b.sys, a.client.subject, y, duration);
  }

  lemma HoldsSubject(sys: System, subject: Subject, y: Lease)
    requires Holds(sys, subject, y)
    ensures y.subject == subject
  {
  }

  /** What a commit of the client's own request stores: the lease sent back, since the old start, renewed no earlier. */
  lemma CommitsRenew(a: World, b: World, store: Store, ls: Lease, y: Lease)
    requires Sound(a.sys) && Commits(a, b, store, ls)
    requires Holds(a.sys, a.client.subject, y) && !y.Expired(a.sys.clock)
    ensures var f := a.sys.flights[a.client.phase.flight];
            && ls == Issue(f.pol, a.client.subject, a.client.props, f.stage.now, ls.status, y.started)
            && Live(ls) && (y.status == Active ==> ls.status == Active)
            && y.renewed <= f.stage.now <= a.sys.clock
            && ls in b.sys.store.Leases(a.client.subject.resource)
  {
    hide Step, Sequential, Stored, Acquires, StoreCommits, ReplaysTo, Sorted, LastTime, Issue, RenewedBy;
    var subject, props := a.client.subject, a.client.props;
    var c := a.client.phase.flight;
    var f := a.sys.flights[c];
    assert FlightSound(a.sys, f);
    SequentialStored(a.sys.history, f.resource, a.sys.store.Leases(f.resource));
    AcquireWrites(f.pol, subject, props, f.stage.now, f.base, f.stage.leases, f.stage.ops, ls);
    ReadyReplays(a.sys, f);
    CommitMeans(a.sys.store, f.resource, f.revision, f.stage.ops, f.stage.leases, store, true);
    HeldRenewed(a.sys, f.resource);
    RenewedIn(a.sys.store.Leases(f.resource), y, LastTime(a.sys.history, f.resource));
    StillUnexpired(y, f.stage.now, a.sys.clock);
    LiveRenewed(f.pol, subject, props, f.stage.now, f.base, f.stage.leases, f.stage.ops, ls, y);
    SameElements(store.Leases(f.resource), f.stage.leases, ls);
  }

  lemma StillUnexpired(y: Lease, now: Time, clock: Time)
    requires now <= clock && !y.Expired(clock)
    ensures !y.Expired(now)
  {
  }

  lemma RenewedIn(s: seq<Lease>, y: Lease, bound: Time)
    requires RenewedBy(s, bound) && y in s
    ensures y.renewed <= bound
  {
  }

  lemma {:induction false} ReplacingLogs(subject: Subject, ls: Lease, u: seq<Lease>, x: Lease)
    requires x in u && x.subject == subject
    ensures Run(Replacing(subject, ls), (), u).ops != []
  {
    var n := |u| - 1;
    if x in u[..n] {
      ReplacingLogs(subject, ls, u[..n], x);
    } else {
      assert u == u[..n] + [u[n]];
    }
  }

  /** An acquire always has something to write. */
  lemma AcquireWrites(pol: Policy, subject: Subject, props: map<string, string>, now: Time,
                      s: seq<Lease>, t: seq<Lease>, ops: seq<Op>, ls: Lease)
    requires Acquires(pol, subject, props, now, s, t, ops, ls)
    ensures ops != []
  {
    hide Refreshes, Run, IsSortOf, Replacing, FirstIndex, Replaceable, Ledger.Total, CanActivate, Usable,
         Subject.HostUser;
    var u, ops1, led, ops2 :| AcquiresVia(pol, subject, props, now, s, u, ops1, led, t, ops2, ls) && ops == ops1 + ops2;
    match Decide(pol, subject, props, now, u, led)
    case Renewal(_) =>
      ReplacingLogs(ls.subject, ls, u, u[FirstIndex(u, subject)]);
    case Takeover(slot, _) =>
      TakeoverSlot(pol, subject, props, now, u, led);
      SlotOfConsumer(u, subject, slot);
      ReplacingLogs(slot.subject, ls, u, slot);
    case Creation(_) =>
  }

  lemma CommitsKeeps(a: World, b: World, store: Store, ls: Lease, l: Lease, y: Lease, started: Time,
                     duration: Duration, d1: Duration, d2: Duration, n: nat)
    requires 0 <= d1 && 0 <= d2 && Sound(a.sys) && Fair(a, duration, d1, d2, n)
    requires Kept(a, l, y, started, duration, d1, d2) && Commits(a, b, store, ls)
    ensures Kept(b, l, ls, started, duration, d1, d2) && (y.status == Active ==> ls.status == Active)
  {
    hide Sound, Reach, LongEnough, Acquires, StoreCommits, Usable;
    Punctual(a, l, y, started, duration, d1, d2, n);
    CommitsRenew(a, b, store, ls, y);
  }

  /** The client learns of the lease it was sent, and has enough of it left. */
  lemma ReceivesKeeps(a: World, b: World, all: seq<Lease>, interval: Duration, y: Lease, started: Time,
                      duration: Duration, d1: Duration, d2: Duration, n: nat)
    requires 0 <= d1 && 0 <= d2 && Fair(a, duration, d1, d2, n) && Receives(a, b, all, interval)
    requires Holds(a.sys, a.client.subject, y) && y.duration == duration && y.started == started
    requires var l := a.client.phase.lease; Live(l) && l.subject == a.client.subject && l.renewed <= y.renewed
    requires a.sys.clock > ZERO_TIME
    ensures Kept(b, a.client.phase.lease, y, started, duration, d1, d2)
  {
    hide Undisturbed, Chosen, IsInterval, Holds, RoomFor;
    var l := a.client.phase.lease;
    var chosen := Chosen(l, true, a.client.retry);
    RoomForMore(l, l.duration - d1, l.ExpirationTime() - a.sys.clock, chosen, d2);
    WaitIsOnTime(b.client.state, l, a.client.retry, a.sys.clock, d2, interval);
  }

  /** After a failure the client still knows of its lease, and has enough of it left for another try. */
  lemma FailsKeeps(a: World, b: World, reason: string, interval: Duration, l: Lease, y: Lease, z: Lease, started: Time,
                   duration: Duration, d1: Duration, d2: Duration, n: nat)
    requires 0 <= d1 && 0 <= d2 && Fair(a, duration, d1, d2, n) && b.client.failures <= n
    requires Kept(a, l, y, started, duration, d1, d2) && Fails(a, b, reason, interval)
    requires Holds(b.sys, b.client.subject, z) && Continues(y, z, duration) && a.sys.clock > ZERO_TIME
    ensures Kept(b, l, z, started, duration, d1, d2)
  {
    hide Undisturbed, Chosen, IsInterval, Holds, Abandons, Reach, RoomFor;
    var j := a.client.failures;
    var chosen := Chosen(l, false, a.client.retry);
    var reach := Reach(l, a.client.retry, d1, d2, j);
    assert a.sys.clock <= a.client.phase.wake + d1 + d2;
    assert RoomFor(l, l.duration - reach - d1 - d2, chosen, d2);
    RoomForMore(l, l.duration - reach - d1 - d2, l.ExpirationTime() - a.sys.clock, chosen, d2);
    WaitIsOnTime(b.client.state, l, a.client.retry, a.sys.clock, d2, interval);
    ReachMore(l, a.client.retry, d1, d2, j);
  }

  lemma ReachMore(l: Lease, retry: Duration, d1: Duration, d2: Duration, j: nat)
    ensures Reach(l, retry, d1, d2, j + 1) ==
            Reach(l, retry, d1, d2, j) + d1 + d2 + Max(Chosen(l, false, retry), MINIMUM_REFRESH)
  {
  }

  lemma AbandonsKeeps(a: World, b: World, reason: string, interval: Duration, y: Lease, duration: Duration)
    returns (z: Lease)
    requires Sound(a.sys) && Fails(a, b, reason, interval) && Undisturbed(a.sys, a.client.subject, duration)
    requires Holds(a.sys, a.client.subject, y) && !y.Expired(a.sys.clock)
    ensures Holds(b.sys, b.client.subject, z) && Continues(y, z, duration)
  {
    hide Sound, Abandons, IsInterval, Holds, Undisturbed;
    HoldsSubject(a.sys, a.client.subject, y);
    z := y;
    if b.sys != a.sys {
      assert Next(a.sys, b.sys) by {
        assert Abandons(a.sys, b.sys, a.client.phase.flight);
      }
      z := NextContinues(a.sys, b.sys, a.client.subject, y, duration);
    } else {
      HoldsLive(a.sys, a.client.subject, y);
    }
  }

  lemma HoldsLive(sys: System, subject: Subject, y: Lease)
    requires Holds(sys, subject, y)
    ensures Live(y)
  {
  }

  lemma WorldKeeps(a: World, b: World, l: Lease, y: Lease, started: Time,
                   duration: Duration, d1: Duration, d2: Duration, n: nat) returns (m: Lease, z: Lease)
    requires 0 <= d1 && 0 <= d2 && Sound(a.sys) && WorldNext(a, b)
    requires Fair(a, duration, d1, d2, n) && b.client.failures <= n
    requires Kept(a, l, y, started, duration, d1, d2)
    ensures Kept(b, m, z, started, duration, d1, d2) && (y.status == Active ==> z.status == Active)
  {
    hide Kept, Next, Fair, Commits, Receives, Fails, Begins, FlightSound, Sequential, LastTime;
    assert a.sys.clock > ZERO_TIME;
    hide Sound;
    m := l;
    if Elsewhere(a, b) {
      z := ElsewhereKeeps(a, b, l, y, started, duration, d1, d2, n);
    } else if c, f :| Asks(a, b, c, f) {
      BeginsNext(a.sys, b.sys, c, f);
      z := ElsewhereKeeps(a, b, l, y, started, duration, d1, d2, n);
    } else if store, ls :| Commits(a, b, store, ls) {
      CommitsKeeps(a, b, store, ls, l, y, started, duration, d1, d2, n);
      z := ls;
    } else if all, interval :| Receives(a, b, all, interval) {
      KeptParts(a, l, y, started, duration, d1, d2);
      AnsweredParts(a, b, all, interval, l, y, started, duration, d1, d2);
      ReceivesKeeps(a, b, all, interval, y, started, duration, d1, d2, n);
      m, z := a.client.phase.lease, y;
    } else {
      var reason, interval :| Fails(a, b, reason, interval);
      KeptParts(a, l, y, started, duration, d1, d2);
      FairParts(a, duration, d1, d2, n);
      Punctual(a, l, y, started, duration, d1, d2, n);
      z := AbandonsKeeps(a, b, reason, interval, y, duration);
      FailsKeeps(a, b, reason, interval, l, y, z, started, duration, d1, d2, n);
    }
  }

  lemma BeginsNext(a: System, b: System, c: nat, f: Flight)
    requires Begins(a, b, c, f)
    ensures Next(a, b)
  {
    hide Begins;
  }

  lemma KeptParts(w: World, l: Lease, y: Lease, started: Time, duration: Duration, d1: Duration, d2: Duration)
    requires Kept(w, l, y, started, duration, d1, d2)
    ensures Holds(w.sys, w.client.subject, y) && y.duration == duration && y.started == started
  {
    hide Reach;
  }

  lemma FairParts(w: World, duration: Duration, d1: Duration, d2: Duration, n: nat)
    requires Fair(w, duration, d1, d2, n)
    ensures Undisturbed(w.sys, w.client.subject, duration)
  {
    hide Timely, LongEnough, Undisturbed;
  }

  lemma AnsweredParts(a: World, b: World, all: seq<Lease>, interval: Duration,
                      l: Lease, y: Lease, started: Time, duration: Duration, d1: Duration, d2: Duration)
    requires Kept(a, l, y, started, duration, d1, d2) && Receives(a, b, all, interval)
    ensures a.client.phase.Answered?
    ensures var m := a.client.phase.lease;
            Live(m) && m.subject == a.client.subject && m.renewed <= y.renewed
  {
    hide Reach, IsInterval;
  }

  lemma {:induction false} KeptOn(run: seq<World>, i: nat, j: nat, l: Lease, y: Lease, started: Time,
                                  duration: Duration, d1: Duration, d2: Duration, n: nat) returns (m: Lease, z: Lease)
    requires WorldBehavior(run) && i <= j < |run| && 0 <= d1 && 0 <= d2
    requires forall k :: i <= k <= j ==> Fair(run[k], duration, d1, d2, n)
    requires Kept(run[i], l, y, started, duration, d1, d2)
    ensures Kept(run[j], m, z, started, duration, d1, d2) && (y.status == Active ==> z.status == Active)
  {
    hide Sound, WorldNext, WorldInitial, Kept, Timely, LongEnough, Undisturbed;
    if i == j {
      m, z := l, y;
    } else {
      var x, w := KeptOn(run, i, j - 1, l, y, started, duration, d1, d2, n);
      WorldSound(run, j - 1);
      assert Fair(run[j - 1], duration, d1, d2, n) && Fair(run[j], duration, d1, d2, n);
      FewFailures(run[j], duration, d1, d2, n);
      m, z := WorldKeeps(run[j - 1], run[j], x, w, started, duration, d1, d2, n);
    }
  }

  lemma FewFailures(w: World, duration: Duration, d1: Duration, d2: Duration, n: nat)
    requires Fair(w, duration, d1, d2, n)
    ensures w.client.failures <= n
  {
  }

  lemma ClockRuns(sys: System)
    requires Sound(sys)
    ensures sys.clock > ZERO_TIME
  {
    hide FlightSound, Sequential, LastTime;
  }

  lemma FirstKept(run: seq<World>, i: nat, all: seq<Lease>, interval: Duration, x: Lease,
                  duration: Duration, d1: Duration, d2: Duration, n: nat)
    requires WorldBehavior(run) && 0 < i < |run| && 0 <= d1 && 0 <= d2
    requires Receives(run[i - 1], run[i], all, interval) && run[i - 1].client.phase.lease == x
    requires Holds(run[i].sys, run[i].client.subject, x) && Fair(run[i - 1], duration, d1, d2, n)
    ensures Kept(run[i], x, x, x.started, duration, d1, d2)
  {
    hide Sound, WorldNext, WorldInitial, Kept, Timely, Undisturbed, Holds, IsInterval;
    var a := run[i - 1];
    WorldSound(run, i - 1);
    ClockRuns(a.sys);
    HoldsSubject(a.sys, a.client.subject, x);
    HoldsLive(a.sys, a.client.subject, x);
    ReceivesKeeps(a, run[i], all, interval, x, x.started, duration, d1, d2, n);
  }

  /** A client that has been told of a lease which is stored, active or queued, and that waits as `Interval` says, keeps
      its place in every later state of every run: it has a lease, active or queued, since the same start and not run
      out, whatever the others do and even when requests fail, responses are lost or lost requests are committed late:
      provided that its delays are bounded, no more than `n` requests fail in a row, and the durations it is given
      afford that. */
  lemma ClientKeepsPlace(run: seq<World>, i: nat, j: nat, all: seq<Lease>, interval: Duration, x: Lease,
                         duration: Duration, d1: Duration, d2: Duration, n: nat) returns (z: Lease)
    requires WorldBehavior(run) && 0 < i <= j < |run| && 0 <= d1 && 0 <= d2
    requires Receives(run[i - 1], run[i], all, interval) && run[i - 1].client.phase.lease == x
    requires Holds(run[i].sys, run[i].client.subject, x)
    requires forall k :: i - 1 <= k <= j ==> Fair(run[k], duration, d1, d2, n)
    ensures Holds(run[j].sys, run[j].client.subject, z) && z.started == x.started
    ensures run[j].sys.clock <= z.renewed + z.duration
    ensures x.status == Active ==> z.status == Active
  {
    hide Sound, WorldNext, WorldInitial, Kept, Timely, LongEnough, Undisturbed, Holds, IsInterval, Receives;
    assert Fair(run[i - 1], duration, d1, d2, n) && Fair(run[j], duration, d1, d2, n);
    FirstKept(run, i, all, interval, x, duration, d1, d2, n);
    var m, y := KeptOn(run, i, j, x, x, x.started, duration, d1, d2, n);
    KeptParts(run[j], m, y, x.started, duration, d1, d2);
    Punctual(run[j], m, y, x.started, duration, d1, d2, n);
    z := y;
  }

  /** Once it is active it stays active. */
  lemma ClientStaysActive(run: seq<World>, i: nat, k: nat, j: nat, all: seq<Lease>, interval: Duration,
                          x: Lease, w: Lease,
                          duration: Duration, d1: Duration, d2: Duration, n: nat) returns (z: Lease)
    requires WorldBehavior(run) && 0 < i <= k <= j < |run| && 0 <= d1 && 0 <= d2
    requires Receives(run[i - 1], run[i], all, interval) && run[i - 1].client.phase.lease == x
    requires Holds(run[i].sys, run[i].client.subject, x)
    requires forall h :: i - 1 <= h <= j ==> Fair(run[h], duration, d1, d2, n)
    requires Holds(run[k].sys, run[k].client.subject, w) && w.status == Active
    ensures Holds(run[j].sys, run[j].client.subject, z) && z.status == Active && z.started == x.started
    ensures run[j].sys.clock <= z.renewed + z.duration
  {
    hide Sound, WorldNext, WorldInitial, Kept, Timely, LongEnough, Undisturbed, IsInterval, Receives, Holds, Live;
    assert Fair(run[i - 1], duration, d1, d2, n) && Fair(run[j], duration, d1, d2, n);
    FirstKept(run, i, all, interval, x, duration, d1, d2, n);
    var l, y := KeptOn(run, i, k, x, x, x.started, duration, d1, d2, n);
    KeptParts(run[k], l, y, x.started, duration, d1, d2);
    WorldSound(run, k);
    OneHeld(run[k].sys, run[k].client.subject, y, w);
    var m, v := KeptOn(run, k, j, l, y, x.started, duration, d1, d2, n);
    KeptParts(run[j], m, v, x.started, duration, d1, d2);
    Punctual(run[j], m, v, x.started, duration, d1, d2, n);
    z := v;
  }

  lemma OneHeld(sys: System, subject: Subject, y: Lease, w: Lease)
    requires Sound(sys) && Holds(sys, subject, y) && Holds(sys, subject, w)
    ensures y == w
  {
    hide Sound, Unique, Sorted, Lease.WellFormed;
    SoundStored(sys, subject.resource);
    UniqueMember(sys.store.Leases(subject.resource), y, w);
  }
}
