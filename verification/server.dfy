/** The guardian's retry loops, with other requests free to write between a view and its commit. */
module Servers {
  import opened Leases
  import opened LeaseSets
  import opened Transactions
  import opened OneEdits
  import opened Accumulators
  import opened RefreshLaws
  import opened Fates
  import opened Replays
  import opened Refreshing
  import opened Guardian
  import opened GuardianLaws
  import opened GuardianService
  import opened Providers
  import opened Systems

  /** Anything the other requests can do to the pages: a page that changes gets a new revision. */
  ghost predicate Evolves(before: map<string, Page>, after: map<string, Page>) {
    forall r ::
      && PageOf(after, r).revision >= PageOf(before, r).revision
      && (PageOf(after, r).revision == PageOf(before, r).revision ==> PageOf(after, r) == PageOf(before, r))
  }

  ghost predicate AllStored(pages: map<string, Page>) {
    forall r :: Stored(r, PageOf(pages, r).leases)
  }

  /** What the others do during each try, and the clock each try reads. */
  datatype World = World(rivals: (nat, map<string, Page>) -> map<string, Page>, clock: nat -> Time)
  {
    ghost predicate Fair() {
      && (forall k, pages :: Evolves(pages, rivals(k, pages)))
      && (forall k, pages :: AllStored(pages) ==> AllStored(rivals(k, pages)))
      && (forall k :: clock(k) > ZERO_TIME)
    }
  }

  /** One try: the pages it viewed, and the pages just before its commit. */
  datatype Try = Try(viewed: map<string, Page>, before: map<string, Page>)

  /** Somebody else wrote to the resource while the try was under way. */
  predicate Contended(t: Try, resource: string) {
    PageOf(t.before, resource).revision != PageOf(t.viewed, resource).revision
  }

  /** Five tries, all of them contended. */
  ghost predicate Defeated(tries: seq<Try>, resource: string) {
    |tries| == 5 && forall k :: 0 <= k < 5 ==> Contended(tries[k], resource)
  }

  /** The check in acquire fails on what the try viewed. */
  ghost predicate CrashesOn(pol: Policy, subject: Subject, props: map<string, string>, t: Try, now: Time) {
    AcquirePanics(pol, subject, props, now, PageOf(t.viewed, subject.resource).leases)
  }

  /** The last of at most five tries committed, on the pages `before`. */
  ghost predicate Ends(tries: seq<Try>, before: map<string, Page>) {
    1 <= |tries| <= 5 && tries[|tries| - 1].before == before
  }

  /** The pages the others left before try `k`. */
  function Left(start: map<string, Page>, tries: seq<Try>, k: nat): map<string, Page>
    requires k <= |tries|
  {
    if k == 0 then start else tries[k - 1].before
  }

  /** The tries follow on from the pages `start`: each views what the one before it left, and the others then do what
      they do during it. */
  ghost predicate Follow(world: World, start: map<string, Page>, tries: seq<Try>) {
    forall k :: 0 <= k < |tries| ==>
      && SamePages(tries[k].viewed, Left(start, tries, k))
      && tries[k].before == world.rivals(k, tries[k].viewed)
  }

  lemma FollowNone(world: World, start: map<string, Page>)
    ensures Follow(world, start, [])
  {
  }

  lemma FollowMore(world: World, start: map<string, Page>, tries: seq<Try>, viewed: map<string, Page>)
    requires Follow(world, start, tries)
    requires SamePages(viewed, Left(start, tries, |tries|))
    ensures Follow(world, start, tries + [Try(viewed, world.rivals(|tries|, viewed))])
  {
    hide SamePages;
    var more := tries + [Try(viewed, world.rivals(|tries|, viewed))];
    forall k | 0 <= k < |more|
      ensures SamePages(more[k].viewed, Left(start, more, k)) && more[k].before == world.rivals(k, more[k].viewed)
    {
      assert Left(start, more, k) == Left(start, tries, k);
      if k < |tries| {
        assert more[k] == tries[k];
      }
    }
  }

  lemma SameThrough(a: map<string, Page>, b: map<string, Page>, c: map<string, Page>)
    requires SamePages(a, b) && SamePages(b, c)
    ensures SamePages(a, c)
  {
  }

  /** The clock that the last try read. */
  function LastClock(world: World, tries: seq<Try>): Time
    requires tries != []
  {
    world.clock(|tries| - 1)
  }

  datatype Result = Acquired(ls: Lease) | Conflict | Crashed

  /** A try that was committed, or had nothing to write, was one whole step from the leases stored just
      before its commit; a try that was refused changed nothing. */
  lemma CommittedStep(pol: Policy, req: Request, now: Time, resource: string, revision: nat, base: seq<Lease>,
                      t: seq<Lease>, ops: seq<Op>, before: map<string, Page>, after: map<string, Page>, ok: bool)
    requires now > ZERO_TIME && Concerns(req, resource) && Stored(resource, base)
    requires Step(pol, req, now, base, t, ops)
    requires PageOf(before, resource).revision == revision ==> PageOf(before, resource).leases == base
    requires StoreCommits(Mem(before), resource, revision, ops, t, Mem(after), ok)
    ensures ok && ops != [] ==>
              Step(pol, req, now, PageOf(before, resource).leases, PageOf(after, resource).leases, ops)
    ensures !ok || ops == [] ==> SamePages(before, after)
    ensures forall r :: r != resource ==> PageOf(after, r) == PageOf(before, r)
    ensures !ok ==> PageOf(before, resource).revision != revision
  {
    hide Step, Stored, ReplaysTo, Replay, IsSortOf;
    StepLogs(pol, req, now, resource, base, t, ops);
    StepSorted(pol, req, now, base, t, ops);
    CommitMeans(Mem(before), resource, revision, ops, t, Mem(after), ok);
    if ok && ops != [] {
      StepResorted(pol, req, now, base, t, ops, PageOf(after, resource).leases);
    }
  }

  class Server {
    const provider: MemProvider

    constructor (provider: MemProvider)
      ensures this.provider == provider
    {
      this.provider := provider;
    }

    /** Acquire, up to five tries. When it succeeds, its commit was one whole step from the leases stored just
        before (`before`); when it conflicts, all five tries were refused and the store holds what the others
        made of it. */
    method Acquire(subject: Subject, props: map<string, string>, pol: Policy, world: World)
      returns (result: Result, ghost before: map<string, Page>, ghost tries: seq<Try>)
      requires Proper(pol) && world.Fair() && AllStored(provider.pages)
      modifies provider
      ensures result.Acquired? ==>
                && Ends(tries, before)
                && (exists ops :: Acquires(pol, subject, props, LastClock(world, tries),
                                           PageOf(before, subject.resource).leases,
                                           PageOf(provider.pages, subject.resource).leases, ops, result.ls))
                && result.ls in PageOf(provider.pages, subject.resource).leases
                && forall r :: r != subject.resource ==> PageOf(provider.pages, r) == PageOf(before, r)
      ensures Follow(world, old(provider.pages), tries)
      ensures !result.Acquired? ==> SamePages(provider.pages, before)
      ensures result.Conflict? ==> Defeated(tries, subject.resource)
      ensures result.Crashed? ==>
                tries != [] && CrashesOn(pol, subject, props, tries[|tries| - 1], LastClock(world, tries))
    {
      hide Stored, Acquires, StoreCommits, Evolves, AcquirePanics, Follow;
      ghost var start := provider.pages;
      before, tries := start, [];
      FollowNone(world, start);
      var resource := subject.resource;
      for attempt := 0 to MAX_TRIES
        invariant AllStored(provider.pages) && before == provider.pages && Follow(world, start, tries)
        invariant SamePages(provider.pages, Left(start, tries, |tries|))
        invariant |tries| == attempt && forall k :: 0 <= k < attempt ==> Contended(tries[k], resource)
      {
        var revision, leases := provider.LeaseView(resource);
        ghost var viewed := provider.pages;
        SameThrough(viewed, before, Left(start, tries, |tries|));
        FollowMore(world, start, tries, viewed);
        provider.pages := world.rivals(attempt, provider.pages);
        before := provider.pages;
        assert Evolves(viewed, before);
        tries := tries + [Try(viewed, before)];
        var now := world.clock(attempt);
        var tx := new Tx(resource, revision, leases);
        var ls := AttemptAcquire(tx, subject, props, pol, now);
        if ls.None? {
          assert AcquirePanics(pol, subject, props, now, leases);
          return Crashed, before, tries;
        }
        var ok := provider.LeaseCommit(tx);
        AcquireCommitted(pol, subject, props, now, revision, leases, tx.leases, tx.ops, ls.value,
                         viewed, before, provider.pages, ok);
        if ok {
          assert LastClock(world, tries) == now;
          assert Acquires(pol, subject, props, now, PageOf(before, resource).leases,
                          PageOf(provider.pages, resource).leases, tx.ops, ls.value);
          return Acquired(ls.value), before, tries;
        }
        before := provider.pages;
      }
      result := Conflict;
    }

    /** Release, up to five tries. When it succeeds it was one whole step, with something to write, from the leases
        stored just before its commit; or it found nothing to write for what it viewed. Unless others have written
        since it viewed, the subject then has no lease on the page but a released one. */
    method Release(subject: Subject, pol: Policy, world: World)
      returns (ok: bool, ghost before: map<string, Page>, ghost tries: seq<Try>)
      requires world.Fair() && AllStored(provider.pages)
      modifies provider
      ensures Follow(world, old(provider.pages), tries)
      ensures !ok ==> SamePages(provider.pages, before) && Defeated(tries, subject.resource)
      ensures ok ==>
                && Ends(tries, before)
                && Concludes(pol, Request.Release(subject), LastClock(world, tries), subject.resource,
                             tries[|tries| - 1], provider.pages)
      ensures ok && !Contended(tries[|tries| - 1], subject.resource) ==>
                OnlyReleased(subject, PageOf(provider.pages, subject.resource).leases)
    {
      hide Stored, Step, StoreCommits, Evolves, Releases, Follow, OnlyReleased;
      ghost var start := provider.pages;
      before, tries := start, [];
      FollowNone(world, start);
      for attempt := 0 to MAX_TRIES
        invariant AllStored(provider.pages) && before == provider.pages && Follow(world, start, tries)
        invariant SamePages(provider.pages, Left(start, tries, |tries|))
        invariant |tries| == attempt && forall k :: 0 <= k < attempt ==> Contended(tries[k], subject.resource)
      {
        var revision, leases := provider.LeaseView(subject.resource);
        ghost var viewed := provider.pages;
        SameThrough(viewed, before, Left(start, tries, |tries|));
        FollowMore(world, start, tries, viewed);
        provider.pages := world.rivals(attempt, provider.pages);
        before := provider.pages;
        assert Evolves(viewed, before);
        tries := tries + [Try(viewed, before)];
        var now := world.clock(attempt);
        var tx := new Tx(subject.resource, revision, leases);
        AttemptRelease(tx, subject, now);
        ReleaseIsStep(pol, subject, now, leases, tx.leases, tx.ops);
        ViewedStill(viewed, before, subject.resource, revision, leases);
        if tx.ops == [] {
          FoundNothing(pol, Request.Release(subject), now, subject.resource, Try(viewed, before), tx.leases,
                       provider.pages);
          return true, before, tries;
        }
        ok := provider.LeaseCommit(tx);
        CommittedStep(pol, Request.Release(subject), now, subject.resource, revision, leases, tx.leases, tx.ops,
                      before, provider.pages, ok);
        if ok {
          Wrote(pol, Request.Release(subject), now, subject.resource, Try(viewed, before), provider.pages, tx.ops);
          return true, before, tries;
        }
        before := provider.pages;
      }
      ok := false;
    }

    /** Purge of one resource, up to five tries; the code goes through all resources like this. Unless others have
        written since it viewed, nothing on the page has run out or decayed when it succeeds. */
    method Purge(resource: string, pol: Policy, world: World)
      returns (ok: bool, ghost before: map<string, Page>, ghost tries: seq<Try>)
      requires world.Fair() && AllStored(provider.pages)
      modifies provider
      ensures Follow(world, old(provider.pages), tries)
      ensures !ok ==> SamePages(provider.pages, before) && Defeated(tries, resource)
      ensures ok ==>
                Ends(tries, before) && Concludes(pol, Request.Purge, LastClock(world, tries), resource,
                                                 tries[|tries| - 1], provider.pages)
      ensures ok && !Contended(tries[|tries| - 1], resource) ==>
                NothingStale(LastClock(world, tries), PageOf(provider.pages, resource).leases)
    {
      hide Stored, Step, StoreCommits, Evolves, Refreshes, Follow, NothingStale;
      ghost var start := provider.pages;
      before, tries := start, [];
      FollowNone(world, start);
      for attempt := 0 to MAX_TRIES
        invariant AllStored(provider.pages) && before == provider.pages && Follow(world, start, tries)
        invariant SamePages(provider.pages, Left(start, tries, |tries|))
        invariant |tries| == attempt && forall k :: 0 <= k < attempt ==> Contended(tries[k], resource)
      {
        var revision, leases := provider.LeaseView(resource);
        ghost var viewed := provider.pages;
        SameThrough(viewed, before, Left(start, tries, |tries|));
        FollowMore(world, start, tries, viewed);
        provider.pages := world.rivals(attempt, provider.pages);
        before := provider.pages;
        assert Evolves(viewed, before);
        tries := tries + [Try(viewed, before)];
        var now := world.clock(attempt);
        var tx := new Tx(resource, revision, leases);
        AttemptPurge(tx, now);
        PurgeIsStep(pol, now, leases, tx.leases, tx.ops);
        ViewedStill(viewed, before, resource, revision, leases);
        if tx.ops == [] {
          FoundNothing(pol, Request.Purge, now, resource, Try(viewed, before), tx.leases, provider.pages);
          return true, before, tries;
        }
        ok := provider.LeaseCommit(tx);
        CommittedStep(pol, Request.Purge, now, resource, revision, leases, tx.leases, tx.ops,
                      before, provider.pages, ok);
        if ok {
          Wrote(pol, Request.Purge, now, resource, Try(viewed, before), provider.pages, tx.ops);
          return true, before, tries;
        }
        before := provider.pages;
      }
      ok := false;
    }
  }

  /** One whole step on the resource, with something to write, and nothing else. */
  ghost predicate WholeStep(pol: Policy, req: Request, now: Time, resource: string,
                            before: map<string, Page>, after: map<string, Page>) {
    && (exists ops ::
          ops != [] && Step(pol, req, now, PageOf(before, resource).leases, PageOf(after, resource).leases, ops))
    && forall r :: r != resource ==> PageOf(after, r) == PageOf(before, r)
  }

  /** The request had nothing to write for the leases `s`. */
  ghost predicate NothingToWrite(pol: Policy, req: Request, now: Time, s: seq<Lease>) {
    exists t :: Step(pol, req, now, s, t, [])
  }

  /** How a try ends that succeeds: with a commit, or with nothing to write for what it viewed. */
  ghost predicate Concludes(pol: Policy, req: Request, now: Time, resource: string, t: Try, after: map<string, Page>) {
    || WholeStep(pol, req, now, resource, t.before, after)
    || (NothingToWrite(pol, req, now, PageOf(t.viewed, resource).leases) && SamePages(after, t.before))
  }

  /** The subject has no lease but a released one. */
  ghost predicate OnlyReleased(subject: Subject, s: seq<Lease>) {
    forall y :: y in s && y.subject == subject ==> y.status == Released
  }

  /** No lease has run out, and no slot has decayed. */
  ghost predicate NothingStale(now: Time, s: seq<Lease>) {
    forall y :: y in s ==>
                  && (y.status == Active || y.status == Queued ==> now <= y.renewed + y.duration)
                  && (y.status == Released ==> now <= y.released + y.decay)
  }

  /** What a request leaves behind, whatever it found. */
  ghost predicate Leaves(req: Request, now: Time, s: seq<Lease>) {
    match req
    case Acquire(_, _) => true
    case Release(subject) => OnlyReleased(subject, s)
    case Purge => NothingStale(now, s)
  }

  lemma RefreshNotStale(s: seq<Lease>, now: Time, t: seq<Lease>, ops: seq<Op>, led: Ledger)
    requires AllWellFormed(s) && Refreshes(s, now, t, ops, led)
    ensures NothingStale(now, t)
  {
    hide Refreshes, AllWellFormed;
    forall y | y in t
      ensures y.status == Active || y.status == Queued ==> now <= y.renewed + y.duration
      ensures y.status == Released ==> now <= y.released + y.decay
    {
      var x := RefreshOnlyAges(s, now, t, ops, led, y);
    }
  }

  lemma ReleaseLeaves(subject: Subject, now: Time, s: seq<Lease>, t: seq<Lease>, ops: seq<Op>)
    requires now > ZERO_TIME && Stored(subject.resource, s) && Releases(subject, now, s, t, ops)
    ensures OnlyReleased(subject, t)
  {
    hide Refreshes, Run, Releasing, Unique, Subjects, Sorted, SwapOps, IsSortOf, Lease.WellFormed, Swaps;
    var u, ops1, led1, v, ops3, led3 :|
      && ReleasesVia(subject, now, s, u, ops1, led1, v, t, ops3, led3)
      && ops == ops1 + Run(Releasing(subject, now), (), u).ops + ops3;
    RefreshStored(subject.resource, s, now, u, ops1, led1);
    ReleaseStored(subject, now, u, v);
    var xs, ys := ReleaseSwaps(subject, now, u, v);
    ReleasedOut(u, subject, now, xs, ys, v, Run(Releasing(subject, now), (), u).ops);
    forall y | y in t && y.subject == subject ensures y.status == Released {
      var x := RefreshOnlyAges(v, now, t, ops3, led3, y);
    }
  }

  lemma ReleasedOut(u: seq<Lease>, subject: Subject, now: Time,
                    xs: seq<Lease>, ys: seq<Lease>, v: seq<Lease>, ops: seq<Op>)
    requires Unique(u) && Unique(v) && Swaps(u, xs, ys, v, ops)
    requires if subject !in Subjects(u) then xs == ys == []
             else |xs| == 1 && xs[0].subject == subject &&
                  ys == if xs[0].status.Active? then [xs[0].(status := Released, released := now)] else []
    ensures OnlyReleased(subject, v)
  {
    hide Unique, Subjects, SwapOps, Sorted;
    forall y | y in v && y.subject == subject ensures y.status == Released {
      SameElements(v + xs, u + ys, y);
      if y in ys {
        assert ys == [ys[0]];
      } else {
        var k := UniquePosition(u, y);
        PresentSubject(u, k);
        assert xs[0] in xs && xs == [xs[0]];
        UniqueMember(u, xs[0], y);
        TakenOut(u, v, y, ys, ops);
      }
    }
  }

  lemma TakenOut(u: seq<Lease>, v: seq<Lease>, y: Lease, ys: seq<Lease>, ops: seq<Op>)
    requires Unique(u) && Swaps(u, [y], ys, v, ops) && y !in ys
    ensures y !in v
  {
    hide Unique, Sorted, SwapOps;
    assert y in [y];
    OnceOnly(u, y);
    assert multiset(v + [y]) == multiset(u + ys);
    assert multiset(v + [y]) == multiset(v) + multiset{y};
    assert multiset(u + ys) == multiset(u) + multiset(ys);
    assert (multiset(v) + multiset{y})[y] == (multiset(u) + multiset(ys))[y];
    assert multiset(ys)[y] == 0;
  }

  lemma OnceOnly(u: seq<Lease>, y: Lease)
    requires Unique(u) && y in u
    ensures multiset(u)[y] == 1
  {
    hide Unique;
    var k := UniquePosition(u, y);
    var rest := u[..k] + u[k + 1..];
    assert u == u[..k] + [y] + u[k + 1..];
    assert multiset(u) == multiset(rest) + multiset{y};
    if y in rest {
      var j :| 0 <= j < |rest| && rest[j] == y;
      var i := if j < k then j else j + 1;
      assert u[i] == y;
      UniqueIndex(u, i, k);
    }
  }

  /** A step leaves what it is for, and so does one that finds nothing to write, of the set it was given. */
  lemma StepLeaves(pol: Policy, req: Request, now: Time, resource: string, s: seq<Lease>, t: seq<Lease>, ops: seq<Op>)
    requires now > ZERO_TIME && Concerns(req, resource) && Stored(resource, s) && Step(pol, req, now, s, t, ops)
    ensures Leaves(req, now, t)
    ensures ops == [] ==> Leaves(req, now, s)
  {
    hide Refreshes, Releases, Acquires, OnlyReleased, NothingStale, Stored;
    match req {
      case Acquire(subject, props) =>
      case Release(subject) =>
        ReleaseLeaves(subject, now, s, t, ops);
      case Purge =>
        var led :| Refreshes(s, now, t, ops, led);
        StoredWellFormed(resource, s);
        RefreshNotStale(s, now, t, ops, led);
    }
    if ops == [] {
      StepLogs(pol, req, now, resource, s, t, ops);
      SameBags(s, t);
      LeavesSame(req, now, t, s);
    }
  }

  lemma SameBags(s: seq<Lease>, t: seq<Lease>)
    requires Balanced(s, [], t)
    ensures multiset(s) == multiset(t)
  {
    assert Gains([]) == Losses([]) == multiset{};
    assert multiset(s) + multiset{} == multiset(s) && multiset(t) + multiset{} == multiset(t);
  }

  lemma LeavesSame(req: Request, now: Time, t: seq<Lease>, s: seq<Lease>)
    requires multiset(s) == multiset(t) && Leaves(req, now, t)
    ensures Leaves(req, now, s)
  {
    forall y ensures y in s <==> y in t {
      SameElements(s, t, y);
    }
  }

  lemma FoundNothing(pol: Policy, req: Request, now: Time, resource: string, t: Try, leases: seq<Lease>,
                     after: map<string, Page>)
    requires now > ZERO_TIME && Concerns(req, resource) && Stored(resource, PageOf(t.viewed, resource).leases)
    requires Step(pol, req, now, PageOf(t.viewed, resource).leases, leases, []) && after == t.before
    requires Evolves(t.viewed, t.before)
    ensures Concludes(pol, req, now, resource, t, after)
    ensures !Contended(t, resource) ==> Leaves(req, now, PageOf(after, resource).leases)
  {
    hide Step, Stored, Leaves;
    StepLeaves(pol, req, now, resource, PageOf(t.viewed, resource).leases, leases, []);
  }

  lemma Wrote(pol: Policy, req: Request, now: Time, resource: string, t: Try, after: map<string, Page>, ops: seq<Op>)
    requires now > ZERO_TIME && Concerns(req, resource) && Stored(resource, PageOf(t.before, resource).leases)
    requires ops != [] && Step(pol, req, now, PageOf(t.before, resource).leases, PageOf(after, resource).leases, ops)
    requires forall r :: r != resource ==> PageOf(after, r) == PageOf(t.before, r)
    ensures Concludes(pol, req, now, resource, t, after)
    ensures Leaves(req, now, PageOf(after, resource).leases)
  {
    hide Step, Stored, Leaves;
    StepLeaves(pol, req, now, resource, PageOf(t.before, resource).leases, PageOf(after, resource).leases, ops);
  }

  lemma ReleaseIsStep(pol: Policy, subject: Subject, now: Time, s: seq<Lease>, t: seq<Lease>, ops: seq<Op>)
    requires Releases(subject, now, s, t, ops)
    ensures Step(pol, Request.Release(subject), now, s, t, ops)
  {
    hide Releases;
  }

  lemma PurgeIsStep(pol: Policy, now: Time, s: seq<Lease>, t: seq<Lease>, ops: seq<Op>)
    requires exists led :: Refreshes(s, now, t, ops, led)
    ensures Step(pol, Request.Purge, now, s, t, ops)
  {
    hide Refreshes;
  }

  lemma ViewedStill(viewed: map<string, Page>, before: map<string, Page>, resource: string,
                    revision: nat, base: seq<Lease>)
    requires PageOf(viewed, resource) == Page(revision, base) && Evolves(viewed, before)
    ensures PageOf(before, resource).revision == revision ==> PageOf(before, resource).leases == base
  {
  }

  lemma AcquireCommitted(pol: Policy, subject: Subject, props: map<string, string>, now: Time,
                         revision: nat, base: seq<Lease>,
                         t: seq<Lease>, ops: seq<Op>, ls: Lease,
                         viewed: map<string, Page>, before: map<string, Page>, after: map<string, Page>, ok: bool)
    requires Proper(pol) && now > ZERO_TIME && Stored(subject.resource, base)
    requires Acquires(pol, subject, props, now, base, t, ops, ls)
    requires PageOf(viewed, subject.resource) == Page(revision, base) && Evolves(viewed, before)
    requires StoreCommits(Mem(before), subject.resource, revision, ops, t, Mem(after), ok)
    ensures if ok then
              && Acquires(pol, subject, props, now, PageOf(before, subject.resource).leases,
                          PageOf(after, subject.resource).leases, ops, ls)
              && ls in PageOf(after, subject.resource).leases
              && forall r :: r != subject.resource ==> PageOf(after, r) == PageOf(before, r)
            else SamePages(before, after) && PageOf(before, subject.resource).revision != revision
  {
    hide Stored, Acquires, ReplaysTo, Replay, Sorted;
    var resource := subject.resource;
    AcquireLogs(pol, subject, props, now, resource, base, t, ops, ls);
    AcquireLeavesOne(pol, subject, props, now, base, t, ops, ls);
    AcquireSorted(pol, subject, props, now, base, t, ops, ls);
    CommitMeans(Mem(before), resource, revision, ops, t, Mem(after), ok);
    if ok {
      AcquireResorted(pol, subject, props, now, base, t, ops, ls, PageOf(after, resource).leases);
      SameElements(PageOf(after, resource).leases, t, ls);
    }
  }
}
