/** The guardian server: what one attempt at an acquire or a release does to a transaction. */
module Guardian {
  import opened Leases
  import opened LeaseSets
  import opened Transactions
  import opened Accumulators
  import opened Refreshing

  /** What the policies that match a request say about the lease to issue. */
  datatype Policy = Policy(strategy: Strategy, limit: nat, duration: Duration, decay: Duration, refresh: RefreshRates)

  /** A refresh interval that is not shorter than the duration is overridden by the default. */
  function Usable(interval: Duration, duration: Duration): Duration {
    if interval != 0 && duration <= interval then 0 else interval
  }

  function Issue(pol: Policy, subject: Subject, props: map<string, string>, now: Time,
                 status: Status, started: Time): Lease {
    Lease(subject, props, status, started, now, ZERO_TIME, pol.strategy, pol.limit, pol.duration, pol.decay,
          RefreshRates(Usable(pol.refresh.active, pol.duration), Usable(pol.refresh.queued, pol.duration)))
  }

  /** What an acquire does once the set has been refreshed. */
  datatype Decision =
    | Renewal(ls: Lease)
    | Takeover(slot: Lease, ls: Lease)
    | Creation(ls: Lease)
    | Panic

  /** The subject's consumer's released leases, found by host and user. */
  function Replaceable(u: seq<Lease>, subject: Subject): seq<Lease> {
    Select(HasStatus(Released),
           Select(IsHostUser(subject.resource, subject.instance.host, subject.instance.user), u))
  }

  function Decide(pol: Policy, subject: Subject, props: map<string, string>, now: Time,
                  u: seq<Lease>, led: Ledger): Decision {
    var consumed, released := led.Total(pol.strategy), led.released[subject.HostUser()];
    var k := FirstIndex(u, subject);
    if k < |u| then
      if u[k].status.Released? then
        Renewal(Issue(pol, subject, props, now, if consumed <= pol.limit then Active else Queued, now))
      else
        Renewal(Issue(pol, subject, props, now, u[k].status, u[k].started))
    else if released > 0 && consumed <= pol.limit then
      var decaying := Replaceable(u, subject);
      if |decaying| != released then Panic
      else Takeover(decaying[released - 1], Issue(pol, subject, props, now, Active, now))
    else
      Creation(Issue(pol, subject, props, now,
        if CanActivate(pol.strategy, led.active[subject.HostUser()], consumed, pol.limit) then Active else Queued, now))
  }

  /** Carrying out a decision on the refreshed set `u` can leave `t` and log `ops`. */
  ghost predicate Carries(d: Decision, u: seq<Lease>, t: seq<Lease>, ops: seq<Op>) {
    match d
    case Renewal(ls) =>
      var tr := Run(Replacing(ls.subject, ls), (), u);
      ops == tr.ops && IsSortOf(t, tr.leases)
    case Takeover(slot, ls) =>
      var tr := Run(Replacing(slot.subject, ls), (), u);
      ops == tr.ops && IsSortOf(t, tr.leases)
    case Creation(ls) => ops == [CreateOp(ls)] && IsSortOf(t, u + [ls])
    case Panic => false
  }

  /** One acquire on the leases `s` at time `now` can leave `t`, log `ops` and return `ls`. */
  ghost predicate Acquires(pol: Policy, subject: Subject, props: map<string, string>, now: Time,
                           s: seq<Lease>, t: seq<Lease>, ops: seq<Op>, ls: Lease) {
    exists u, ops1, led, ops2 ::
      AcquiresVia(pol, subject, props, now, s, u, ops1, led, t, ops2, ls) && ops == ops1 + ops2
  }

  ghost predicate AcquiresVia(pol: Policy, subject: Subject, props: map<string, string>, now: Time,
                              s: seq<Lease>, u: seq<Lease>, ops1: seq<Op>, led: Ledger,
                              t: seq<Lease>, ops2: seq<Op>, ls: Lease) {
    var d := Decide(pol, subject, props, now, u, led);
    Refreshes(s, now, u, ops1, led) && d != Panic && ls == d.ls && Carries(d, u, t, ops2)
  }

  /** The check on the number of released leases fails. */
  ghost predicate AcquirePanics(pol: Policy, subject: Subject, props: map<string, string>, now: Time, s: seq<Lease>) {
    exists u, ops1, led :: Refreshes(s, now, u, ops1, led) && Decide(pol, subject, props, now, u, led) == Panic
  }

  ghost predicate ReleasesVia(subject: Subject, now: Time, s: seq<Lease>, u: seq<Lease>, ops1: seq<Op>, led1: Ledger,
                              v: seq<Lease>, t: seq<Lease>, ops3: seq<Op>, led3: Ledger) {
    && Refreshes(s, now, u, ops1, led1)
    && IsSortOf(v, Run(Releasing(subject, now), (), u).leases)
    && Refreshes(v, now, t, ops3, led3)
  }

  /** One release on the leases `s` at time `now` can leave `t` and log `ops`. */
  ghost predicate Releases(subject: Subject, now: Time, s: seq<Lease>, t: seq<Lease>, ops: seq<Op>) {
    exists u, ops1, led1, v, ops3, led3 ::
      && ReleasesVia(subject, now, s, u, ops1, led1, v, t, ops3, led3)
      && ops == ops1 + Run(Releasing(subject, now), (), u).ops + ops3
  }

  /** `Purge`, `refreshLeases` and `collectSnapshot` only refresh. */
  datatype Request = Acquire(subject: Subject, props: map<string, string>) | Release(subject: Subject) | Purge

  /** One whole run of the server's code for a request, on the leases `s` of one resource. */
  ghost predicate Step(pol: Policy, req: Request, now: Time, s: seq<Lease>, t: seq<Lease>, ops: seq<Op>) {
    match req
    case Acquire(subject, props) => exists ls :: Acquires(pol, subject, props, now, s, t, ops, ls)
    case Release(subject) => Releases(subject, now, s, t, ops)
    case Purge => exists led :: Refreshes(s, now, t, ops, led)
  }

  lemma AcquiredBy(pol: Policy, subject: Subject, props: map<string, string>, now: Time,
                   s: seq<Lease>, u: seq<Lease>, ops1: seq<Op>, led: Ledger, t: seq<Lease>, ops2: seq<Op>, ls: Lease)
    requires AcquiresVia(pol, subject, props, now, s, u, ops1, led, t, ops2, ls)
    ensures Acquires(pol, subject, props, now, s, t, ops1 + ops2, ls)
  {
    hide AcquiresVia;
  }

  /** An attempt at an acquire, up to the commit; `None` when the code panics. */
  method AttemptAcquire(tx: Tx, subject: Subject, props: map<string, string>, pol: Policy, now: Time)
    returns (r: Option<Lease>)
    requires tx.resource == subject.resource && tx.ops == []
    modifies tx
    ensures r.Some? ==> Acquires(pol, subject, props, now, old(tx.leases), tx.leases, tx.ops, r.value)
    ensures r.None? ==> AcquirePanics(pol, subject, props, now, old(tx.leases))
  {
    hide Refreshes, Decide, Carries, Acquires;
    ghost var s := tx.leases;
    var acc, ops1 := Refresh(tx, now);
    assert tx.ops == ops1;
    ghost var u, ops2 := tx.leases, [];
    r, ops2 := AcquireRefreshed(tx, acc, subject, props, pol, now);
    if r.Some? {
      AcquiredBy(pol, subject, props, now, s, u, ops1, acc.ledger, tx.leases, ops2, r.value);
    }
  }

  /** The rest of an acquire, after its refresh; `ops` is what it adds to the log. */
  method AcquireRefreshed(tx: Tx, acc: Accumulator, subject: Subject, props: map<string, string>, pol: Policy,
                          now: Time)
    returns (r: Option<Lease>, ghost ops: seq<Op>)
    requires tx.resource == subject.resource && acc.Valid()
    modifies tx
    ensures var d := Decide(pol, subject, props, now, old(tx.leases), acc.ledger);
            if r.None? then d == Panic
            else d != Panic && r.value == d.ls && Carries(d, old(tx.leases), tx.leases, ops)
                 && tx.ops == old(tx.ops) + ops
  {
    hide Ledger.Total, CanActivate, Run, IsSortOf, Subject.HostUser, Usable, Select, Replacing, Accumulator.Valid;
    ghost var u := tx.leases;
    var consumed := acc.Total(pol.strategy);
    var released := acc.Released(subject.HostUser());
    var existing := tx.Instance(subject.instance);
    assert Subject(tx.resource, subject.instance) == subject;
    ops := [];
    if existing.Some? {
      var ls :=
        if existing.value.status == Released then
          Issue(pol, subject, props, now, if consumed <= pol.limit then Active else Queued, now)
        else
          Issue(pol, subject, props, now, existing.value.status, existing.value.started);
      tx.Update(existing.value.subject.instance, ls);
      return Some(ls), Run(Replacing(subject, ls), (), u).ops;
    }
    if released > 0 && consumed <= pol.limit {
      var mine := HostUser(tx.leases, tx.resource, subject.instance.host, subject.instance.user);
      var decaying := WithStatus(mine, Released);
      if |decaying| != released {
        return None, [];
      }
      var replaced := decaying[released - 1];
      assert replaced in mine;
      var ls := Issue(pol, subject, props, now, Active, now);
      assert Subject(tx.resource, replaced.subject.instance) == replaced.subject;
      tx.Update(replaced.subject.instance, ls);
      return Some(ls), Run(Replacing(replaced.subject, ls), (), u).ops;
    }
    var active := acc.Active(subject.HostUser());
    var status := if CanActivate(pol.strategy, active, consumed, pol.limit) then Active else Queued;
    var ls := Issue(pol, subject, props, now, status, now);
    tx.Create(ls);
    return Some(ls), [CreateOp(ls)];
  }

  /** An attempt at a release, up to the commit. */
  method AttemptRelease(tx: Tx, subject: Subject, now: Time)
    requires tx.resource == subject.resource && tx.ops == []
    modifies tx
    ensures Releases(subject, now, old(tx.leases), tx.leases, tx.ops)
  {
    hide Refreshes, Run, IsSortOf, Releasing;
    ghost var s := tx.leases;
    assert Subject(tx.resource, subject.instance) == subject;
    var acc1, ops1 := Refresh(tx, now);
    assert tx.ops == ops1;
    ghost var u, led1 := tx.leases, acc1.ledger;
    tx.Release(subject.instance, now);
    ghost var v, ops2 := tx.leases, Run(Releasing(subject, now), (), u).ops;
    var acc3, ops3 := Refresh(tx, now);
    assert ReleasesVia(subject, now, s, u, ops1, led1, v, tx.leases, ops3, acc3.ledger);
  }

  /** An attempt at a purge, or at a periodic refresh, up to the commit. */
  method AttemptPurge(tx: Tx, now: Time)
    requires tx.ops == []
    modifies tx
    ensures exists led :: Refreshes(old(tx.leases), now, tx.leases, tx.ops, led)
  {
    hide Refreshes;
    var acc, ops := Refresh(tx, now);
    assert tx.ops == ops;
  }
}
