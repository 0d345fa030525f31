/** The client's side: how responses change its state, and how long it waits before it asks again. */
module Maintainers {
  import opened Leases
  import opened LeaseSets

  /** A guess at how long it takes to acquire a lease. */
  const TRANSPORT_TIME: Duration := 800 * MILLISECOND

  datatype State = State(
    online: bool, leaseNotRequired: bool, acquired: bool, lease: Option<Lease>, leases: seq<Lease>, err: Option<string>)

  datatype Response = Granted(lease: Lease, leases: seq<Lease>) | NotRequired | Failed(reason: string)

  const IDLE := State(false, false, false, None, [], None)

  function Max(a: int, b: int): int {
    if a >= b then a else b
  }

  function Min(a: int, b: int): int {
    if a <= b then a else b
  }

  /** How long to wait before an active lease is renewed, when `chosen` is the refresh interval. */
  function ActiveWait(chosen: Duration, lease: Lease, now: Time): Duration {
    var remaining := lease.ExpirationTime() - now;
    if remaining > 0 then Min(Max(remaining - TRANSPORT_TIME, 0), chosen) else 0
  }

  /** How long a queued lease waits for the slot `x` to decay, when `chosen` is the refresh interval. */
  function QueuedWait(chosen: Duration, x: Lease, now: Time): Duration {
    Max(Min(chosen, x.DecayTime() - now), MINIMUM_REFRESH)
  }

  /** The refresh interval, or the retry interval when that is shorter and the server is offline. */
  function Chosen(lease: Lease, online: bool, retry: Duration): Duration {
    if online then lease.EffectiveRefresh() else Min(retry, lease.EffectiveRefresh())
  }

  /** The state after a response to an acquire. After a failure the lease held is remembered. */
  function Receive(state: State, response: Response): State {
    match response
    case Granted(l, all) => State(true, false, true, Some(l), all, None)
    case NotRequired => State(true, true, false, None, [], None)
    case Failed(reason) => state.(online := false, leaseNotRequired := false, err := Some(reason))
  }

  /** What the wait computed at `now` is. */
  ghost predicate IsInterval(state: State, retry: Duration, now: Time, interval: Duration)
    requires state.acquired ==> state.lease.Some?
  {
    && interval >= MINIMUM_REFRESH
    && (!state.acquired ==> interval == Max(retry, MINIMUM_REFRESH))
    && (state.acquired && state.lease.value.status.Active? ==>
          var chosen := Chosen(state.lease.value, state.online, retry);
          interval == Max(ActiveWait(chosen, state.lease.value, now), MINIMUM_REFRESH))
    && (state.acquired && state.lease.value.status.Queued? && now >= ZERO_TIME ==>
          var chosen := Chosen(state.lease.value, state.online, retry);
          if state.leases == [] || exists x :: x in state.leases && x.DecayTime() <= now then
            interval == Max(chosen, MINIMUM_REFRESH)
          else
            && (exists x :: x in state.leases && interval == QueuedWait(chosen, x, now))
            && forall x :: x in state.leases ==> interval <= QueuedWait(chosen, x, now))
    && (state.acquired && !state.lease.value.status.Active? && !state.lease.value.status.Queued? ==>
          interval == Max(Chosen(state.lease.value, state.online, retry), MINIMUM_REFRESH))
  }

  // ------------------------------------------------------ what the wait is

  /** The refresh rate that goes with the status, zero for the default. */
  function RateOf(l: Lease): Duration {
    if l.status == Active then l.refresh.active else if l.status == Queued then l.refresh.queued else 0
  }

  /** The refresh interval: the rate, or half the duration when there is none, but a second at least. */
  lemma EffectiveRefreshMeans(l: Lease)
    ensures RateOf(l) != 0 ==> l.EffectiveRefresh() == Max(RateOf(l), 1_000_000_000)
    ensures RateOf(l) == 0 ==> l.EffectiveRefresh() == Max(l.duration / 2, 1_000_000_000)
  {
  }

  /** How long the client of a lease waits that is online, when neither an expiration nor a decay comes sooner. */
  function Cadence(l: Lease): Duration {
    Max(if RateOf(l) != 0 then RateOf(l) else l.duration / 2, 1_000_000_000)
  }

  /** When a lease decays. */
  function Decays(x: Lease): Time {
    (if x.released != 0 then x.released else x.renewed + x.duration) + x.decay
  }

  /** The wait of a client that is online and holds an active lease: the cadence, or what is left of the lease but for
      eight tenths of a second when that is less; a second at least. */
  lemma ActiveIntervalMeans(state: State, retry: Duration, now: Time, interval: Duration)
    requires state.acquired && state.lease.Some? && state.lease.value.status == Active && state.online
    requires IsInterval(state, retry, now, interval)
    ensures var l := state.lease.value;
            var left := l.renewed + l.duration - now - 800_000_000;
            interval == Max(Min(Cadence(l), left), 1_000_000_000)
  {
    EffectiveRefreshMeans(state.lease.value);
  }

  /** The wait of a client that is online and holds a queued lease: the cadence, or the time until the first slot of the
      set it was sent decays when that is less, and still to come; a second at least. */
  lemma QueuedIntervalMeans(state: State, retry: Duration, now: Time, interval: Duration)
    requires state.acquired && state.lease.Some? && state.lease.value.status == Queued && state.online && now >= 0
    requires IsInterval(state, retry, now, interval)
    ensures 1_000_000_000 <= interval <= Cadence(state.lease.value)
    ensures (exists x :: x in state.leases && Decays(x) <= now) ==> interval == Cadence(state.lease.value)
    ensures (forall x :: x in state.leases ==> now < Decays(x)) ==>
              forall x :: x in state.leases ==> interval <= Max(Decays(x) - now, 1_000_000_000)
    ensures interval < Cadence(state.lease.value) ==>
              exists x :: x in state.leases && interval == Max(Decays(x) - now, 1_000_000_000)
  {
    EffectiveRefreshMeans(state.lease.value);
    forall x ensures Decays(x) == x.DecayTime() {
    }
  }

  /** Offline the retry interval takes the place of the cadence when it is shorter. */
  lemma OfflineIntervalMeans(state: State, retry: Duration, now: Time, interval: Duration)
    requires state.acquired && state.lease.Some? && !state.online && IsInterval(state, retry, now, interval)
    ensures state.lease.value.status == Active ==>
              var l := state.lease.value;
              interval == Max(Min(Min(retry, Cadence(l)), Max(l.renewed + l.duration - now - 800_000_000, 0)),
                              1_000_000_000)
    ensures state.lease.value.status == Queued && now >= 0 ==>
              1_000_000_000 <= interval <= Max(Min(retry, Cadence(state.lease.value)), 1_000_000_000)
  {
    EffectiveRefreshMeans(state.lease.value);
  }

  /** A client that is online renews a queued lease before it runs out, if the cadence and its delays fit into the
      duration: `d1` from the renewal to the response, `d2` from the end of the wait to the next renewal. */
  lemma QueuedRenewsInTime(state: State, retry: Duration, now: Time, interval: Duration, d1: Duration, d2: Duration)
    requires state.acquired && state.lease.Some? && state.lease.value.status == Queued && state.online && now >= 0
    requires IsInterval(state, retry, now, interval)
    requires var l := state.lease.value; now <= l.renewed + d1 && d1 + Cadence(l) + d2 <= l.duration
    ensures var l := state.lease.value; now + interval + d2 <= l.renewed + l.duration
  {
    QueuedIntervalMeans(state, retry, now, interval);
  }

  /** From the response to the next request: a client that is granted a queued lease, with a set of leases that have all
      still to decay, waits no longer than for the first of them, or a second. */
  lemma GrantedWaitsForDecay(state: State, l: Lease, all: seq<Lease>, retry: Duration, now: Time, interval: Duration)
    requires l.status == Queued && now >= 0 && forall x :: x in all ==> now < Decays(x)
    requires IsInterval(Receive(state, Granted(l, all)), retry, now, interval)
    ensures forall x :: x in all ==> interval <= Max(Decays(x) - now, 1_000_000_000)
    ensures interval <= Cadence(l)
  {
    QueuedIntervalMeans(Receive(state, Granted(l, all)), retry, now, interval);
  }

  /** The state after each kind of response. */
  lemma ReceiveMeans(state: State, response: Response)
    ensures var next := Receive(state, response);
            match response
            case Granted(l, all) =>
              && next.online && !next.leaseNotRequired && next.acquired && next.err == None
              && next.lease == Some(l) && next.leases == all
            case NotRequired =>
              && next.online && next.leaseNotRequired && !next.acquired && next.err == None
              && next.lease == None && next.leases == []
            case Failed(reason) =>
              && !next.online && !next.leaseNotRequired && next.err == Some(reason)
              && next.acquired == state.acquired && next.lease == state.lease && next.leases == state.leases
  {
  }

  class LeaseMaintainer {
    const instance: Instance
    const retry: Duration
    var state: State

    ghost predicate Valid()
      reads this
    {
      state.acquired ==> state.lease.Some?
    }

    constructor (instance: Instance, retry: Duration)
      ensures Valid() && this.instance == instance && this.retry == retry && state == IDLE
    {
      this.instance, this.retry, this.state := instance, retry, IDLE;
    }

    /** The subject to ask for: that of the lease held, or the bare instance. */
    function Wanted(): Subject
      requires Valid()
      reads this
    {
      if state.acquired then state.lease.value.subject else Subject("", instance)
    }

    /** Takes in the response to an acquire. */
    method Acquire(response: Response)
      requires Valid()
      modifies this
      ensures Valid() && state == Receive(old(state), response)
      ensures response.Failed? ==> Wanted() == old(Wanted())
      ensures response.Granted? ==> Wanted() == response.lease.subject
      ensures match response
              case Granted(l, all) =>
                && state.online && !state.leaseNotRequired && state.acquired && state.err == None
                && state.lease == Some(l) && state.leases == all
              case NotRequired =>
                && state.online && state.leaseNotRequired && !state.acquired && state.err == None
                && state.lease == None && state.leases == []
              case Failed(reason) =>
                && !state.online && !state.leaseNotRequired && state.err == Some(reason)
                && state.acquired == old(state).acquired && state.lease == old(state).lease
                && state.leases == old(state).leases
    {
      match response
      case Granted(l, all) =>
        state := state.(online := true, leaseNotRequired := false, acquired := true);
        state := state.(lease := Some(l), leases := all, err := None);
      case NotRequired =>
        state := state.(online := true, leaseNotRequired := true, acquired := false);
        state := state.(lease := None, leases := [], err := None);
      case Failed(reason) =>
        state := state.(online := false, leaseNotRequired := false, err := Some(reason));
    }

    /** Takes in the response to a release; `failure` is the error, if any. Nothing is sent, and so nothing
        fails, when no lease is held. */
    method Release(failure: Option<string>)
      requires Valid()
      modifies this
      ensures Valid()
      ensures var err := if old(state).acquired then failure else None;
              state == if err.None? then old(state).(acquired := false, online := false, err := None)
                       else old(state).(err := err)
    {
      var err := None;
      if state.acquired {
        err := failure;
      }
      if err.None? {
        state := state.(acquired := false, online := false);
      }
      state := state.(err := err);
    }

    /** How long to wait until the next acquire. */
    method Interval(now: Time) returns (interval: Duration)
      requires Valid()
      ensures IsInterval(state, retry, now, interval)
      ensures state.acquired && state.online && state.lease.value.status == Active ==>
                var l := state.lease.value;
                interval == Max(Min(Cadence(l), l.renewed + l.duration - now - 800_000_000), 1_000_000_000)
      ensures state.acquired && state.online && state.lease.value.status == Queued && now >= 0 ==>
                && interval <= Cadence(state.lease.value)
                && ((forall x :: x in state.leases ==> now < Decays(x)) ==>
                      forall x :: x in state.leases ==> interval <= Max(Decays(x) - now, 1_000_000_000))
                && (interval < Cadence(state.lease.value) ==>
                      exists x :: x in state.leases && interval == Max(Decays(x) - now, 1_000_000_000))
    {
      if !state.acquired {
        return Max(retry, MINIMUM_REFRESH);
      }
      var lease := state.lease.value;
      interval := lease.EffectiveRefresh();
      if !state.online && retry < interval {
        interval := retry;
      }
      match lease.status {
        case Active =>
          var exp := lease.ExpirationTime();
          if exp > now {
            var remaining := exp - now;
            if TRANSPORT_TIME < remaining {
              remaining := remaining - TRANSPORT_TIME;
            } else {
              remaining := 0;
            }
            if remaining < interval {
              interval := remaining;
            }
          } else {
            interval := 0;
          }
        case Queued =>
          var earliest := DecayTime(state.leases);
          var decay := if earliest > now then earliest - now else 0;
          if decay > 0 && decay < interval {
            interval := decay;
          }
        case _ =>
      }
      if interval < MINIMUM_REFRESH {
        interval := MINIMUM_REFRESH;
      }
      assert IsInterval(state, retry, now, interval);
      if state.online && lease.status == Active {
        ActiveIntervalMeans(state, retry, now, interval);
      } else if state.online && lease.status == Queued && now >= 0 {
        QueuedIntervalMeans(state, retry, now, interval);
      }
    }
  }

  // ------------------------------------------------------- renewing in time

  /** What must be left of a lease when the wait is computed: the minimum wait and the request have to fit in, and
      the request must take no longer than is allowed for it, unless the refresh interval leaves room for more. */
  predicate Room(remaining: Duration, chosen: Duration, d2: Duration) {
    MINIMUM_REFRESH + d2 <= remaining && (d2 <= TRANSPORT_TIME || chosen + d2 <= remaining)
  }

  /** Exactly when waiting `Interval` renews an unexpired active lease in time, with requests that take `d2`. */
  lemma InTimeExactly(lease: Lease, chosen: Duration, now: Time, d2: Duration)
    requires d2 >= 0 && now < lease.ExpirationTime()
    ensures !lease.Expired(now + Max(ActiveWait(chosen, lease, now), MINIMUM_REFRESH) + d2) <==>
            Room(lease.ExpirationTime() - now, chosen, d2)
  {
  }
}
