/** Leases, the subjects that hold them, and the arithmetic on their times. */
module Leases {

  datatype Option<+T> = None | Some(value: T)

  /** Nanoseconds since Go's zero time, which is therefore 0. */
  type Time = int

  /** Nanoseconds; may be negative, as in Go. */
  type Duration = int

  const ZERO_TIME: Time := 0
  const MILLISECOND: Duration := 1_000_000
  const SECOND: Duration := 1_000_000_000
  const MINIMUM_REFRESH: Duration := SECOND

  datatype Instance = Instance(host: string, user: string, id: string)

  datatype Subject = Subject(resource: string, instance: Instance) {
    /** The key under which consumption is counted. */
    function HostUser(): string {
      instance.host + " " + instance.user
    }
  }

  datatype Status = Active | Released | Queued | Unrecognized(name: string) {
    function Order(): nat {
      match this
      case Active => 0
      case Released => 1
      case Queued => 2
      case Unrecognized(_) => 3
    }
  }

  /** How consumption is counted. Every strategy other than `ByConsumer` is counted by instance. */
  datatype Strategy = ByInstance | ByConsumer | OtherStrategy(name: string)

  datatype RefreshRates = RefreshRates(active: Duration, queued: Duration)

  datatype Lease = Lease(
    subject: Subject,
    properties: map<string, string>,
    status: Status,
    started: Time,
    renewed: Time,
    released: Time,
    strategy: Strategy,
    limit: nat,
    duration: Duration,
    decay: Duration,
    refresh: RefreshRates)
  {
    function HostUser(): string {
      subject.HostUser()
    }

    predicate MatchHostUser(resource: string, host: string, user: string) {
      subject.resource == resource && subject.instance.host == host && subject.instance.user == user
    }

    predicate MatchInstance(resource: string, instance: Instance) {
      subject.resource == resource && subject.instance == instance
    }

    predicate MatchStatus(st: Status) {
      status == st
    }

    predicate Consumptive() {
      status.Active? || status.Released?
    }

    function ExpirationTime(): Time {
      renewed + duration
    }

    predicate Expired(at: Time) {
      at > ExpirationTime()
    }

    function DecayTime(): Time {
      (if released != ZERO_TIME then released else ExpirationTime()) + decay
    }

    predicate Decayed(at: Time) {
      at > DecayTime()
    }

    function EffectiveRefresh(): Duration {
      var chosen :=
        match status
        case Active => refresh.active
        case Queued => refresh.queued
        case _ => 0;
      var interval := if chosen == 0 then Half(duration) else chosen;
      if interval < MINIMUM_REFRESH then MINIMUM_REFRESH else interval
    }

    /** What every stored lease satisfies: its times are set, and its release time
        is set exactly when it has been released. */
    predicate WellFormed() {
      && !status.Unrecognized?
      && renewed > ZERO_TIME
      && duration >= 0
      && decay >= 0
      && (released != ZERO_TIME <==> status.Released?)
    }
  }

  /** Go's integer division truncates toward zero. */
  function Half(d: Duration): Duration {
    if d >= 0 then d / 2 else -((-d) / 2)
  }

  /** Whether `a` sorts before `b`: leases of greater permanence come first. */
  predicate Less(a: Lease, b: Lease) {
    if a.status.Order() < b.status.Order() then true
    else if a.status.Order() > b.status.Order() then false
    else
      match a.status
      case Released =>
        var e1, e2 := a.released + a.decay, b.released + b.decay;
        if e1 > e2 then true
        else if e1 < e2 then false
        else if a.released < b.released then true
        else if a.released > b.released then false
        else a.started < b.started
      case Active => a.started < b.started
      case Queued => a.started < b.started
      case Unrecognized(_) => false
  }

  /** `Less` is a strict weak order over leases of mixed statuses, which is what sorting needs. */
  lemma LessIsStrictWeakOrder(a: Lease, b: Lease, c: Lease)
    ensures !Less(a, a)
    ensures Less(a, b) && Less(b, c) ==> Less(a, c)
    ensures !Less(a, b) && !Less(b, c) ==> !Less(a, c)
  {
  }

  predicate NoSpace(s: string) {
    ' ' !in s
  }

  /** When hosts hold no space, the key names exactly one (host, user) pair. */
  lemma HostUserInjective(a: Subject, b: Subject)
    requires NoSpace(a.instance.host) && NoSpace(b.instance.host)
    ensures a.HostUser() == b.HostUser() <==>
            a.instance.host == b.instance.host && a.instance.user == b.instance.user
  {
    if a.HostUser() == b.HostUser() {
      var h, k := a.instance.host, b.instance.host;
      var key := a.HostUser();
      assert key[|h|] == ' ' && key[|k|] == ' ';
      assert forall i :: 0 <= i < |h| ==> key[i] == h[i];
      assert forall i :: 0 <= i < |k| ==> key[i] == k[i];
      assert key[..|h|] == h && key[..|k|] == k;
      assert key[|h| + 1..] == a.instance.user && key[|k| + 1..] == b.instance.user;
    }
  }

  /** With a space in a host, two different pairs can share one key. */
  lemma HostUserCollides()
    ensures var a := Subject("r", Instance("x y", "z", "1"));
            var b := Subject("r", Instance("x", "y z", "2"));
            a.HostUser() == b.HostUser() && a.instance.host != b.instance.host
  {
    assert "x y" + " " + "z" == "x" + " " + "y z";
    assert |"x y"| != |"x"|;
  }
}
