/** Consumption statistics, and their agreement with the accumulator of a refresh. */
module Statistics {
  import opened Leases
  import opened Projections
  import opened LeaseSets
  import opened Transactions
  import opened Accumulators
  import opened Refreshing
  import opened RefreshLaws

  function UserIf(): Lease -> multiset<string> {
    (l: Lease) => if l.status.Active? then multiset{l.subject.instance.user} else multiset{}
  }

  /** The users of the active leases, one entry for each lease. */
  function Users(s: seq<Lease>): multiset<string> {
    Project(UserIf(), s)
  }

  class Tally {
    var active: nat
    var released: nat
    var queued: nat
    var consumed: nat
    var users: map<string, nat>
    ghost var counted: seq<Lease>

    ghost predicate Valid()
      reads this
    {
      && active == |Keys(Active, counted)|
      && released == |Keys(Released, counted)|
      && queued == |Keys(Queued, counted)|
      && consumed == |Holders(counted)|
      && Counts(users, Users(counted))
    }

    constructor ()
      ensures Valid() && counted == []
    {
      active, released, queued, consumed, users := 0, 0, 0, 0, map[];
      counted := [];
    }

    method Add(user: string, status: Status, ghost l: Lease)
      requires Valid() && user == l.subject.instance.user && status == l.status
      modifies this
      ensures Valid() && counted == old(counted) + [l]
    {
      hide Keys, Users, Counts, Increment;
      TallyMore(counted, l);
      IncrementCounts(users, Users(counted), user);
      match status {
        case Active =>
          active, consumed, users := active + 1, consumed + 1, Increment(users, user);
        case Released =>
          released, consumed := released + 1, consumed + 1;
        case Queued =>
          queued := queued + 1;
        case Unrecognized(_) =>
      }
      counted := counted + [l];
    }
  }

  lemma TallyMore(s: seq<Lease>, l: Lease)
    ensures forall st :: |Keys(st, s + [l])| == |Keys(st, s)| + if l.status == st then 1 else 0
    ensures Users(s + [l]) == if l.status.Active? then Users(s) + multiset{l.subject.instance.user} else Users(s)
  {
    hide Project, Subject.HostUser;
    forall st ensures |Keys(st, s + [l])| == |Keys(st, s)| + if l.status == st then 1 else 0 {
      KeysAppend(st, s, [l]);
      ProjectOne(KeyIf(st), l);
    }
    ProjectAppend(UserIf(), s, [l]);
    ProjectOne(UserIf(), l);
  }

  /** A user is counted if and only if an active lease is held in its name. */
  lemma UsersAre(s: seq<Lease>, user: string)
    ensures user in Users(s) <==> exists l :: l in s && l.status == Active && l.subject.instance.user == user
  {
    hide Project;
    if user in Users(s) {
      var k := ProjectWitness(UserIf(), s, user);
      assert s[k] in s;
    }
    if l :| l in s && l.status == Active && l.subject.instance.user == user {
      ProjectMember(UserIf(), s, l);
      assert user in multiset{user};
    }
  }

  // ---------------------------------------------------------- by consumer

  function Consumers(s: seq<Lease>): set<string> {
    set l | l in s :: l.HostUser()
  }

  /** The first lease of each consumer, in order. */
  function Firsts(s: seq<Lease>): seq<Lease> {
    if s == [] then []
    else
      var n := |s| - 1;
      Firsts(s[..n]) + if s[n].HostUser() in Consumers(s[..n]) then [] else [s[n]]
  }

  lemma FirstsStep(s: seq<Lease>, i: nat)
    requires i < |s|
    ensures Firsts(s[..i + 1]) == Firsts(s[..i]) + if s[i].HostUser() in Consumers(s[..i]) then [] else [s[i]]
    ensures Consumers(s[..i + 1]) == Consumers(s[..i]) + {s[i].HostUser()}
  {
    hide Subject.HostUser;
    assert s[..i + 1][..i] == s[..i] && s[..i + 1] == s[..i] + [s[i]];
  }

  /** What `Consumed` answers for the statistics of `s`. */
  function Reported(strat: Strategy, s: seq<Lease>): Option<nat> {
    match strat
    case ByInstance => Some(|Holders(s)|)
    case ByConsumer => Some(|Holders(Firsts(s))|)
    case OtherStrategy(_) => None
  }

  datatype Stats = Stats(instance: Tally, consumer: Tally) {
    /** Panics in the code, which is `None` here, for a strategy it does not know. */
    method Consumed(strat: Strategy) returns (n: Option<nat>)
      ensures n == match strat
                   case ByInstance => Some(instance.consumed)
                   case ByConsumer => Some(consumer.consumed)
                   case OtherStrategy(_) => None
      ensures instance.Valid() && consumer.Valid() && consumer.counted == Firsts(instance.counted) ==>
                n == Reported(strat, instance.counted)
    {
      match strat
      case ByInstance => n := Some(instance.consumed);
      case ByConsumer => n := Some(consumer.consumed);
      case OtherStrategy(_) => n := None;
    }
  }

  method StatsOf(s: seq<Lease>) returns (stats: Stats)
    ensures fresh(stats.instance) && fresh(stats.consumer) && stats.instance != stats.consumer
    ensures stats.instance.Valid() && stats.instance.counted == s
    ensures stats.consumer.Valid() && stats.consumer.counted == Firsts(s)
  {
    hide *;
    var instance := new Tally();
    var consumer := new Tally();
    var seen: set<string> := {};
    FirstsNone();
    for i := 0 to |s|
      invariant fresh(instance) && fresh(consumer) && instance != consumer
      invariant instance.Valid() && instance.counted == s[..i]
      invariant consumer.Valid() && consumer.counted == Firsts(s[..i])
      invariant seen == Consumers(s[..i])
    {
      FirstsStep(s, i);
      assert s[..i + 1] == s[..i] + [s[i]];
      instance.Add(s[i].subject.instance.user, s[i].status, s[i]);
      var c := s[i].HostUser();
      if c !in seen {
        seen := seen + {c};
        consumer.Add(s[i].subject.instance.user, s[i].status, s[i]);
      }
    }
    assert s[..|s|] == s;
    stats := Stats(instance, consumer);
  }

  lemma FirstsNone()
    ensures Firsts([]) == [] && Consumers([]) == {}
  {
  }

  /** The consumers with a lease of status `st`. */
  function With(st: Status, s: seq<Lease>): set<string> {
    Distinct(Keys(st, s))
  }

  lemma WithStep(st: Status, s: seq<Lease>, n: nat)
    requires n < |s|
    ensures With(st, s[..n + 1]) == With(st, s[..n]) + if s[n].status == st then {s[n].HostUser()} else {}
  {
    hide Project, Subject.HostUser;
    assert s[..n + 1] == s[..n] + [s[n]];
    KeysAppend(st, s[..n], [s[n]]);
    ProjectOne(KeyIf(st), s[n]);
    if s[n].status == st {
      DistinctAdd(Keys(st, s[..n]), s[n].HostUser());
    } else {
      assert Keys(st, s[..n + 1]) == Keys(st, s[..n]);
    }
  }

  lemma WithNone(st: Status)
    ensures With(st, []) == {} && Keys(st, []) == multiset{}
  {
  }

  /** In a sorted set, whoever comes before a lease holds one at least as permanent. */
  lemma {:induction false} ConsumersSplit(s: seq<Lease>, k: nat, order: nat)
    requires Sorted(s) && k <= |s| && forall i :: 0 <= i < k ==> s[i].status.Order() <= order
    ensures order <= 1 ==> With(Queued, s[..k]) == {}
    ensures order == 0 ==> With(Released, s[..k]) == {}
    ensures order == 0 ==> Consumers(s[..k]) == With(Active, s[..k])
    ensures order == 1 ==> Consumers(s[..k]) == With(Active, s[..k]) + With(Released, s[..k])
    ensures order == 2 ==> Consumers(s[..k]) == With(Active, s[..k]) + With(Released, s[..k]) + With(Queued, s[..k])
  {
    hide Subject.HostUser, With, Consumers, Firsts, Sorted;
    FirstsNone();
    WithNone(Active);
    WithNone(Released);
    WithNone(Queued);
    if k == 0 {
      assert s[..0] == [];
    } else {
      ConsumersSplit(s, k - 1, order);
      FirstsStep(s, k - 1);
      WithStep(Active, s, k - 1);
      WithStep(Released, s, k - 1);
      WithStep(Queued, s, k - 1);
    }
  }

  /** Because the set is sorted, the first lease of a consumer is its most permanent: each consumer counts
      once, as active if it has an active lease, as released if not but it has a released one, and as queued
      if it has neither but waits. */
  lemma {:induction false} ConsumerTally(s: seq<Lease>, k: nat)
    requires Sorted(s) && k <= |s|
    ensures var (a, r, q) := (With(Active, s[..k]), With(Released, s[..k]), With(Queued, s[..k]));
            && |Keys(Active, Firsts(s[..k]))| == |a|
            && |Keys(Released, Firsts(s[..k]))| == |r - a|
            && |Keys(Queued, Firsts(s[..k]))| == |q - (a + r)|
  {
    hide Subject.HostUser, With, Consumers, Firsts, Sorted, Keys;
    FirstsNone();
    WithNone(Active);
    WithNone(Released);
    WithNone(Queued);
    if k == 0 {
      assert s[..0] == [];
    } else {
      var n := k - 1;
      ConsumerTally(s, n);
      FirstsStep(s, n);
      WithStep(Active, s, n);
      WithStep(Released, s, n);
      WithStep(Queued, s, n);
      NoLessPermanent(s, n);
      ConsumersSplit(s, n, s[n].status.Order());
      var isNew := s[n].HostUser() !in Consumers(s[..n]);
      FirstsTally(Firsts(s[..n]), s[n], isNew);
      TallyStep(s[n].status, isNew, s[n].HostUser(),
                With(Active, s[..n]), With(Released, s[..n]), With(Queued, s[..n]));
    }
  }

  lemma FirstsTally(firsts: seq<Lease>, l: Lease, isNew: bool)
    ensures var more := firsts + if isNew then [l] else [];
            forall st :: |Keys(st, more)| == |Keys(st, firsts)| + if isNew && l.status == st then 1 else 0
  {
    hide Keys;
    TallyMore(firsts, l);
    assert firsts + [] == firsts;
  }

  lemma NoLessPermanent(s: seq<Lease>, n: nat)
    requires Sorted(s) && n < |s|
    ensures forall i :: 0 <= i < n ==> s[i].status.Order() <= s[n].status.Order()
  {
    forall i | 0 <= i < n ensures s[i].status.Order() <= s[n].status.Order() {
      SortedByStatus(s, i, n);
    }
  }

  function AddIf(x: set<string>, b: bool, c: string): set<string> {
    x + if b then {c} else {}
  }

  /** Meeting one more lease, of status `st` and consumer `c`, when active, released and queued leases have been
      met for the consumers `a`, `r` and `q`. */
  lemma TallyStep(st: Status, isNew: bool, c: string, a: set<string>, r: set<string>, q: set<string>)
    requires st.Active? ==> r == {} && q == {} && (isNew <==> c !in a)
    requires st.Released? ==> q == {} && (isNew <==> c !in a + r)
    requires st.Queued? ==> (isNew <==> c !in a + r + q)
    ensures var (a', r', q') := (AddIf(a, st.Active?, c), AddIf(r, st.Released?, c), AddIf(q, st.Queued?, c));
            && |a'| == |a| + (if isNew && st.Active? then 1 else 0)
            && |r' - a'| == |r - a| + (if isNew && st.Released? then 1 else 0)
            && |q' - (a' + r')| == |q - (a + r)| + (if isNew && st.Queued? then 1 else 0)
  {
    Unchanged(a);
    Unchanged(r);
    Unchanged(q);
    match st
    case Active =>
      NothingLess(a);
      NothingLess(a + {c});
      Grow(a, {}, c);
    case Released =>
      Grow(r, a, c);
    case Queued =>
      Grow(q, a + r, c);
    case Unrecognized(_) =>
  }

  lemma Unchanged(x: set<string>)
    ensures x + {} == x
  {
  }

  lemma NothingLess(x: set<string>)
    ensures x - {} == x && {} - x == {} && {} - (x + {}) == {}
  {
  }

  lemma Grow(x: set<string>, gone: set<string>, c: string)
    ensures |x + {c} - gone| == |x - gone| + if c in x || c in gone then 0 else 1
  {
    if c in x || c in gone {
      assert x + {c} - gone == x - gone;
    } else {
      assert x + {c} - gone == (x - gone) + {c};
    }
  }

  // ------------------------------------------------------------- agreement

  lemma SizeOfUnion(a: set<string>, r: set<string>)
    ensures |a + r| == |a| + |r - a|
  {
    assert a + r == a + (r - a);
  }

  lemma HoldersAre(s: seq<Lease>)
    ensures Distinct(Holders(s)) == With(Active, s) + With(Released, s)
  {
  }

  /** What the statistics of a sorted set report as consumed is what the accumulator counts. */
  lemma ConsumedIsConsumption(s: seq<Lease>)
    requires Sorted(s)
    ensures |Holders(s)| == Consumption(ByInstance, s)
    ensures |Holders(Firsts(s))| == Consumption(ByConsumer, s)
  {
    hide Sorted, Firsts, Keys, With;
    ConsumerTally(s, |s|);
    assert s[..|s|] == s;
    SizeOfUnion(With(Active, s), With(Released, s));
    HoldersAre(s);
  }

  /** After a refresh the accumulator's total is what the statistics of the resulting set report, exactly
      when the strategy is one of the two known ones: for any other the total goes by instances, and the
      statistics panic. */
  lemma TotalIsReported(s: seq<Lease>, at: Time, t: seq<Lease>, ops: seq<Op>, led: Ledger, strat: Strategy)
    requires Refreshes(s, at, t, ops, led)
    ensures Reported(strat, t) == Some(led.Total(strat)) <==> !strat.OtherStrategy?
    ensures strat.OtherStrategy? ==> led.Total(strat) == led.Total(ByInstance)
  {
    hide Refreshes, Sorted, Firsts, Holders, Ledger.Holders;
    RefreshSorted(s, at, t, ops, led);
    AccumulatorRecounts(s, at, t, ops, led);
    ConsumedIsConsumption(t);
  }
}
