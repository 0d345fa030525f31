/** Ordered sets of leases: sorting, lookup, filtering and counting. */
module LeaseSets {
  import opened Leases
  import opened Projections

  /** No lease sorts strictly before one that precedes it. */
  ghost predicate Sorted(s: seq<Lease>) {
    forall i, j :: 0 <= i < j < |s| ==> !Less(s[j], s[i])
  }

  /** All that `sort.Sort` promises: it is not stable, so ties come out in any order. */
  ghost predicate IsSortOf(r: seq<Lease>, s: seq<Lease>) {
    Sorted(r) && multiset(r) == multiset(s)
  }

  /** Stands for `sort.Sort`; callers rely on its contract alone. */
  method Sort(s: seq<Lease>) returns (r: seq<Lease>)
    ensures IsSortOf(r, s)
  {
    r := [];
    for i := 0 to |s|
      invariant IsSortOf(r, s[..i])
    {
      r := Insert(r, s[i]);
      assert s[..i + 1] == s[..i] + [s[i]];
    }
    assert s[..|s|] == s;
  }

  method Insert(s: seq<Lease>, x: Lease) returns (r: seq<Lease>)
    requires Sorted(s)
    ensures Sorted(r) && multiset(r) == multiset(s) + multiset{x}
  {
    hide Sorted, Less;
    var k := |s|;
    while k > 0 && Less(x, s[k - 1])
      invariant 0 <= k <= |s|
      invariant forall j :: k <= j < |s| ==> Less(x, s[j])
    {
      k := k - 1;
    }
    SortedInsert(s, k, x);
    assert s == s[..k] + s[k..];
    r := s[..k] + [x] + s[k..];
  }

  lemma SortedInsert(r: seq<Lease>, k: nat, x: Lease)
    requires Sorted(r) && k <= |r|
    requires k > 0 ==> !Less(x, r[k - 1])
    requires forall j :: k <= j < |r| ==> Less(x, r[j])
    ensures Sorted(r[..k] + [x] + r[k..])
  {
    forall j | 0 <= j < k ensures !Less(x, r[j]) {
      LessIsStrictWeakOrder(x, r[k - 1], r[j]);
    }
    forall j | k <= j < |r| ensures !Less(r[j], x) {
      LessIsStrictWeakOrder(x, r[j], x);
    }
  }

  lemma SameElements(a: seq<Lease>, b: seq<Lease>, x: Lease)
    requires multiset(a) == multiset(b)
    ensures x in a <==> x in b
  {
    assert x in a <==> x in multiset(a);
    assert x in b <==> x in multiset(b);
  }

  /** In a sorted set the lease at `i` is at least as permanent as the one at `j`. */
  lemma SortedByStatus(s: seq<Lease>, i: nat, j: nat)
    requires Sorted(s) && i <= j < |s|
    ensures s[i].status.Order() <= s[j].status.Order()
  {
  }

  /** What being sorted comes to: active leases, then released ones, then queued ones; the active and the queued by
      their start, the earliest first; the released by their decay, the latest first, then by their release and
      by their start, the earliest first. */
  lemma SortedMeans(s: seq<Lease>, i: nat, j: nat)
    requires Sorted(s) && i < j < |s|
    ensures var (a, b) := (s[i], s[j]);
            && (b.status == Active ==> a.status == Active)
            && (b.status == Released ==> a.status == Active || a.status == Released)
            && (b.status == Queued ==> a.status == Active || a.status == Released || a.status == Queued)
            && (a.status == b.status == Active ==> a.started <= b.started)
            && (a.status == b.status == Queued ==> a.started <= b.started)
            && (a.status == b.status == Released ==>
                  && a.released + a.decay >= b.released + b.decay
                  && (a.released + a.decay == b.released + b.decay ==>
                        a.released < b.released || (a.released == b.released && a.started <= b.started)))
  {
  }

  /** Of two queued leases the one that started earlier comes first. */
  lemma EarlierFirst(s: seq<Lease>, i: nat, j: nat)
    requires Sorted(s) && i < |s| && j < |s| && s[i].status == s[j].status == Queued
    requires s[i].started < s[j].started
    ensures i < j
  {
    hide Sorted;
    if j < i {
      SortedMeans(s, j, i);
    }
  }

  // ---------------------------------------------------------------- counting

  function KeyIf(st: Status): Lease -> multiset<string> {
    (l: Lease) => if l.status == st then multiset{l.HostUser()} else multiset{}
  }

  /** The consumers of the leases with status `st`, one entry for each lease. */
  function Keys(st: Status, s: seq<Lease>): multiset<string> {
    Project(KeyIf(st), s)
  }

  /** The consumers holding active or released leases, one entry for each lease. */
  function Holders(s: seq<Lease>): multiset<string> {
    Keys(Active, s) + Keys(Released, s)
  }

  /** How much of a resource a bag of holders consumes. */
  function Size(strat: Strategy, bag: multiset<string>): nat {
    if strat == ByConsumer then |Distinct(bag)| else |bag|
  }

  function Consumption(strat: Strategy, s: seq<Lease>): nat {
    Size(strat, Holders(s))
  }

  lemma SizeMonotone(strat: Strategy, a: multiset<string>, b: multiset<string>)
    requires a <= b
    ensures Size(strat, a) <= Size(strat, b)
  {
    SubsetSize(Distinct(a), Distinct(b));
    assert b == a + (b - a);
  }

  /** Adding a holder counts for one more, unless consumers are counted and it is one already. */
  lemma SizeAdd(strat: Strategy, bag: multiset<string>, c: string)
    ensures Size(strat, bag + multiset{c}) ==
            Size(strat, bag) + (if strat == ByConsumer && c in bag then 0 else 1)
  {
    DistinctAdd(bag, c);
    assert |bag + multiset{c}| == |bag| + 1;
  }

  lemma KeysPermutation(st: Status, a: seq<Lease>, b: seq<Lease>)
    requires multiset(a) == multiset(b)
    ensures Keys(st, a) == Keys(st, b)
  {
    ProjectPermutation(KeyIf(st), a, b);
  }

  lemma HoldersPermutation(a: seq<Lease>, b: seq<Lease>)
    requires multiset(a) == multiset(b)
    ensures Holders(a) == Holders(b)
  {
    KeysPermutation(Active, a, b);
    KeysPermutation(Released, a, b);
  }

  lemma KeysAppend(st: Status, a: seq<Lease>, b: seq<Lease>)
    ensures Keys(st, a + b) == Keys(st, a) + Keys(st, b)
  {
    ProjectAppend(KeyIf(st), a, b);
  }

  lemma HoldersPrefix(s: seq<Lease>, k: nat)
    requires k <= |s|
    ensures Holders(s[..k]) <= Holders(s)
  {
    assert s == s[..k] + s[k..];
    KeysAppend(Active, s[..k], s[k..]);
    KeysAppend(Released, s[..k], s[k..]);
  }

  // ------------------------------------------------------------- identity

  function SubjectBag(): Lease -> multiset<Subject> {
    (l: Lease) => multiset{l.subject}
  }

  function Subjects(s: seq<Lease>): multiset<Subject> {
    Project(SubjectBag(), s)
  }

  /** At most one lease for each subject. */
  ghost predicate Unique(s: seq<Lease>) {
    forall x :: Subjects(s)[x] <= 1
  }

  lemma SubjectsPermutation(a: seq<Lease>, b: seq<Lease>)
    requires multiset(a) == multiset(b)
    ensures Subjects(a) == Subjects(b)
  {
    ProjectPermutation(SubjectBag(), a, b);
  }

  lemma CountedTwice(s: seq<Lease>, i: nat, j: nat)
    requires i < j < |s| && s[i].subject == s[j].subject
    ensures Subjects(s)[s[i].subject] >= 2
  {
    ProjectSplit(SubjectBag(), s, j);
    var rest := s[..j] + s[j + 1..];
    assert rest[i] == s[i];
    ProjectSplit(SubjectBag(), rest, i);
  }

  lemma UniqueIndex(s: seq<Lease>, i: nat, j: nat)
    requires Unique(s) && i < |s| && j < |s| && s[i].subject == s[j].subject
    ensures i == j
  {
    if i < j {
      CountedTwice(s, i, j);
    } else if j < i {
      CountedTwice(s, j, i);
    }
  }

  lemma UniqueMember(s: seq<Lease>, a: Lease, b: Lease)
    requires Unique(s) && a in s && b in s && a.subject == b.subject
    ensures a == b
  {
    var i :| 0 <= i < |s| && s[i] == a;
    var j :| 0 <= j < |s| && s[j] == b;
    UniqueIndex(s, i, j);
  }

  lemma UniquePermutation(a: seq<Lease>, b: seq<Lease>)
    requires Unique(a) && multiset(a) == multiset(b)
    ensures Unique(b)
  {
    SubjectsPermutation(a, b);
  }

  lemma UniqueBelow(a: seq<Lease>, b: seq<Lease>)
    requires Unique(b) && Subjects(a) <= Subjects(b)
    ensures Unique(a)
  {
    forall x ensures Subjects(a)[x] <= 1 {
      assert Subjects(a)[x] <= Subjects(b)[x];
    }
  }

  lemma SubjectsWitness(s: seq<Lease>, x: Subject) returns (k: nat)
    requires x in Subjects(s)
    ensures k < |s| && s[k].subject == x
  {
    k := ProjectWitness(SubjectBag(), s, x);
  }

  // ---------------------------------------------------------------- lookup

  /** The position of the first lease for the subject, or the length when there is none. */
  function FirstIndex(s: seq<Lease>, subject: Subject): (k: nat)
    ensures k <= |s|
    ensures k < |s| ==> s[k].subject == subject
    ensures forall j :: 0 <= j < k ==> s[j].subject != subject
  {
    if s == [] then 0
    else if s[0].subject == subject then 0
    else 1 + FirstIndex(s[1..], subject)
  }

  lemma FirstIndexIs(s: seq<Lease>, subject: Subject, k: nat)
    requires k < |s| && s[k].subject == subject
    requires forall j :: 0 <= j < k ==> s[j].subject != subject
    ensures FirstIndex(s, subject) == k
  {
    var f := FirstIndex(s, subject);
    assert f <= k;
    assert f < |s| && s[f].subject == subject;
  }

  method Index(s: seq<Lease>, resource: string, instance: Instance) returns (index: int)
    ensures var k := FirstIndex(s, Subject(resource, instance));
            index == if k < |s| then k else -1
  {
    for i := 0 to |s|
      invariant forall j :: 0 <= j < i ==> s[j].subject != Subject(resource, instance)
    {
      if s[i].MatchInstance(resource, instance) {
        FirstIndexIs(s, Subject(resource, instance), i);
        return i;
      }
    }
    index := -1;
  }

  /** The leases satisfying `p`, in order. */
  function Select(p: Lease -> bool, s: seq<Lease>): (r: seq<Lease>)
    ensures forall x :: x in r <==> x in s && p(x)
  {
    if s == [] then []
    else
      var last := s[|s| - 1];
      assert s == s[..|s| - 1] + [last];
      Select(p, s[..|s| - 1]) + if p(last) then [last] else []
  }

  lemma {:induction false} SelectSorted(p: Lease -> bool, s: seq<Lease>)
    requires Sorted(s)
    ensures Sorted(Select(p, s))
  {
    if s != [] {
      var n := |s| - 1;
      SelectSorted(p, s[..n]);
      var r := Select(p, s[..n]);
      forall i | 0 <= i < |r| ensures !Less(s[n], r[i]) {
        assert r[i] in s[..n];
      }
    }
  }

  function IsHostUser(resource: string, host: string, user: string): Lease -> bool {
    (l: Lease) => l.MatchHostUser(resource, host, user)
  }

  function HasStatus(st: Status): Lease -> bool {
    (l: Lease) => l.MatchStatus(st)
  }

  method HostUser(s: seq<Lease>, resource: string, host: string, user: string) returns (matched: seq<Lease>)
    ensures matched == Select(IsHostUser(resource, host, user), s)
    ensures forall x :: x in matched <==>
              && x in s && x.subject.resource == resource
              && x.subject.instance.host == host && x.subject.instance.user == user
  {
    matched := [];
    for i := 0 to |s|
      invariant matched == Select(IsHostUser(resource, host, user), s[..i])
    {
      assert s[..i + 1][..i] == s[..i];
      if s[i].MatchHostUser(resource, host, user) {
        matched := matched + [s[i]];
      }
    }
    assert s[..|s|] == s;
  }

  method WithStatus(s: seq<Lease>, st: Status) returns (matched: seq<Lease>)
    ensures matched == Select(HasStatus(st), s)
    ensures forall x :: x in matched <==> x in s && x.status == st
  {
    matched := [];
    for i := 0 to |s|
      invariant matched == Select(HasStatus(st), s[..i])
    {
      assert s[..i + 1][..i] == s[..i];
      if s[i].MatchStatus(st) {
        matched := matched + [s[i]];
      }
    }
    assert s[..|s|] == s;
  }

  /** The earliest time at which a lease of the set decays; the zero time for none. */
  method DecayTime(s: seq<Lease>) returns (decay: Time)
    ensures s == [] ==> decay == ZERO_TIME
    ensures s != [] ==> (exists l :: l in s && l.DecayTime() == decay)
    ensures forall l :: l in s ==> decay <= l.DecayTime()
  {
    if s == [] {
      return ZERO_TIME;
    }
    decay := s[0].DecayTime();
    for i := 1 to |s|
      invariant exists l :: l in s && l.DecayTime() == decay
      invariant forall j :: 0 <= j < i ==> decay <= s[j].DecayTime()
    {
      if s[i].DecayTime() < decay {
        decay := s[i].DecayTime();
      }
    }
  }
}
