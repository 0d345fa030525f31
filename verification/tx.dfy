/** Lease transactions: a lease set edited in place, and the log of the edits. */
module Transactions {
  import opened Leases
  import opened Projections
  import opened LeaseSets

  /** What a processor asks for the lease it is shown. */
  datatype Edit = Keep | Update(lease: Lease) | Delete

  datatype UpdateType = Renew | Downgrade | Upgrade | Replace | Exchange | Transmute

  datatype Effect = Removed(lease: Lease) | Created(lease: Lease)

  datatype Op = CreateOp(lease: Lease) | UpdateOp(previous: Lease, lease: Lease) | DeleteOp(previous: Lease)
  {
    function UpdateType(): UpdateType
      requires UpdateOp?
    {
      var was, now := previous.subject, lease.subject;
      if now.resource != was.resource then Transmute
      else if now.instance.host != was.instance.host || now.instance.user != was.instance.user then Exchange
      else if now.instance != was.instance then Replace
      else if lease.status != previous.status then
        if lease.status.Order() < previous.status.Order() then Upgrade else Downgrade
      else Renew
    }

    function Effects(): seq<Effect> {
      match this
      case CreateOp(l) => [Created(l)]
      case UpdateOp(p, l) => [Removed(p), Created(l)]
      case DeleteOp(p) => [Removed(p)]
    }
  }

  /** A status more permanent than another. */
  predicate MorePermanent(a: Status, b: Status) {
    match a
    case Active => b != Active
    case Released => b != Active && b != Released
    case Queued => b != Active && b != Released && b != Queued
    case Unrecognized(_) => false
  }

  /** What the type of an update tells, of the two leases. */
  lemma UpdateTypeMeans(p: Lease, l: Lease)
    ensures var kind := UpdateOp(p, l).UpdateType();
            && (kind == Renew <==> l.subject == p.subject && l.status == p.status)
            && (kind == Upgrade <==> l.subject == p.subject && MorePermanent(l.status, p.status))
            && (kind == Downgrade <==>
                  l.subject == p.subject && l.status != p.status && !MorePermanent(l.status, p.status))
            && (kind == Replace <==>
                  && l.subject.resource == p.subject.resource && l.subject.instance.host == p.subject.instance.host
                  && l.subject.instance.user == p.subject.instance.user
                  && l.subject.instance.id != p.subject.instance.id)
            && (kind == Transmute <==> l.subject.resource != p.subject.resource)
  {
  }

  function CreatedBy(): Op -> multiset<Lease> {
    (op: Op) => if op.DeleteOp? then multiset{} else multiset{op.lease}
  }

  function RemovedBy(): Op -> multiset<Lease> {
    (op: Op) => if op.CreateOp? then multiset{} else multiset{op.previous}
  }

  /** The leases that a log puts in, and those it takes out. */
  function Gains(ops: seq<Op>): multiset<Lease> {
    Project(CreatedBy(), ops)
  }

  function Losses(ops: seq<Op>): multiset<Lease> {
    Project(RemovedBy(), ops)
  }

  /** The log accounts for the whole difference between the two sets. */
  ghost predicate Balanced(s: seq<Lease>, ops: seq<Op>, t: seq<Lease>) {
    multiset(s) + Gains(ops) == multiset(t) + Losses(ops)
  }

  /** Edits of a set, one log after the other. */
  lemma BalancedThen(s: seq<Lease>, a: seq<Op>, u: seq<Lease>, b: seq<Op>, t: seq<Lease>)
    requires Balanced(s, a, u) && Balanced(u, b, t)
    ensures Balanced(s, a + b, t)
  {
    ProjectAppend(CreatedBy(), a, b);
    ProjectAppend(RemovedBy(), a, b);
    AddChained(multiset(s), Gains(a), multiset(u), Losses(a), Gains(b), multiset(t), Losses(b));
  }

  /** Edits of two sets side by side. */
  lemma BalancedBeside(s: seq<Lease>, a: seq<Op>, t: seq<Lease>, s': seq<Lease>, a': seq<Op>, t': seq<Lease>)
    requires Balanced(s, a, t) && Balanced(s', a', t')
    ensures Balanced(s + s', a + a', t + t')
  {
    ProjectAppend(CreatedBy(), a, a');
    ProjectAppend(RemovedBy(), a, a');
    AddBeside(multiset(s), Gains(a), multiset(t), Losses(a), multiset(s'), Gains(a'), multiset(t'), Losses(a'));
  }

  // ------------------------------------------------------------ processing

  /** What is left of a lease after an edit, and what the log records of it. */
  function Kept(e: Edit, l: Lease): seq<Lease> {
    match e
    case Keep => [l]
    case Update(now) => [now]
    case Delete => []
  }

  function Logged(e: Edit, l: Lease): seq<Op> {
    match e
    case Keep => []
    case Update(now) => [UpdateOp(l, now)]
    case Delete => [DeleteOp(l)]
  }

  /** The variables a processor has captured, the leases kept so far and the log so far. */
  datatype Trace<S> = Trace(state: S, leases: seq<Lease>, ops: seq<Op>)

  /** Shows every lease of `s` to the processor `f`, first to last. */
  function Run<S>(f: (S, Lease) -> (S, Edit), init: S, s: seq<Lease>): Trace<S> {
    if s == [] then Trace(init, [], [])
    else
      var l := s[|s| - 1];
      var before := Run(f, init, s[..|s| - 1]);
      var (after, e) := f(before.state, l);
      Trace(after, before.leases + Kept(e, l), before.ops + Logged(e, l))
  }

  lemma RunNone<S>(f: (S, Lease) -> (S, Edit), init: S)
    ensures Run(f, init, []) == Trace(init, [], [])
  {
  }

  lemma RunStep<S>(f: (S, Lease) -> (S, Edit), init: S, s: seq<Lease>, k: nat)
    requires k < |s|
    ensures var before := Run(f, init, s[..k]);
            var (after, e) := f(before.state, s[k]);
            Run(f, init, s[..k + 1]) ==
            Trace(after, before.leases + Kept(e, s[k]), before.ops + Logged(e, s[k]))
  {
    assert s[..k + 1][..k] == s[..k];
  }

  lemma EditBalanced(e: Edit, l: Lease)
    ensures Balanced([l], Logged(e, l), Kept(e, l))
  {
    if e != Keep {
      ProjectOne(CreatedBy(), Logged(e, l)[0]);
      ProjectOne(RemovedBy(), Logged(e, l)[0]);
    }
  }

  lemma NothingBalanced()
    ensures Balanced([], [], [])
  {
  }

  lemma {:induction false} RunBalancedUpTo<S>(f: (S, Lease) -> (S, Edit), init: S, s: seq<Lease>, k: nat)
    requires k <= |s|
    ensures Balanced(s[..k], Run(f, init, s[..k]).ops, Run(f, init, s[..k]).leases)
  {
    hide *;
    RunNone(f, init);
    if k == 0 {
      assert s[..0] == [];
      NothingBalanced();
    } else {
      var n := k - 1;
      RunBalancedUpTo(f, init, s, n);
      RunStep(f, init, s, n);
      var before := Run(f, init, s[..n]);
      var (_, e) := f(before.state, s[n]);
      EditBalanced(e, s[n]);
      BalancedBeside(s[..n], before.ops, before.leases, [s[n]], Logged(e, s[n]), Kept(e, s[n]));
      assert s[..k] == s[..n] + [s[n]];
    }
  }

  /** Whatever the processor, the log it leaves accounts exactly for what it changed. */
  lemma RunBalanced<S>(f: (S, Lease) -> (S, Edit), init: S, s: seq<Lease>)
    ensures var tr := Run(f, init, s); Balanced(s, tr.ops, tr.leases)
  {
    hide *;
    RunBalancedUpTo(f, init, s, |s|);
    assert s[..|s|] == s;
  }

  /** A processor that also notes which leases it was shown. */
  function Witnessing<S>(f: (S, Lease) -> (S, Edit)): ((S, seq<Lease>), Lease) -> ((S, seq<Lease>), Edit) {
    (st: (S, seq<Lease>), l: Lease) => var (next, e) := f(st.0, l); ((next, st.1 + [l]), e)
  }

  /** Deleting while iterating skips nothing: each original lease is shown once, in order. */
  lemma {:induction false} RunVisitsEachOnce<S>(f: (S, Lease) -> (S, Edit), init: S, s: seq<Lease>)
    ensures var tr, seen := Run(f, init, s), Run(Witnessing(f), (init, []), s);
            seen.state == (tr.state, s) && seen.leases == tr.leases && seen.ops == tr.ops
  {
    hide Run, Kept, Logged;
    RunNone(f, init);
    RunNone(Witnessing(f), (init, []));
    if s != [] {
      var n := |s| - 1;
      RunVisitsEachOnce(f, init, s[..n]);
      RunStep(f, init, s, n);
      RunStep(Witnessing(f), (init, []), s, n);
      assert s[..n + 1] == s == s[..n] + [s[n]];
    }
  }

  /** The processor behind `Tx.Update`. */
  function Replacing(subject: Subject, ls: Lease): ((), Lease) -> ((), Edit) {
    (_, l: Lease) => ((), if l.subject == subject then Update(ls) else Keep)
  }

  /** The processor behind `Tx.Release`. */
  function Releasing(subject: Subject, at: Time): ((), Lease) -> ((), Edit) {
    (_, l: Lease) => ((),
      if l.subject != subject then Keep
      else if l.status.Active? then Update(l.(status := Released, released := at))
      else Delete)
  }

  /** The processor behind `Tx.Delete`. */
  function Deleting(subject: Subject): ((), Lease) -> ((), Edit) {
    (_, l: Lease) => ((), if l.subject == subject then Delete else Keep)
  }

  /** What a processor without variables leaves is what it leaves of each lease. */
  lemma {:induction false} RunLeaves(f: ((), Lease) -> ((), Edit), s: seq<Lease>, x: Lease)
    ensures x in Run(f, (), s).leases <==> exists y :: y in s && x in Kept(f((), y).1, y)
  {
    hide Run, Kept;
    RunNone(f, ());
    if s != [] {
      var n := |s| - 1;
      RunLeaves(f, s[..n], x);
      RunStep(f, (), s, n);
      assert s[..n + 1] == s == s[..n] + [s[n]];
      var before := Run(f, (), s[..n]);
      assert before.state == ();
      if x in before.leases {
        var y :| y in s[..n] && x in Kept(f((), y).1, y);
        assert y in s;
      } else if x in Run(f, (), s).leases {
        assert s[n] in s && x in Kept(f((), s[n]).1, s[n]);
      }
    }
  }

  /** What is left when a lease of the subject is replaced: the others, and the new lease if there was one. */
  lemma ReplacingLeaves(subject: Subject, ls: Lease, s: seq<Lease>, x: Lease)
    ensures x in Run(Replacing(subject, ls), (), s).leases <==>
            (x in s && x.subject != subject) || (x == ls && exists y :: y in s && y.subject == subject)
  {
    hide Run;
    var f := Replacing(subject, ls);
    RunLeaves(f, s, x);
    if x in s && x.subject != subject {
      assert x in Kept(f((), x).1, x);
    }
    if y :| y in s && y.subject == subject {
      assert ls in Kept(f((), y).1, y);
    }
  }

  /** What is left when the subject's lease is released: the others, and for an active one the same lease, released at
      the time given. */
  lemma ReleasingLeaves(subject: Subject, at: Time, s: seq<Lease>, x: Lease)
    ensures x in Run(Releasing(subject, at), (), s).leases <==>
            || (x in s && x.subject != subject)
            || (exists y :: y in s && y.subject == subject && y.status == Active
                            && x == y.(status := Released, released := at))
  {
    hide Run;
    RunLeaves(Releasing(subject, at), s, x);
  }

  /** What is left when the subject's lease is deleted: the others. */
  lemma DeletingLeaves(subject: Subject, s: seq<Lease>, x: Lease)
    ensures x in Run(Deleting(subject), (), s).leases <==> x in s && x.subject != subject
  {
    hide Run;
    RunLeaves(Deleting(subject), s, x);
  }

  class Tx {
    const resource: string
    const revision: nat
    var leases: seq<Lease>
    var ops: seq<Op>

    constructor (resource: string, revision: nat, leases: seq<Lease>)
      ensures this.resource == resource && this.revision == revision
      ensures this.leases == leases && this.ops == []
    {
      this.resource, this.revision, this.leases, this.ops := resource, revision, leases, [];
    }

    /** Carries out an edit at index `i`; the shift corrects the index of an enclosing loop. */
    method Apply(e: Edit, i: nat) returns (shift: int)
      requires i < |leases|
      modifies this
      ensures leases == old(leases[..i] + Kept(e, leases[i]) + leases[i + 1..])
      ensures ops == old(ops + Logged(e, leases[i]))
      ensures shift == |Kept(e, old(leases[i]))| - 1
    {
      shift := 0;
      match e
      case Keep =>
      case Update(ls) =>
        ops := ops + [UpdateOp(leases[i], ls)];
        leases := leases[i := ls];
      case Delete =>
        ops := ops + [DeleteOp(leases[i])];
        leases := leases[..i] + leases[i + 1..];
        shift := -1;
    }

    method Process<S>(f: (S, Lease) -> (S, Edit), init: S) returns (st: S)
      modifies this
      ensures var tr := Run(f, init, old(leases));
              st == tr.state && ops == old(ops) + tr.ops && IsSortOf(leases, tr.leases)
    {
      hide *;
      ghost var was, logged := leases, ops;
      ghost var k, tr := 0, Trace(init, [], []);
      RunNone(f, init);
      st := init;
      var i := 0;
      while i < |leases|
        invariant k <= |was| && tr == Run(f, init, was[..k])
        invariant st == tr.state && ops == logged + tr.ops
        invariant leases == tr.leases + was[k..]
        invariant i == |tr.leases|
        decreases |leases| - i
      {
        RunStep(f, init, was, k);
        var (next, e) := f(st, leases[i]);
        var shift := Apply(e, i);
        st, i := next, i + shift + 1;
        k, tr := k + 1, Run(f, init, was[..k + 1]);
      }
      assert was[..k] == was && leases == tr.leases;
      leases := Sort(leases);
    }

    /** Like the code, and unlike its comment, goes through the leases first to last. */
    method ProcessReverse<S>(f: (S, Lease) -> (S, Edit), init: S) returns (st: S)
      modifies this
      ensures var tr := Run(f, init, old(leases));
              st == tr.state && ops == old(ops) + tr.ops && IsSortOf(leases, tr.leases)
    {
      st := Process(f, init);
    }

    /** The first lease for the instance. */
    method Instance(instance: Instance) returns (found: Option<Lease>)
      ensures var k := FirstIndex(leases, Subject(resource, instance));
              found == if k < |leases| then Some(leases[k]) else None
    {
      var i := Index(leases, resource, instance);
      found := if i >= 0 then Some(leases[i]) else None;
    }

    method Create(ls: Lease)
      modifies this
      ensures ops == old(ops) + [CreateOp(ls)]
      ensures IsSortOf(leases, old(leases) + [ls])
    {
      leases := leases + [ls];
      ops := ops + [CreateOp(ls)];
      leases := Sort(leases);
    }

    method Update(instance: Instance, ls: Lease)
      modifies this
      ensures var tr := Run(Replacing(Subject(resource, instance), ls), (), old(leases));
              ops == old(ops) + tr.ops && IsSortOf(leases, tr.leases)
    {
      var _ := Process(Replacing(Subject(resource, instance), ls), ());
    }

    method Release(instance: Instance, at: Time)
      modifies this
      ensures var tr := Run(Releasing(Subject(resource, instance), at), (), old(leases));
              ops == old(ops) + tr.ops && IsSortOf(leases, tr.leases)
    {
      var _ := Process(Releasing(Subject(resource, instance), at), ());
    }

    method Delete(instance: Instance)
      modifies this
      ensures var tr := Run(Deleting(Subject(resource, instance)), (), old(leases));
              ops == old(ops) + tr.ops && IsSortOf(leases, tr.leases)
    {
      var _ := Process(Deleting(Subject(resource, instance)), ());
    }
  }
}
