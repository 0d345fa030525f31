/** Replaying an operation log, as the in-memory provider does, by first match on the subject. */
module Replays {
  import opened Leases
  import opened LeaseSets
  import opened Transactions

  function ApplyOp(s: seq<Lease>, op: Op): seq<Lease> {
    match op
    case CreateOp(l) => s + [l]
    case UpdateOp(p, l) =>
      var i := FirstIndex(s, p.subject);
      if i < |s| then s[i := l] else s
    case DeleteOp(p) =>
      var i := FirstIndex(s, p.subject);
      if i < |s| then s[..i] + s[i + 1..] else s
  }

  function Replay(s: seq<Lease>, ops: seq<Op>): seq<Lease> {
    if ops == [] then s
    else ApplyOp(Replay(s, ops[..|ops| - 1]), ops[|ops| - 1])
  }

  /** Replaying the log on `base` gives the leases of `t`, in some order. */
  ghost predicate ReplaysTo(base: seq<Lease>, ops: seq<Op>, t: seq<Lease>) {
    multiset(Replay(base, ops)) == multiset(t)
  }

  lemma ReplayOne(base: seq<Lease>, ops: seq<Op>, op: Op)
    ensures Replay(base, ops + [op]) == ApplyOp(Replay(base, ops), op)
  {
    assert (ops + [op])[..|ops|] == ops;
  }

  lemma RemoveAt(s: seq<Lease>, i: nat)
    requires i < |s|
    ensures multiset(s[..i] + s[i + 1..]) == multiset(s) - multiset{s[i]}
  {
    assert s == s[..i] + [s[i]] + s[i + 1..];
  }

  /** Among unique leases the first match is the lease meant, whatever the order. */
  lemma ApplyEdit(s: seq<Lease>, l: Lease, e: Edit)
    requires Unique(s) && l in s && e != Keep
    ensures multiset(ApplyOp(s, Logged(e, l)[0])) == multiset(s) - multiset{l} + multiset(Kept(e, l))
  {
    hide Unique, Subjects, FirstIndex;
    var i := FirstIndex(s, l.subject);
    var j :| 0 <= j < |s| && s[j] == l;
    UniqueIndex(s, i, j);
    if e.Delete? {
      RemoveAt(s, i);
    }
  }

  /** An update or deletion of a lease that is not there is passed over; a creation always adds its lease. */
  lemma ApplyAbsent(s: seq<Lease>, op: Op)
    requires !op.CreateOp? ==> forall x :: x in s ==> x.subject != op.previous.subject
    ensures ApplyOp(s, op) == if op.CreateOp? then s + [op.lease] else s
  {
  }

  /** Every set met while a run is under way, done leases first, is unique. */
  ghost predicate Tidy<S>(f: (S, Lease) -> (S, Edit), init: S, s: seq<Lease>) {
    forall k :: 0 <= k <= |s| ==> Unique(Run(f, init, s[..k]).leases + s[k..])
  }

  lemma ReplayEdit(base: seq<Lease>, ops: seq<Op>, done: seq<Lease>, l: Lease, rest: seq<Lease>, e: Edit)
    requires ReplaysTo(base, ops, done + [l] + rest)
    requires Unique(done + [l] + rest)
    ensures ReplaysTo(base, ops + Logged(e, l), done + Kept(e, l) + rest)
  {
    hide Unique, Subjects, Replay, ApplyOp;
    var now := Replay(base, ops);
    if e == Keep {
      assert ops + Logged(e, l) == ops;
    } else {
      UniquePermutation(done + [l] + rest, now);
      assert l in multiset(now);
      ApplyEdit(now, l, e);
      ReplayOne(base, ops, Logged(e, l)[0]);
    }
  }

  lemma RunReplaysStep(e: Edit, s: seq<Lease>, k: nat, base: seq<Lease>, logged: seq<Op>, done: seq<Lease>)
    requires k < |s| && Unique(done + s[k..])
    requires ReplaysTo(base, logged, done + s[k..])
    ensures ReplaysTo(base, logged + Logged(e, s[k]), done + Kept(e, s[k]) + s[k + 1..])
  {
    assert done + s[k..] == done + [s[k]] + s[k + 1..];
    ReplayEdit(base, logged, done, s[k], s[k + 1..], e);
  }

  lemma {:induction false} RunReplaysUpTo<S>(f: (S, Lease) -> (S, Edit), init: S, s: seq<Lease>, k: nat,
                                             base: seq<Lease>, ops: seq<Op>)
    requires Tidy(f, init, s) && k <= |s|
    requires ReplaysTo(base, ops, s)
    ensures ReplaysTo(base, ops + Run(f, init, s[..k]).ops, Run(f, init, s[..k]).leases + s[k..])
  {
    hide Run, Replay, Unique, Kept, Logged;
    RunNone(f, init);
    if k == 0 {
      assert s[..0] == [];
      assert ops + [] == ops && [] + s[0..] == s;
    } else {
      RunReplaysUpTo(f, init, s, k - 1, base, ops);
      var before := Run(f, init, s[..k - 1]);
      var e := f(before.state, s[k - 1]).1;
      RunReplaysStep(e, s, k - 1, base, ops + before.ops, before.leases);
      RunStep(f, init, s, k - 1);
      assert ops + before.ops + Logged(e, s[k - 1]) == ops + (before.ops + Logged(e, s[k - 1]));
    }
  }

  /** Replaying the log of a tidy run gives what the run made. */
  lemma RunReplays<S>(f: (S, Lease) -> (S, Edit), init: S, s: seq<Lease>, base: seq<Lease>, ops: seq<Op>)
    requires Tidy(f, init, s) && ReplaysTo(base, ops, s)
    ensures var tr := Run(f, init, s); ReplaysTo(base, ops + tr.ops, tr.leases)
  {
    hide Run, Replay, Tidy, ReplaysTo;
    RunReplaysUpTo(f, init, s, |s|, base, ops);
    assert s[..|s|] == s;
    assert Run(f, init, s).leases + s[|s|..] == Run(f, init, s).leases;
  }

  /** Two leases for one subject are enough to make the replay go wrong: it edits the first of
      them, while the transaction edited the second. */
  lemma ReplayNeedsUnique(l: Lease)
    requires l.status.Active?
    ensures var other := l.(status := Queued);
            var s := [l, other];
            !ReplaysTo(s, Logged(Delete, other), [l])
  {
    var other := l.(status := Queued);
    var s := [l, other];
    ReplayOne(s, [], DeleteOp(other));
    assert [] + [DeleteOp(other)] == Logged(Delete, other);
    assert FirstIndex(s, other.subject) == 0;
    assert Replay(s, [DeleteOp(other)]) == [other];
    assert other in multiset([other]) && other !in multiset([l]);
  }
}
