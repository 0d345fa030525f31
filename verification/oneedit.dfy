/** Edits that touch the lease of one subject: what they do to a set and to its log. */
module OneEdits {
  import opened Leases
  import opened Projections
  import opened LeaseSets
  import opened Transactions
  import opened Replays
  import opened FirstPasses

  /** A processor that leaves every lease but the subject's alone. */
  ghost predicate Targets(f: ((), Lease) -> ((), Edit), subject: Subject) {
    forall l: Lease :: l.subject != subject ==> f((), l) == ((), Keep)
  }

  lemma {:induction false} RunUntouched(f: ((), Lease) -> ((), Edit), subject: Subject, s: seq<Lease>, k: nat)
    requires Targets(f, subject) && k <= |s| && forall i :: 0 <= i < k ==> s[i].subject != subject
    ensures Run(f, (), s[..k]) == Trace((), s[..k], [])
  {
    hide Run, Kept, Logged;
    RunNone(f, ());
    if k == 0 {
      assert s[..0] == [];
    } else {
      RunUntouched(f, subject, s, k - 1);
      RunStep(f, (), s, k - 1);
      KeepKeeps(s[k - 1]);
      assert s[..k] == s[..k - 1] + [s[k - 1]];
    }
  }

  lemma KeepKeeps(l: Lease)
    ensures Kept(Keep, l) == [l] && Logged(Keep, l) == []
  {
  }

  lemma {:induction false} RunTargeted(f: ((), Lease) -> ((), Edit), subject: Subject, s: seq<Lease>, k: nat, n: nat)
    requires Targets(f, subject) && k < n <= |s| && s[k].subject == subject
    requires forall i :: 0 <= i < n && i != k ==> s[i].subject != subject
    ensures var e := f((), s[k]).1;
            Run(f, (), s[..n]) == Trace((), s[..k] + Kept(e, s[k]) + s[k + 1..n], Logged(e, s[k]))
  {
    hide Run, Kept, Logged;
    var last := n - 1;
    RunStep(f, (), s, last);
    if last == k {
      RunUntouched(f, subject, s, k);
      assert f((), s[k]).0 == ();
    } else {
      RunTargeted(f, subject, s, k, last);
      KeepKeeps(s[last]);
      assert s[k + 1..n] == s[k + 1..last] + [s[last]];
    }
  }

  /** Among unique leases such a processor edits at most one: the first match. */
  lemma TargetedRun(f: ((), Lease) -> ((), Edit), subject: Subject, s: seq<Lease>)
    requires Targets(f, subject) && Unique(s)
    ensures var k := FirstIndex(s, subject);
            Run(f, (), s) ==
            if k == |s| then Trace((), s, [])
            else var e := f((), s[k]).1; Trace((), s[..k] + Kept(e, s[k]) + s[k + 1..], Logged(e, s[k]))
  {
    hide Run, Unique, FirstIndex, Kept, Logged;
    var k := FirstIndex(s, subject);
    assert s[..|s|] == s;
    if k == |s| {
      RunUntouched(f, subject, s, |s|);
    } else {
      forall i | 0 <= i < |s| && i != k ensures s[i].subject != subject {
        if s[i].subject == subject {
          UniqueIndex(s, i, k);
        }
      }
      RunTargeted(f, subject, s, k, |s|);
    }
  }

  /** The log of putting `ys` in the place of `xs`. */
  function SwapOps(xs: seq<Lease>, ys: seq<Lease>): seq<Op>
    requires |xs| <= 1 && |ys| <= 1
  {
    if xs == [] then (if ys == [] then [] else [CreateOp(ys[0])])
    else if ys == [] then [DeleteOp(xs[0])]
    else [UpdateOp(xs[0], ys[0])]
  }

  /** `t` is `u`, sorted, with at most one lease taken out and at most one put in. */
  ghost predicate Swaps(u: seq<Lease>, xs: seq<Lease>, ys: seq<Lease>, t: seq<Lease>, ops: seq<Op>) {
    && |xs| <= 1 && |ys| <= 1
    && (forall x :: x in xs ==> x in u)
    && multiset(t + xs) == multiset(u + ys)
    && ops == SwapOps(xs, ys)
    && Sorted(t)
  }

  lemma EditSwaps(x: Lease, e: Edit)
    requires e != Keep
    ensures |Kept(e, x)| <= 1 && Logged(e, x) == SwapOps([x], Kept(e, x))
  {
  }

  lemma EditBags(u: seq<Lease>, k: nat, ys: seq<Lease>, t: seq<Lease>)
    requires k < |u| && multiset(t) == multiset(u[..k] + ys + u[k + 1..])
    ensures multiset(t + [u[k]]) == multiset(u + ys)
  {
    assert u == u[..k] + [u[k]] + u[k + 1..];
  }

  lemma TargetedSwaps(f: ((), Lease) -> ((), Edit), subject: Subject, u: seq<Lease>, k: nat, t: seq<Lease>)
    requires Targets(f, subject) && Unique(u) && k == FirstIndex(u, subject) && k < |u|
    requires f((), u[k]).1 != Keep && IsSortOf(t, Run(f, (), u).leases)
    ensures Swaps(u, [u[k]], Kept(f((), u[k]).1, u[k]), t, Run(f, (), u).ops)
  {
    hide Run, Unique, Sorted, FirstIndex, Kept, Logged, SwapOps, Targets;
    TargetedRun(f, subject, u);
    var e := f((), u[k]).1;
    EditSwaps(u[k], e);
    EditBags(u, k, Kept(e, u[k]), t);
  }

  lemma SwapSubjects(u: seq<Lease>, xs: seq<Lease>, ys: seq<Lease>, t: seq<Lease>, ops: seq<Op>)
    requires Swaps(u, xs, ys, t, ops)
    ensures Subjects(t) + Subjects(xs) == Subjects(u) + Subjects(ys)
  {
    hide Subjects, Sorted;
    SubjectsPermutation(t + xs, u + ys);
    SubjectsAppend(t, xs);
    SubjectsAppend(u, ys);
  }

  lemma SwapUnique(u: seq<Lease>, xs: seq<Lease>, ys: seq<Lease>, t: seq<Lease>, ops: seq<Op>)
    requires Swaps(u, xs, ys, t, ops) && Unique(u)
    requires forall y :: y in ys ==> y.subject !in Subjects(u) || (xs != [] && xs[0].subject == y.subject)
    ensures Unique(t)
  {
    hide Subjects, Sorted, SwapOps;
    SwapSubjects(u, xs, ys, t, ops);
    NoSubjects();
    if xs != [] {
      SubjectsOne(xs[0]);
      assert xs == [xs[0]];
    }
    if ys != [] {
      SubjectsOne(ys[0]);
      assert ys == [ys[0]] && ys[0] in ys;
    }
    forall x ensures Subjects(t)[x] <= 1 {
      assert (Subjects(t) + Subjects(xs))[x] == (Subjects(u) + Subjects(ys))[x];
      assert Subjects(u)[x] <= 1;
    }
  }

  lemma SwapHolders(u: seq<Lease>, xs: seq<Lease>, ys: seq<Lease>, t: seq<Lease>, ops: seq<Op>)
    requires Swaps(u, xs, ys, t, ops)
    ensures Holders(t) + Holders(xs) == Holders(u) + Holders(ys)
  {
    hide Holders, Sorted;
    HoldersPermutation(t + xs, u + ys);
    HoldersAppend(t, xs);
    HoldersAppend(u, ys);
  }

  lemma HoldersAppend(a: seq<Lease>, b: seq<Lease>)
    ensures Holders(a + b) == Holders(a) + Holders(b)
  {
    hide Keys;
    KeysAppend(Active, a, b);
    KeysAppend(Released, a, b);
  }

  lemma HoldersOne(l: Lease)
    ensures Holders([l]) == if l.Consumptive() then multiset{l.HostUser()} else multiset{}
    ensures Holders([]) == multiset{}
  {
    hide Subject.HostUser, Project;
    ProjectOne(KeyIf(Active), l);
    ProjectOne(KeyIf(Released), l);
    ProjectNone(KeyIf(Active));
    ProjectNone(KeyIf(Released));
  }

  lemma SwapBalanced(u: seq<Lease>, xs: seq<Lease>, ys: seq<Lease>, t: seq<Lease>, ops: seq<Op>)
    requires Swaps(u, xs, ys, t, ops)
    ensures Balanced(u, ops, t)
  {
    hide Sorted, SwapOps, Gains, Losses;
    SwapGains(xs, ys);
    assert multiset(t + xs) == multiset(t) + multiset(xs);
    assert multiset(u + ys) == multiset(u) + multiset(ys);
  }

  lemma SwapGains(xs: seq<Lease>, ys: seq<Lease>)
    requires |xs| <= 1 && |ys| <= 1
    ensures Gains(SwapOps(xs, ys)) == multiset(ys) && Losses(SwapOps(xs, ys)) == multiset(xs)
  {
    hide Project;
    assert xs == [] || xs == [xs[0]];
    assert ys == [] || ys == [ys[0]];
    ProjectNone(CreatedBy());
    ProjectNone(RemovedBy());
    var ops := SwapOps(xs, ys);
    if ops != [] {
      assert ops == [ops[0]];
      ProjectOne(CreatedBy(), ops[0]);
      ProjectOne(RemovedBy(), ops[0]);
    }
  }

  lemma SwapReplays(u: seq<Lease>, xs: seq<Lease>, ys: seq<Lease>, t: seq<Lease>, ops: seq<Op>,
                    base: seq<Lease>, logged: seq<Op>)
    requires Swaps(u, xs, ys, t, ops) && Unique(u) && ReplaysTo(base, logged, u)
    ensures ReplaysTo(base, logged + ops, t)
  {
    hide Sorted, Unique, Replay;
    if xs == [] {
      if ys == [] {
        assert logged + ops == logged && t + xs == t && u + ys == u;
      } else {
        assert ys == [ys[0]] && t + xs == t;
        ReplayCreate(base, logged, u, ys[0]);
      }
    } else {
      assert xs == [xs[0]];
      SwapReplaysOut(u, xs[0], ys, t, base, logged);
    }
  }

  lemma ReplayCreate(base: seq<Lease>, logged: seq<Op>, u: seq<Lease>, y: Lease)
    requires ReplaysTo(base, logged, u)
    ensures ReplaysTo(base, logged + [CreateOp(y)], u + [y])
  {
    hide Replay;
    ReplayOne(base, logged, CreateOp(y));
  }

  lemma SwapReplaysOut(u: seq<Lease>, x: Lease, ys: seq<Lease>, t: seq<Lease>, base: seq<Lease>, logged: seq<Op>)
    requires |ys| <= 1 && x in u && multiset(t + [x]) == multiset(u + ys)
    requires Unique(u) && ReplaysTo(base, logged, u)
    ensures ReplaysTo(base, logged + SwapOps([x], ys), t)
  {
    hide Unique, ReplaysTo, Kept, Logged;
    var i :| 0 <= i < |u| && u[i] == x;
    var e := if ys == [] then Delete else Update(ys[0]);
    assert u == u[..i] + [x] + u[i + 1..];
    ReplayEdit(base, logged, u[..i], x, u[i + 1..], e);
    SwapBags(u, i, ys, t);
    SwapEdit(x, ys);
    ReplaysPermuted(base, logged + SwapOps([x], ys), u[..i] + Kept(e, x) + u[i + 1..], t);
  }

  lemma SwapEdit(x: Lease, ys: seq<Lease>)
    requires |ys| <= 1
    ensures var e := if ys == [] then Delete else Update(ys[0]); Kept(e, x) == ys && Logged(e, x) == SwapOps([x], ys)
  {
  }

  lemma SwapBags(u: seq<Lease>, i: nat, ys: seq<Lease>, t: seq<Lease>)
    requires i < |u| && multiset(t + [u[i]]) == multiset(u + ys)
    ensures multiset(u[..i] + ys + u[i + 1..]) == multiset(t)
  {
    assert u == u[..i] + [u[i]] + u[i + 1..];
    assert multiset(t) == multiset(t + [u[i]]) - multiset{u[i]};
    assert multiset(u[..i] + ys + u[i + 1..]) == multiset(u + ys) - multiset{u[i]};
  }

  lemma ReplaysPermuted(base: seq<Lease>, logged: seq<Op>, a: seq<Lease>, b: seq<Lease>)
    requires ReplaysTo(base, logged, a) && multiset(a) == multiset(b)
    ensures ReplaysTo(base, logged, b)
  {
  }

  /** What is not taken out stays, and what is put in is there. */
  lemma SwapMembers(u: seq<Lease>, xs: seq<Lease>, ys: seq<Lease>, t: seq<Lease>, ops: seq<Op>, x: Lease)
    requires Swaps(u, xs, ys, t, ops) && x !in xs
    ensures x in t <==> x in u || x in ys
  {
    hide Sorted, SwapOps;
    SameElements(t + xs, u + ys, x);
  }
}
