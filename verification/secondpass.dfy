/** What the second pass of a refresh keeps: the counting argument behind matching by a global index. */
module SecondPasses {
  import opened Leases
  import opened Projections
  import opened LeaseSets
  import opened Transactions
  import opened Accumulators
  import opened Refreshing
  import opened FirstPasses

  function KeyBag(s: seq<Lease>): multiset<string> {
    Project(KeyOf(), s)
  }

  function Activated(s: seq<Lease>): seq<Lease> {
    seq(|s|, i requires 0 <= i < |s| => Activate(s[i]))
  }

  /** What holds before the second pass: as many replacements as are outstanding, and slots for all. */
  ghost predicate Fits(scan: Scan, mid: seq<Lease>) {
    && KeyBag(scan.replacements) == scan.ledger.replacing
    && scan.ledger.replacing <= Keys(Released, mid)
  }

  /** The variables part way: outstanding replacements, and the index, against what is left of `mid`. */
  ghost predicate Filled(scan: Scan, mid: seq<Lease>, k: nat, st: Fill)
    requires k <= |mid|
  {
    && st.ledger.replacing <= Keys(Released, mid[k..])
    && |st.ledger.replacing| + st.r == |scan.replacements|
    && st.ledger.active == scan.ledger.active && st.ledger.released == scan.ledger.released
  }

  lemma KeysFirst(st: Status, s: seq<Lease>, k: nat)
    requires k < |s|
    ensures Keys(st, s[k..]) ==
            Keys(st, s[k + 1..]) + if s[k].status == st then multiset{s[k].HostUser()} else multiset{}
  {
    hide Subject.HostUser;
    assert s[k..] == [s[k]] + s[k + 1..];
    KeysAppend(st, [s[k]], s[k + 1..]);
    ProjectOne(KeyIf(st), s[k]);
  }

  lemma FillStepFilled(scan: Scan, mid: seq<Lease>, k: nat, st: Fill)
    requires k < |mid| && Filled(scan, mid, k, st)
    ensures Filled(scan, mid, k + 1, FillStep(scan.replacements, st, mid[k]).0)
    ensures FillStep(scan.replacements, st, mid[k]).1 != Keep <==>
            mid[k].status == Released && mid[k].HostUser() in st.ledger.replacing
  {
    hide Subject.HostUser, Keys;
    KeysFirst(Released, mid, k);
    var c := mid[k].HostUser();
    if mid[k].status == Released && c in st.ledger.replacing {
      assert |st.ledger.replacing - multiset{c}| == |st.ledger.replacing| - 1;
    }
  }

  lemma NoneFilled(scan: Scan, mid: seq<Lease>)
    requires Fits(scan, mid)
    ensures Filled(scan, mid, 0, Fill(scan.ledger, 0))
  {
    hide Keys, Project;
    assert mid[0..] == mid;
    ProjectKeySize(scan.replacements);
  }

  lemma {:induction false} SecondPassFilled(scan: Scan, mid: seq<Lease>, k: nat)
    requires Fits(scan, mid) && k <= |mid|
    ensures Filled(scan, mid, k, SecondPass(scan, mid[..k]).state)
  {
    hide SecondPass, FillStep, Filled, Fits;
    SecondPassNone(scan);
    if k == 0 {
      assert mid[..0] == [];
      NoneFilled(scan, mid);
    } else {
      SecondPassFilled(scan, mid, k - 1);
      SecondPassStep(scan, mid, k - 1);
      FillStepFilled(scan, mid, k - 1, SecondPass(scan, mid[..k - 1]).state);
    }
  }

  /** No panic is reachable: a replacement is finished only while one is outstanding, the index is in
      range whenever it is used, and when the pass ends every replacement has been used. */
  lemma NoPanic(scan: Scan, mid: seq<Lease>)
    requires Fits(scan, mid)
    ensures forall k :: 0 <= k < |mid| ==>
              var st := SecondPass(scan, mid[..k]).state;
              mid[k].status == Released && mid[k].HostUser() in st.ledger.replacing ==> st.r < |scan.replacements|
    ensures SecondPass(scan, mid).state == Fill(scan.ledger.(replacing := multiset{}), |scan.replacements|)
  {
    hide SecondPass, FillStep, Keys, Subject.HostUser, Fits;
    forall k | 0 <= k < |mid|
      ensures var st := SecondPass(scan, mid[..k]).state;
              mid[k].HostUser() in st.ledger.replacing ==> st.r < |scan.replacements|
    {
      SecondPassFilled(scan, mid, k);
      var bag := SecondPass(scan, mid[..k]).state.ledger.replacing;
      if mid[k].HostUser() in bag {
        assert |bag| > 0;
      }
    }
    SecondPassFilled(scan, mid, |mid|);
    assert mid[..|mid|] == mid && mid[|mid|..] == [];
    NoKeys(Released);
  }

  lemma NoKeys(st: Status)
    ensures Keys(st, []) == multiset{}
  {
  }

  // ----------------------------------------------- what was made, and of what

  /** The leases made so far against the leases shown so far. */
  ghost predicate Moved(scan: Scan, shown: seq<Lease>, tr: Trace<Fill>) {
    && tr.state.r <= |scan.replacements|
    && Keys(Released, tr.leases) + scan.ledger.replacing == Keys(Released, shown) + tr.state.ledger.replacing
    && Keys(Active, tr.leases) == Keys(Active, shown) + KeyBag(scan.replacements[..tr.state.r])
    && Subjects(tr.leases) <= Subjects(shown) + Subjects(scan.replacements[..tr.state.r])
    && Gains(tr.ops) == multiset(Activated(scan.replacements[..tr.state.r]))
  }

  lemma KeysOne(st: Status, l: Lease)
    ensures Keys(st, [l]) == if l.status == st then multiset{l.HostUser()} else multiset{}
  {
    hide Subject.HostUser;
    ProjectOne(KeyIf(st), l);
  }

  lemma ReplacementsLast(reps: seq<Lease>, r: nat)
    requires r < |reps|
    ensures KeyBag(reps[..r + 1]) == KeyBag(reps[..r]) + multiset{reps[r].HostUser()}
    ensures Subjects(reps[..r + 1]) == Subjects(reps[..r]) + multiset{reps[r].subject}
    ensures multiset(Activated(reps[..r + 1])) == multiset(Activated(reps[..r])) + multiset{Activate(reps[r])}
  {
    hide Subject.HostUser;
    assert reps[..r + 1] == reps[..r] + [reps[r]];
    ProjectAppend(KeyOf(), reps[..r], [reps[r]]);
    ProjectOne(KeyOf(), reps[r]);
    SubjectsLast(reps, r);
    assert Activated(reps[..r + 1]) == Activated(reps[..r]) + [Activate(reps[r])];
  }

  lemma MovedKept(scan: Scan, shown: seq<Lease>, tr: Trace<Fill>, l: Lease)
    requires Moved(scan, shown, tr)
    ensures Moved(scan, shown + [l], Trace(tr.state, tr.leases + [l], tr.ops))
  {
    hide Subject.HostUser, Keys, Subjects, KeyBag, Gains, Activated;
    KeysAppend(Released, shown, [l]);
    KeysAppend(Released, tr.leases, [l]);
    KeysAppend(Active, shown, [l]);
    KeysAppend(Active, tr.leases, [l]);
    SubjectsAppend(shown, [l]);
    SubjectsAppend(tr.leases, [l]);
    AddSame(Keys(Released, tr.leases), scan.ledger.replacing,
            Keys(Released, shown), tr.state.ledger.replacing, Keys(Released, [l]));
    AddSame(Keys(Active, tr.leases), multiset{}, Keys(Active, shown),
            KeyBag(scan.replacements[..tr.state.r]), Keys(Active, [l]));
    assert Keys(Active, tr.leases) + multiset{} == Keys(Active, tr.leases);
    assert Keys(Active, tr.leases + [l]) + multiset{} == Keys(Active, tr.leases + [l]);
    BoundSame(Subjects(tr.leases), Subjects(shown), Subjects(scan.replacements[..tr.state.r]), Subjects([l]));
  }

  lemma MovedFilled(scan: Scan, shown: seq<Lease>, tr: Trace<Fill>, l: Lease)
    requires Moved(scan, shown, tr) && tr.state.r < |scan.replacements|
    requires l.status == Released && l.HostUser() in tr.state.ledger.replacing
    ensures var now := Activate(scan.replacements[tr.state.r]);
            Moved(scan, shown + [l],
                  Trace(Fill(tr.state.ledger.FinishReplacement(l.HostUser()), tr.state.r + 1),
                        tr.leases + [now], tr.ops + [UpdateOp(l, now)]))
  {
    hide Subject.HostUser, Keys, Subjects, KeyBag, Gains, Activated;
    var r := tr.state.r;
    var rep := scan.replacements[r];
    var now := Activate(rep);
    MovedKeys(shown, tr.leases, l, now);
    SubjectsAppend(shown, [l]);
    SubjectsAppend(tr.leases, [now]);
    SubjectsOne(now);
    ReplacementsLast(scan.replacements, r);
    GainsLast(tr.ops, l, now);
    ShiftOne(Keys(Released, tr.leases), scan.ledger.replacing,
             Keys(Released, shown), tr.state.ledger.replacing, l.HostUser());
    BoundSame(Subjects(tr.leases), Subjects(shown), Subjects(scan.replacements[..r]), multiset{rep.subject});
    BoundGrow(Subjects(tr.leases + [now]), Subjects(shown), Subjects([l]), Subjects(scan.replacements[..r + 1]));
    assert (Keys(Active, shown) + KeyBag(scan.replacements[..r])) + multiset{rep.HostUser()} ==
           Keys(Active, shown) + (KeyBag(scan.replacements[..r]) + multiset{rep.HostUser()});
  }

  lemma GainsLast(ops: seq<Op>, l: Lease, now: Lease)
    ensures Gains(ops + [UpdateOp(l, now)]) == Gains(ops) + multiset{now}
  {
    ProjectAppend(CreatedBy(), ops, [UpdateOp(l, now)]);
    ProjectOne(CreatedBy(), UpdateOp(l, now));
  }

  lemma AddSame<U>(a: multiset<U>, r: multiset<U>, b: multiset<U>, q: multiset<U>, x: multiset<U>)
    requires a + r == b + q
    ensures (a + x) + r == (b + x) + q
  {
    assert (a + x) + r == (a + r) + x;
    assert (b + x) + q == (b + q) + x;
  }

  lemma ShiftOne<U>(a: multiset<U>, r: multiset<U>, b: multiset<U>, q: multiset<U>, u: U)
    requires a + r == b + q && u in q
    ensures a + r == (b + multiset{u}) + (q - multiset{u})
  {
    assert (b + multiset{u}) + (q - multiset{u}) == b + q;
  }

  lemma BoundSame<U>(a: multiset<U>, b: multiset<U>, q: multiset<U>, x: multiset<U>)
    requires a <= b + q
    ensures a + x <= (b + x) + q && a + x <= b + (q + x)
  {
    assert (b + x) + q == (b + q) + x == b + (q + x);
  }

  lemma BoundGrow<U>(a: multiset<U>, b: multiset<U>, x: multiset<U>, q: multiset<U>)
    requires a <= b + q
    ensures a <= (b + x) + q
  {
  }

  lemma MovedKeys(shown: seq<Lease>, made: seq<Lease>, l: Lease, now: Lease)
    requires l.status == Released && now.status == Active
    ensures Keys(Released, shown + [l]) == Keys(Released, shown) + multiset{l.HostUser()}
    ensures Keys(Active, shown + [l]) == Keys(Active, shown)
    ensures Keys(Released, made + [now]) == Keys(Released, made)
    ensures Keys(Active, made + [now]) == Keys(Active, made) + multiset{now.HostUser()}
  {
    hide Keys, Subject.HostUser;
    KeysAppend(Released, shown, [l]);
    KeysAppend(Active, shown, [l]);
    KeysAppend(Released, made, [now]);
    KeysAppend(Active, made, [now]);
    KeysOne(Released, l);
    KeysOne(Active, l);
    KeysOne(Released, now);
    KeysOne(Active, now);
  }

  lemma {:induction false} SecondPassMoved(scan: Scan, mid: seq<Lease>, k: nat)
    requires Fits(scan, mid) && k <= |mid|
    ensures Moved(scan, mid[..k], SecondPass(scan, mid[..k]))
  {
    hide SecondPass, Moved, Fits, Filled, Subject.HostUser;
    SecondPassNone(scan);
    if k == 0 {
      assert mid[..0] == [];
      NoneMoved(scan);
    } else {
      var n := k - 1;
      SecondPassMoved(scan, mid, n);
      SecondPassStep(scan, mid, n);
      SecondPassFilled(scan, mid, n);
      var before := SecondPass(scan, mid[..n]);
      assert mid[..k] == mid[..n] + [mid[n]];
      if mid[n].status == Released && mid[n].HostUser() in before.state.ledger.replacing {
        FilledInRange(scan, mid, n, before.state);
        MovedFilled(scan, mid[..n], before, mid[n]);
      } else {
        MovedKept(scan, mid[..n], before, mid[n]);
        assert before.ops + [] == before.ops;
      }
    }
  }

  lemma NoneMoved(scan: Scan)
    ensures Moved(scan, [], Trace(Fill(scan.ledger, 0), [], []))
  {
    assert scan.replacements[..0] == [];
    assert Activated([]) == [];
  }

  lemma FilledInRange(scan: Scan, mid: seq<Lease>, k: nat, st: Fill)
    requires k < |mid| && Filled(scan, mid, k, st) && mid[k].HostUser() in st.ledger.replacing
    ensures st.r < |scan.replacements|
  {
    hide Subject.HostUser, Keys;
    assert |st.ledger.replacing| > 0;
  }

  /** What the second pass makes of `mid`: every consumer gives up exactly as many released slots as it
      has replacements, although `replacements[r]` may go into a slot of another consumer. */
  lemma SecondPassCounts(scan: Scan, mid: seq<Lease>)
    requires Fits(scan, mid)
    ensures var second := SecondPass(scan, mid);
            && Keys(Released, second.leases) + scan.ledger.replacing == Keys(Released, mid)
            && Keys(Active, second.leases) == Keys(Active, mid) + scan.ledger.replacing
            && Subjects(second.leases) <= Subjects(mid) + Subjects(scan.replacements)
            && multiset(second.leases) + Losses(second.ops) == multiset(mid) + multiset(Activated(scan.replacements))
  {
    hide SecondPass, Keys, Subjects, Activated, Gains, Losses;
    NoPanic(scan, mid);
    SecondPassMoved(scan, mid, |mid|);
    assert mid[..|mid|] == mid;
    assert scan.replacements[..|scan.replacements|] == scan.replacements;
    RunBalanced(Filling(scan.replacements), Fill(scan.ledger, 0), mid);
    assert SecondPass(scan, mid) == Run(Filling(scan.replacements), Fill(scan.ledger, 0), mid) by {
      SecondPassIs(scan, mid);
    }
  }

  lemma SecondPassIs(scan: Scan, mid: seq<Lease>)
    ensures SecondPass(scan, mid) == Run(Filling(scan.replacements), Fill(scan.ledger, 0), mid)
  {
    hide Run, Filling;
  }
}
