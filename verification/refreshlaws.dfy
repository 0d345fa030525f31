/** What a whole refresh keeps, whatever order sorting leaves ties in. */
module RefreshLaws {
  import opened Leases
  import opened Projections
  import opened LeaseSets
  import opened Transactions
  import opened Replays
  import opened Accumulators
  import opened Refreshing
  import opened FirstPasses
  import opened FirstPassCounts
  import opened SecondPasses

  /** The ledger that a recount of the set gives. */
  function LedgerOf(s: seq<Lease>): Ledger {
    Ledger(Keys(Active, s), Keys(Released, s), multiset{})
  }

  lemma FirstPassFits(at: Time, s: seq<Lease>, mid: seq<Lease>)
    requires IsSortOf(mid, FirstPass(at, s).leases)
    ensures Fits(FirstPass(at, s).state, mid)
    ensures var led := FirstPass(at, s).state.ledger;
            led.active == Keys(Active, mid) + led.replacing && Keys(Released, mid) == led.released + led.replacing
  {
    hide FirstPass, Sorted, Keys, Project;
    FirstPassAgrees(at, s);
    KeysPermutation(Active, mid, FirstPass(at, s).leases);
    KeysPermutation(Released, mid, FirstPass(at, s).leases);
  }

  lemma RefreshSorted(s: seq<Lease>, at: Time, t: seq<Lease>, ops: seq<Op>, led: Ledger)
    requires Refreshes(s, at, t, ops, led)
    ensures Sorted(t)
  {
    hide FirstPass, SecondPass, Sorted;
  }

  /** After a refresh the accumulator is what a recount of the resulting set gives: its total is the
      consumption under every strategy, and its counts are those of each consumer. */
  lemma AccumulatorRecounts(s: seq<Lease>, at: Time, t: seq<Lease>, ops: seq<Op>, led: Ledger)
    requires Refreshes(s, at, t, ops, led)
    ensures led == LedgerOf(t)
    ensures forall strat :: led.Total(strat) == Consumption(strat, t)
  {
    hide FirstPass, SecondPass, Keys, Sorted, Size, Fits;
    var mid :| RefreshesVia(s, at, mid, t, ops, led);
    var first := FirstPass(at, s);
    FirstPassFits(at, s, mid);
    if first.state.ledger.replacing != multiset{} {
      var second := SecondPass(first.state, mid);
      NoPanic(first.state, mid);
      SecondPassCounts(first.state, mid);
      KeysPermutation(Active, t, second.leases);
      KeysPermutation(Released, t, second.leases);
      Cancel(Keys(Released, t), led.released, first.state.ledger.replacing);
    }
  }

  lemma Cancel<U>(a: multiset<U>, b: multiset<U>, q: multiset<U>)
    requires a + q == b + q
    ensures a == b
  {
    assert (a + q) - q == a && (b + q) - q == b;
  }

  /** The log accounts for all that a refresh changes. */
  lemma RefreshBalanced(s: seq<Lease>, at: Time, t: seq<Lease>, ops: seq<Op>, led: Ledger)
    requires Refreshes(s, at, t, ops, led)
    ensures Balanced(s, ops, t)
  {
    hide FirstPass, SecondPass, Sorted, Gains, Losses;
    var mid :| RefreshesVia(s, at, mid, t, ops, led);
    var first := FirstPass(at, s);
    FirstPassBalanced(at, s);
    if first.state.ledger.replacing != multiset{} {
      SecondPassBalanced(first.state, mid);
      BalancedThen(s, first.ops, mid, SecondPass(first.state, mid).ops, t);
    }
  }

  lemma FirstPassBalanced(at: Time, s: seq<Lease>)
    ensures Balanced(s, FirstPass(at, s).ops, FirstPass(at, s).leases)
  {
    hide Balanced, Run, Scanning;
    RunBalanced(Scanning(at), SCAN_START, s);
  }

  lemma SecondPassBalanced(scan: Scan, mid: seq<Lease>)
    ensures Balanced(mid, SecondPass(scan, mid).ops, SecondPass(scan, mid).leases)
  {
    hide Balanced, Run, Filling;
    RunBalanced(Filling(scan.replacements), Fill(scan.ledger, 0), mid);
  }

  // ------------------------------------------------- identity and replay

  /** No subject appears out of nowhere, and none is doubled. */
  lemma RefreshSubjects(s: seq<Lease>, at: Time, t: seq<Lease>, ops: seq<Op>, led: Ledger)
    requires Refreshes(s, at, t, ops, led)
    ensures Subjects(t) <= Subjects(s)
  {
    hide FirstPass, SecondPass, Sorted, Subjects, Fits;
    var mid :| RefreshesVia(s, at, mid, t, ops, led);
    var first := FirstPass(at, s);
    FirstPassFits(at, s, mid);
    FirstPassSubjects(at, s, |s|);
    assert s[..|s|] == s;
    SubjectsPermutation(mid, first.leases);
    if first.state.ledger.replacing != multiset{} {
      var second := SecondPass(first.state, mid);
      SecondPassCounts(first.state, mid);
      SubjectsPermutation(t, second.leases);
    }
  }

  lemma FirstPassTidy(at: Time, s: seq<Lease>)
    requires Unique(s)
    ensures Tidy(Scanning(at), SCAN_START, s)
  {
    hide Unique, Subjects, Run, Scanning;
    forall k | 0 <= k <= |s| ensures Unique(Run(Scanning(at), SCAN_START, s[..k]).leases + s[k..]) {
      var made := FirstPass(at, s[..k]).leases;
      FirstPassSubjects(at, s, k);
      SubjectsAppend(made, s[k..]);
      SubjectsAppend(s[..k], s[k..]);
      assert s == s[..k] + s[k..];
      UniqueBelow(made + s[k..], s);
    }
  }

  lemma SecondPassTidy(scan: Scan, mid: seq<Lease>, s: seq<Lease>)
    requires Unique(s) && Fits(scan, mid)
    requires Subjects(mid) + Subjects(scan.replacements) <= Subjects(s)
    ensures Tidy(Filling(scan.replacements), Fill(scan.ledger, 0), mid)
  {
    hide Unique, Subjects, Run, Filling, Fits, Keys, Activated, Gains, KeyBag;
    forall k | 0 <= k <= |mid|
      ensures Unique(Run(Filling(scan.replacements), Fill(scan.ledger, 0), mid[..k]).leases + mid[k..])
    {
      var tr := SecondPass(scan, mid[..k]);
      SecondPassMoved(scan, mid, k);
      var reps := scan.replacements;
      SubjectsAppend(tr.leases, mid[k..]);
      SubjectsAppend(mid[..k], mid[k..]);
      assert mid == mid[..k] + mid[k..];
      SubjectsAppend(reps[..tr.state.r], reps[tr.state.r..]);
      assert reps == reps[..tr.state.r] + reps[tr.state.r..];
      assert Subjects(tr.leases + mid[k..]) <= Subjects(mid) + Subjects(reps);
      UniqueBelow(tr.leases + mid[k..], s);
    }
  }

  /** Replaying the log of a refresh, first match by first match, makes the same leases. */
  lemma RefreshReplays(s: seq<Lease>, at: Time, t: seq<Lease>, ops: seq<Op>, led: Ledger,
                       base: seq<Lease>, logged: seq<Op>)
    requires Refreshes(s, at, t, ops, led) && Unique(s) && ReplaysTo(base, logged, s)
    ensures ReplaysTo(base, logged + ops, t)
  {
    hide FirstPass, SecondPass, Sorted, Subjects, Unique, Fits, Replay, Tidy;
    var mid :| RefreshesVia(s, at, mid, t, ops, led);
    var first := FirstPass(at, s);
    FirstPassReplays(at, s, base, logged);
    if first.state.ledger.replacing != multiset{} {
      FirstPassFits(at, s, mid);
      FirstPassSubjects(at, s, |s|);
      assert s[..|s|] == s;
      SubjectsPermutation(mid, first.leases);
      SecondPassReplays(first.state, mid, s, base, logged + first.ops);
      assert logged + first.ops + SecondPass(first.state, mid).ops == logged + ops;
    }
  }

  lemma FirstPassReplays(at: Time, s: seq<Lease>, base: seq<Lease>, logged: seq<Op>)
    requires Unique(s) && ReplaysTo(base, logged, s)
    ensures ReplaysTo(base, logged + FirstPass(at, s).ops, FirstPass(at, s).leases)
  {
    hide Unique, Run, Scanning, ReplaysTo, Tidy;
    FirstPassTidy(at, s);
    RunReplays(Scanning(at), SCAN_START, s, base, logged);
  }

  lemma SecondPassReplays(scan: Scan, mid: seq<Lease>, s: seq<Lease>, base: seq<Lease>, logged: seq<Op>)
    requires Unique(s) && Fits(scan, mid) && ReplaysTo(base, logged, mid)
    requires Subjects(mid) + Subjects(scan.replacements) <= Subjects(s)
    ensures ReplaysTo(base, logged + SecondPass(scan, mid).ops, SecondPass(scan, mid).leases)
  {
    hide Unique, Run, Filling, ReplaysTo, Tidy, Fits, Subjects;
    SecondPassTidy(scan, mid, s);
    RunReplays(Filling(scan.replacements), Fill(scan.ledger, 0), mid, base, logged);
  }

  // --------------------------------------------------------------- origins

  /** Every lease left by a refresh comes from one that was there: as it was, expired, or activated. */
  lemma RefreshOrigins(s: seq<Lease>, at: Time, t: seq<Lease>, ops: seq<Op>, led: Ledger)
    requires Refreshes(s, at, t, ops, led)
    ensures forall x :: x in t ==> Scanned(at, s, x)
  {
    hide FirstPass, SecondPass, Sorted, Fits, Scanned, Activated, Losses, Keys, Subjects;
    var mid :| RefreshesVia(s, at, mid, t, ops, led);
    var first := FirstPass(at, s);
    FirstPassFits(at, s, mid);
    FirstPassOrigins(at, s, |s|);
    assert s[..|s|] == s;
    if first.state.ledger.replacing != multiset{} {
      SecondPassCounts(first.state, mid);
      var second := SecondPass(first.state, mid);
      forall x | x in t ensures Scanned(at, s, x) {
        SameElements(t, second.leases, x);
        assert x in multiset(second.leases) + Losses(second.ops);
        if x in multiset(mid) {
          SameElements(mid, first.leases, x);
        } else {
          ActivatedOrigin(at, s, first.state.replacements, x);
        }
      }
    } else {
      forall x | x in t ensures Scanned(at, s, x) {
        SameElements(t, first.leases, x);
      }
    }
  }

  lemma ActivatedOrigin(at: Time, s: seq<Lease>, reps: seq<Lease>, x: Lease)
    requires forall l :: l in reps ==> l in s && l.status.Queued? && !l.Expired(at)
    requires x in multiset(Activated(reps))
    ensures Scanned(at, s, x)
  {
    var i :| 0 <= i < |reps| && Activated(reps)[i] == x;
    assert reps[i] in s && ScansTo(at, reps[i], x);
  }

  ghost predicate AllWellFormed(s: seq<Lease>) {
    forall x :: x in s ==> x.WellFormed()
  }

  lemma ScansToWellFormed(at: Time, l: Lease, x: Lease)
    requires ScansTo(at, l, x) && l.WellFormed()
    ensures x.WellFormed()
    ensures x.subject == l.subject && x.strategy == l.strategy && x.limit == l.limit
    ensures x.started == l.started && x.renewed == l.renewed && x.duration == l.duration
  {
  }

  lemma RefreshWellFormed(s: seq<Lease>, at: Time, t: seq<Lease>, ops: seq<Op>, led: Ledger)
    requires Refreshes(s, at, t, ops, led) && AllWellFormed(s)
    ensures AllWellFormed(t)
    ensures forall strat, limit :: Uniform(strat, limit, s) ==> Uniform(strat, limit, t)
    ensures forall x :: x in t ==> exists l :: l in s && l.subject == x.subject && (x.status.Queued? ==> x == l)
  {
    hide Refreshes;
    RefreshOrigins(s, at, t, ops, led);
    forall x | x in t
      ensures exists l :: l in s && ScansTo(at, l, x) && l.WellFormed() && x.WellFormed()
                          && x.subject == l.subject && x.strategy == l.strategy && x.limit == l.limit
                          && (x.status.Queued? ==> x == l)
    {
      var l :| l in s && ScansTo(at, l, x);
      ScansToWellFormed(at, l, x);
    }
  }

  // ---------------------------------------------------------- settled sets

  /** Nothing is left to do at time `at`. */
  ghost predicate SettledLease(at: Time, x: Lease, led: Ledger) {
    match x.status
    case Active => !x.Decayed(at) && !x.Expired(at)
    case Released => !x.Decayed(at)
    case Queued => !x.Expired(at) && Blocked(x, led)
    case Unrecognized(_) => true
  }

  ghost predicate Settled(at: Time, s: seq<Lease>) {
    forall x :: x in s ==> SettledLease(at, x, LedgerOf(s))
  }

  lemma ScansToSettled(at: Time, l: Lease, x: Lease, led: Ledger)
    requires ScansTo(at, l, x) && l.WellFormed() && (x.status.Queued? ==> Blocked(x, led))
    ensures SettledLease(at, x, led)
  {
    hide Blocked;
  }

  lemma BlockedSame(l: Lease, a: Ledger, b: Ledger)
    requires Blocked(l, a) && a.active == b.active && a.released == b.released
    ensures Blocked(l, b)
  {
    hide Size;
  }

  /** The queued leases that a refresh leaves are blocked by what it leaves. */
  lemma RefreshWaiting(s: seq<Lease>, at: Time, t: seq<Lease>, ops: seq<Op>, led: Ledger)
    requires Refreshes(s, at, t, ops, led) && Sorted(s)
    ensures AllBlocked(t, led)
  {
    hide FirstPass, SecondPass, Sorted, Fits, Activated, Losses, Keys, Subjects, Blocked;
    var mid :| RefreshesVia(s, at, mid, t, ops, led);
    var first := FirstPass(at, s);
    FirstPassFits(at, s, mid);
    FirstPassWaiting(at, s, |s|);
    assert s[..|s|] == s;
    if first.state.ledger.replacing == multiset{} {
      forall x | x in t && x.status.Queued? ensures Blocked(x, led) {
        SameElements(t, first.leases, x);
      }
    } else {
      NoPanic(first.state, mid);
      SecondPassCounts(first.state, mid);
      var second := SecondPass(first.state, mid);
      forall x | x in t && x.status.Queued? ensures Blocked(x, led) {
        SameElements(t, second.leases, x);
        assert x in multiset(second.leases) + Losses(second.ops);
        ActivatedAreActive(first.state.replacements, x);
        SameElements(mid, first.leases, x);
        BlockedSame(x, first.state.ledger, led);
      }
    }
  }

  lemma ActivatedAreActive(reps: seq<Lease>, x: Lease)
    ensures x in multiset(Activated(reps)) ==> x.status.Active?
  {
  }

  lemma RefreshSettles(s: seq<Lease>, at: Time, t: seq<Lease>, ops: seq<Op>, led: Ledger)
    requires Refreshes(s, at, t, ops, led) && Sorted(s) && AllWellFormed(s)
    ensures Settled(at, t)
  {
    hide Refreshes, Sorted, ScansTo, SettledLease, Blocked, LedgerOf;
    AccumulatorRecounts(s, at, t, ops, led);
    RefreshWaiting(s, at, t, ops, led);
    RefreshOrigins(s, at, t, ops, led);
    forall x | x in t ensures SettledLease(at, x, LedgerOf(t)) {
      var l :| l in s && ScansTo(at, l, x);
      ScansToSettled(at, l, x, led);
    }
  }

  lemma SettledStep(at: Time, st: Scan, l: Lease, led: Ledger)
    requires SettledLease(at, l, led)
    requires l.status.Queued? ==> st.ledger == led
    ensures ScanStep(at, st, l) == (st.(ledger := st.ledger.Add(l.HostUser(), l.status)), Keep)
  {
    hide Subject.HostUser, Size;
  }

  lemma LedgerOfLast(s: seq<Lease>, n: nat)
    requires n < |s|
    ensures LedgerOf(s[..n + 1]) == LedgerOf(s[..n]).Add(s[n].HostUser(), s[n].status)
  {
    hide Subject.HostUser, Keys;
    KeysLast(Active, s, n);
    KeysLast(Released, s, n);
  }

  lemma KeysLast(st: Status, s: seq<Lease>, n: nat)
    requires n < |s|
    ensures Keys(st, s[..n + 1]) ==
            Keys(st, s[..n]) + if s[n].status == st then multiset{s[n].HostUser()} else multiset{}
  {
    hide Subject.HostUser;
    assert s[..n + 1][..n] == s[..n];
  }

  /** At a queued lease of a sorted set everything that is held has been counted. */
  lemma {:induction false} LedgerOfQueued(s: seq<Lease>, n: nat, k: nat)
    requires Sorted(s) && n <= k <= |s| && n < |s| && s[n].status.Queued?
    ensures LedgerOf(s[..k]) == LedgerOf(s[..n])
  {
    hide LedgerOf, Sorted, Subject.HostUser;
    if n < k {
      LedgerOfQueued(s, n, k - 1);
      LedgerOfLast(s, k - 1);
      SortedByStatus(s, n, k - 1);
    }
  }

  /** The first pass does nothing to a settled set. */
  lemma {:induction false} SettledFirstPass(at: Time, s: seq<Lease>, k: nat)
    requires Sorted(s) && Settled(at, s) && k <= |s|
    ensures FirstPass(at, s[..k]) == Trace(Scan(LedgerOf(s[..k]), []), s[..k], [])
  {
    hide FirstPass, ScanStep, Sorted, LedgerOf, SettledLease, Subject.HostUser, Logged, Ledger.Add;
    FirstPassNone(at);
    if k == 0 {
      assert s[..0] == [];
      LedgerOfNone();
    } else {
      var n := k - 1;
      SettledFirstPass(at, s, n);
      FirstPassStep(at, s, n);
      LedgerOfLast(s, n);
      if s[n].status.Queued? {
        LedgerOfQueued(s, n, |s|);
        assert s[..|s|] == s;
      }
      assert s[n] in s;
      SettledStep(at, FirstPass(at, s[..n]).state, s[n], LedgerOf(s));
      LoggedKeep(s[n]);
      assert s[..k] == s[..n] + [s[n]];
    }
  }

  lemma LedgerOfNone()
    ensures LedgerOf([]) == Ledger(multiset{}, multiset{}, multiset{}) && EMPTY_LEDGER == LedgerOf([])
  {
  }

  lemma LoggedKeep(l: Lease)
    ensures Logged(Keep, l) == []
  {
  }

  /** Refreshing a settled set records nothing and leaves the same leases. */
  lemma SettledIsFixed(at: Time, s: seq<Lease>, t: seq<Lease>, ops: seq<Op>, led: Ledger)
    requires Sorted(s) && Settled(at, s) && Refreshes(s, at, t, ops, led)
    ensures ops == [] && multiset(t) == multiset(s)
  {
    hide FirstPass, Sorted, Settled, Keys, SecondPass;
    SettledFirstPass(at, s, |s|);
    assert s[..|s|] == s;
  }

  /** `Refresh` is idempotent: run again at the same time on its own result it records no operation,
      even when queued leases carry different limits and strategies. */
  lemma RefreshIdempotent(s: seq<Lease>, at: Time, t: seq<Lease>, ops: seq<Op>, led: Ledger,
                          t': seq<Lease>, ops': seq<Op>, led': Ledger)
    requires Sorted(s) && AllWellFormed(s)
    requires Refreshes(s, at, t, ops, led) && Refreshes(t, at, t', ops', led')
    ensures ops' == [] && multiset(t') == multiset(t) && led' == led
  {
    hide Refreshes, Sorted, Settled;
    RefreshSettles(s, at, t, ops, led);
    RefreshSorted(s, at, t, ops, led);
    SettledIsFixed(at, t, t', ops', led');
    AccumulatorRecounts(s, at, t, ops, led);
    AccumulatorRecounts(t, at, t', ops', led');
    KeysPermutation(Active, t, t');
    KeysPermutation(Released, t, t');
  }
}
