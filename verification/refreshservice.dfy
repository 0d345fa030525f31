/** Who is served by a refresh: capacity, work conservation, order of service, held leases, polling. */
module RefreshService {
  import opened Leases
  import opened Projections
  import opened LeaseSets
  import opened Transactions
  import opened Accumulators
  import opened Refreshing
  import opened FirstPasses
  import opened FirstPassCounts
  import opened SecondPasses
  import opened RefreshLaws

  // ------------------------------------------------------------- capacity

  lemma TotalSame(strat: Strategy, a: Ledger, b: Ledger)
    requires a.active == b.active && a.released == b.released
    ensures a.Total(strat) == b.Total(strat)
  {
  }

  /** The ledger a refresh returns counts what the first pass counted. */
  lemma RefreshTotal(s: seq<Lease>, at: Time, t: seq<Lease>, ops: seq<Op>, led: Ledger, strat: Strategy)
    requires Refreshes(s, at, t, ops, led)
    ensures led.Total(strat) == FirstPass(at, s).state.ledger.Total(strat)
  {
    hide FirstPass, SecondPass, Sorted, Fits, Ledger.Total;
    var mid :| RefreshesVia(s, at, mid, t, ops, led);
    var first := FirstPass(at, s);
    FirstPassFits(at, s, mid);
    if first.state.ledger.replacing != multiset{} {
      NoPanic(first.state, mid);
    }
    TotalSame(strat, led, first.state.ledger);
  }

  /** Under one limit and strategy a refresh never takes consumption past the limit. Sorting matters:
      what is held must be counted before any queued lease is considered. */
  lemma RefreshCapacity(s: seq<Lease>, at: Time, t: seq<Lease>, ops: seq<Op>, led: Ledger, strat: Strategy, limit: nat)
    requires Refreshes(s, at, t, ops, led)
    requires Sorted(s) && Uniform(strat, limit, s) && Consumption(strat, s) <= limit
    ensures Consumption(strat, t) <= limit
  {
    hide Refreshes, Sorted, Uniform, Consumption, Ledger.Total, FirstPass;
    AccumulatorRecounts(s, at, t, ops, led);
    RefreshTotal(s, at, t, ops, led, strat);
    FirstPassCapacity(at, s, |s|, strat, limit);
    assert s[..|s|] == s;
  }

  /** Why a lease is blocked, read off the set it waits in. */
  lemma BlockedMeans(l: Lease, led: Ledger)
    requires Blocked(l, led) && led.Total(l.strategy) <= l.limit
    ensures led.Total(l.strategy) == l.limit
    ensures led.released[l.HostUser()] == 0
    ensures l.strategy == ByConsumer && l.limit > 0 ==> led.active[l.HostUser()] == 0
  {
    hide Subject.HostUser, Ledger.Total;
  }

  lemma HolderCounts(strat: Strategy, led: Ledger, c: string)
    requires c in led.Holders()
    ensures led.Total(strat) > 0
  {
    assert c in Distinct(led.Holders());
  }

  lemma NothingHeld(strat: Strategy, led: Ledger, c: string)
    requires led.Total(strat) == 0
    ensures led.active[c] == 0
  {
    hide Ledger.Total;
    if c in led.Holders() {
      HolderCounts(strat, led, c);
    }
  }

  lemma KeysMember(st: Status, s: seq<Lease>, x: Lease)
    requires x in s && x.status == st
    ensures Keys(st, s)[x.HostUser()] > 0
  {
    hide Subject.HostUser;
    ProjectMember(KeyIf(st), s, x);
  }

  /** Work conservation: a lease is left waiting only if the limit is fully consumed and its consumer
      has no slot of its own to put it in. */
  lemma WorkConserved(s: seq<Lease>, at: Time, t: seq<Lease>, ops: seq<Op>, led: Ledger,
                      strat: Strategy, limit: nat, q: Lease)
    requires Refreshes(s, at, t, ops, led)
    requires Sorted(s) && Uniform(strat, limit, s) && AllWellFormed(s) && Consumption(strat, s) <= limit
    requires q in t && q.status.Queued?
    ensures Consumption(strat, t) == limit
    ensures !HoldsSlot(strat, q.HostUser(), t)
  {
    hide Refreshes, Sorted, Consumption, Ledger.Total, Subject.HostUser, Blocked, Keys, Lease.WellFormed;
    RefreshCapacity(s, at, t, ops, led, strat, limit);
    RefreshWaiting(s, at, t, ops, led);
    AccumulatorRecounts(s, at, t, ops, led);
    RefreshWellFormed(s, at, t, ops, led);
    assert led.Total(strat) == Consumption(strat, t);
    assert Uniform(strat, limit, t);
    BlockedMeans(q, led);
    var c := q.HostUser();
    if limit == 0 {
      NothingHeld(strat, led, c);
    }
    forall x | x in t && x.HostUser() == c && (x.status.Released? || (strat == ByConsumer && x.status.Active?))
      ensures false
    {
      KeysMember(x.status, t, x);
    }
  }

  // -------------------------------------------------------- held leases

  lemma LossesReleased(scan: Scan, mid: seq<Lease>, k: nat)
    requires k <= |mid|
    ensures forall x :: x in Losses(SecondPass(scan, mid[..k]).ops) ==> x.status.Released?
  {
    hide SecondPass, Subject.HostUser;
    SecondPassNone(scan);
    if k == 0 {
      assert mid[..0] == [];
    } else {
      var n := k - 1;
      LossesReleased(scan, mid, n);
      SecondPassStep(scan, mid, n);
      var before := SecondPass(scan, mid[..n]);
      var e := FillStep(scan.replacements, before.state, mid[n]).1;
      ProjectAppend(RemovedBy(), before.ops, Logged(e, mid[n]));
      if e != Keep {
        ProjectOne(RemovedBy(), Logged(e, mid[n])[0]);
      }
    }
  }

  /** Only released slots are given up in the second pass; every replacement finds one. */
  lemma SecondPassKeeps(scan: Scan, mid: seq<Lease>, x: Lease)
    requires Fits(scan, mid) && !x.status.Released?
    requires x in mid || x in Activated(scan.replacements)
    ensures x in SecondPass(scan, mid).leases
  {
    hide SecondPass, Fits, Keys, Subjects, Activated, Losses;
    var second := SecondPass(scan, mid);
    SecondPassCounts(scan, mid);
    LossesReleased(scan, mid, |mid|);
    assert mid[..|mid|] == mid;
    assert x in multiset(mid) + multiset(Activated(scan.replacements));
    assert x in multiset(second.leases) + Losses(second.ops);
  }

  /** What the first pass keeps and is not a released slot is in the result; so is every replacement. */
  lemma RefreshKeeps(s: seq<Lease>, at: Time, t: seq<Lease>, ops: seq<Op>, led: Ledger, x: Lease)
    requires Refreshes(s, at, t, ops, led) && !x.status.Released?
    requires x in FirstPass(at, s).leases || x in Activated(FirstPass(at, s).state.replacements)
    ensures x in t
  {
    hide FirstPass, SecondPass, Sorted, Fits, Activated, Project;
    var mid :| RefreshesVia(s, at, mid, t, ops, led);
    var first := FirstPass(at, s);
    FirstPassFits(at, s, mid);
    SameElements(mid, first.leases, x);
    if first.state.ledger.replacing != multiset{} {
      SecondPassKeeps(first.state, mid, x);
      SameElements(t, SecondPass(first.state, mid).leases, x);
    } else {
      NoneOutstanding(first.state, mid);
      NoneActivated();
    }
  }

  lemma NoneOutstanding(scan: Scan, mid: seq<Lease>)
    requires Fits(scan, mid) && scan.ledger.replacing == multiset{}
    ensures scan.replacements == []
  {
    hide Project;
    ProjectKeySize(scan.replacements);
  }

  lemma NoneActivated()
    ensures Activated([]) == []
  {
  }

  /** An unexpired active lease survives a refresh unchanged. */
  lemma UnexpiredActiveStays(s: seq<Lease>, at: Time, t: seq<Lease>, ops: seq<Op>, led: Ledger, x: Lease)
    requires Refreshes(s, at, t, ops, led) && AllWellFormed(s)
    requires x in s && x.status.Active? && !x.Expired(at)
    ensures x in t
  {
    hide Refreshes, FirstPass, Aged, Activated;
    var i :| 0 <= i < |s| && s[i] == x;
    FirstPassHolds(at, s, |s|, i);
    assert s[..|s|] == s;
    AgedUnexpired(at, x);
    RefreshKeeps(s, at, t, ops, led, x);
  }

  lemma AgedUnexpired(at: Time, x: Lease)
    requires x.WellFormed() && x.status.Active? && !x.Expired(at)
    ensures Aged(at, x) == [x]
  {
  }

  // ------------------------------------------------------ order of service

  lemma {:induction false} FirstPassOutcome(at: Time, s: seq<Lease>, k: nat, i: nat)
    requires i < k <= |s| && s[i].status.Queued? && !s[i].Expired(at)
    ensures var first := FirstPass(at, s[..k]);
            && (Waits(at, s, i) ==> s[i] in first.leases)
            && (Granted(at, s, i) ==> Activate(s[i]) in first.leases || s[i] in first.state.replacements)
  {
    hide FirstPass, ScanStep, Blocked;
    var n := k - 1;
    FirstPassStep(at, s, n);
    var before := FirstPass(at, s[..n]);
    if i < n {
      FirstPassOutcome(at, s, n, i);
      ReplacementsGrow(at, before.state, s[n]);
    } else {
      QueuedOutcome(at, before.state, s[n]);
    }
  }

  lemma ReplacementsGrow(at: Time, st: Scan, l: Lease)
    ensures forall x :: x in st.replacements ==> x in ScanStep(at, st, l).0.replacements
  {
    ScanStepShape(at, st, l);
    hide ScanStep;
  }

  lemma QueuedOutcome(at: Time, st: Scan, l: Lease)
    requires l.status.Queued? && !l.Expired(at)
    ensures var (after, e) := ScanStep(at, st, l);
            if Blocked(l, st.ledger) then Kept(e, l) == [l]
            else Kept(e, l) == [Activate(l)] || l in after.replacements
  {
    hide Subject.HostUser, Ledger.Total, CanActivate;
  }

  lemma ActivatedMember(reps: seq<Lease>, x: Lease)
    requires x in reps
    ensures Activate(x) in Activated(reps)
  {
    var i :| 0 <= i < |reps| && reps[i] == x;
    assert Activated(reps)[i] == Activate(x);
  }

  /** The lease that waits is still queued in the result; the one that is granted is active there. */
  lemma ServiceOutcome(s: seq<Lease>, at: Time, t: seq<Lease>, ops: seq<Op>, led: Ledger, i: nat)
    requires Refreshes(s, at, t, ops, led) && i < |s|
    ensures Waits(at, s, i) ==> s[i] in t
    ensures Granted(at, s, i) ==> Activate(s[i]) in t
  {
    hide Refreshes, FirstPass, Blocked, Activated;
    if Waits(at, s, i) || Granted(at, s, i) {
      var first := FirstPass(at, s);
      FirstPassOutcome(at, s, |s|, i);
      assert s[..|s|] == s;
      if Waits(at, s, i) {
        RefreshKeeps(s, at, t, ops, led, s[i]);
      } else {
        if s[i] in first.state.replacements {
          ActivatedMember(first.state.replacements, s[i]);
        }
        RefreshKeeps(s, at, t, ops, led, Activate(s[i]));
      }
    }
  }

  // --------------------------------------------------------------- polling

  ghost predicate Unreleased(s: seq<Lease>) {
    forall x :: x in s && x.status.Active? ==> x.released == ZERO_TIME
  }

  lemma {:induction false} FirstPassAgesAgain(t1: Time, t2: Time, s: seq<Lease>, k: nat)
    requires t1 <= t2 && AllHeld(s) && Unreleased(s) && k <= |s|
    ensures Project(AgedBag(t2), FirstPass(t1, s[..k]).leases) == Project(AgedBag(t2), s[..k])
    ensures AllHeld(FirstPass(t1, s[..k]).leases)
  {
    hide FirstPass, ScanStep, Aged;
    FirstPassNone(t1);
    if k == 0 {
      assert s[..0] == [];
    } else {
      var n := k - 1;
      FirstPassAgesAgain(t1, t2, s, n);
      FirstPassStep(t1, s, n);
      var before := FirstPass(t1, s[..n]);
      assert s[n] in s;
      ScanHeldAges(t1, before.state, s[n]);
      AgingComposes(t1, t2, s[n]);
      ProjectAppend(AgedBag(t2), before.leases, Aged(t1, s[n]));
      assert s[..k][..n] == s[..n];
    }
  }

  /** Without a queue, refreshing is aging. */
  lemma RefreshAges(s: seq<Lease>, at: Time, t: seq<Lease>, ops: seq<Op>, led: Ledger)
    requires Refreshes(s, at, t, ops, led) && AllHeld(s)
    ensures multiset(t) == Project(AgedBag(at), s) && multiset(t) == multiset(FirstPass(at, s).leases)
  {
    hide FirstPass, SecondPass, Sorted, Project;
    FirstPassAges(at, s, |s|);
    assert s[..|s|] == s;
  }

  /** Polling frequency does not change how long slots last: without a queue, refreshing at `t1` and then
      at `t2` leaves what refreshing at `t2` alone leaves. */
  lemma PollingFrequencyIrrelevant(s: seq<Lease>, t1: Time, t2: Time,
                                   u: seq<Lease>, ops1: seq<Op>, led1: Ledger,
                                   v: seq<Lease>, ops2: seq<Op>, led2: Ledger,
                                   w: seq<Lease>, ops3: seq<Op>, led3: Ledger)
    requires t1 <= t2 && AllHeld(s) && Unreleased(s)
    requires Refreshes(s, t1, u, ops1, led1) && Refreshes(u, t2, v, ops2, led2)
    requires Refreshes(s, t2, w, ops3, led3)
    ensures multiset(v) == multiset(w)
  {
    hide Refreshes, FirstPass, Project;
    var made := FirstPass(t1, s).leases;
    FirstPassAgesAgain(t1, t2, s, |s|);
    assert s[..|s|] == s;
    RefreshAges(s, t1, u, ops1, led1);
    RefreshAges(s, t2, w, ops3, led3);
    forall x | x in u ensures x.Consumptive() {
      SameElements(u, made, x);
    }
    RefreshAges(u, t2, v, ops2, led2);
    ProjectPermutation(AgedBag(t2), u, made);
  }
}
