/** What becomes of each lease in a refresh, in terms of its own times, and who is served before whom. */
module Fates {
  import opened Leases
  import opened LeaseSets
  import opened Transactions
  import opened Accumulators
  import opened Refreshing
  import opened FirstPasses
  import opened FirstPassCounts
  import opened RefreshLaws
  import opened RefreshService
  import opened GuardianService
  import opened Slots

  // ---------------------------------------------------------------- fates

  /** Everything about the two leases but their status and release time. */
  predicate SameTerms(x: Lease, y: Lease) {
    && y.subject == x.subject && y.properties == x.properties
    && y.started == x.started && y.renewed == x.renewed
    && y.strategy == x.strategy && y.limit == x.limit
    && y.duration == x.duration && y.decay == x.decay && y.refresh == x.refresh
  }

  lemma ScansToMeans(at: Time, x: Lease, y: Lease)
    requires ScansTo(at, x, y) && x.WellFormed()
    ensures SameTerms(x, y)
    ensures y.status != x.status && y.status != Released ==> x.status == Queued && y.status == Active
    ensures y.status == Active ==> at <= x.renewed + x.duration && y.released == x.released
    ensures y.status == Queued ==> at <= x.renewed + x.duration && y.released == x.released && x.status == Queued
    ensures y.status == Released ==>
              || (x.status == Released && y.released == x.released && at <= x.released + x.decay)
              || (x.status == Active && y.released == x.renewed + x.duration
                  && x.renewed + x.duration < at <= x.renewed + x.duration + x.decay)
  {
  }

  /** A refresh changes nothing of a lease but its status and release time, and those only as the clock has it: what is
      active or queued afterwards has not run out; what is released is in its decay, released when it ran out if it was
      active before; nothing turns queued; only queued leases turn active. */
  lemma RefreshOnlyAges(s: seq<Lease>, at: Time, t: seq<Lease>, ops: seq<Op>, led: Ledger, y: Lease) returns (x: Lease)
    requires Refreshes(s, at, t, ops, led) && AllWellFormed(s) && y in t
    ensures x in s && SameTerms(x, y)
    ensures y.status != x.status && y.status != Released ==> x.status == Queued && y.status == Active
    ensures y.status == Active ==> at <= x.renewed + x.duration && y.released == x.released
    ensures y.status == Queued ==> at <= x.renewed + x.duration && y.released == x.released && x.status == Queued
    ensures y.status == Released ==>
              || (x.status == Released && y.released == x.released && at <= x.released + x.decay)
              || (x.status == Active && y.released == x.renewed + x.duration
                  && x.renewed + x.duration < at <= x.renewed + x.duration + x.decay)
  {
    hide Refreshes, ScansTo, Lease.WellFormed, SameTerms;
    RefreshOrigins(s, at, t, ops, led);
    x :| x in s && ScansTo(at, x, y);
    ScansToMeans(at, x, y);
  }

  /** An active lease stays as it is until it has run out. */
  lemma ActiveFate(s: seq<Lease>, at: Time, t: seq<Lease>, ops: seq<Op>, led: Ledger, x: Lease)
    requires Refreshes(s, at, t, ops, led) && AllWellFormed(s)
    requires x in s && x.status == Active && at <= x.renewed + x.duration
    ensures x in t
  {
    hide Refreshes, Lease.WellFormed;
    UnexpiredActiveStays(s, at, t, ops, led, x);
  }

  /** Nobody of the consumer is waiting with a lease that has not run out. */
  ghost predicate NobodyWaits(at: Time, s: seq<Lease>, c: string) {
    forall q :: q in s && q.status == Queued && q.HostUser() == c ==> q.renewed + q.duration < at
  }

  lemma NobodyWaiting(at: Time, s: seq<Lease>, c: string)
    ensures NobodyWaits(at, s, c) <==> !Waiting(at, s, c)
  {
    hide Subject.HostUser;
  }

  lemma AgedLeft(s: seq<Lease>, at: Time, t: seq<Lease>, ops: seq<Op>, led: Ledger, x: Lease, y: Lease)
    requires Refreshes(s, at, t, ops, led) && NobodyWaits(at, s, x.HostUser())
    requires x in s && x.Consumptive() && y in Aged(at, x) && y.HostUser() == x.HostUser()
    ensures y in t
  {
    hide Refreshes, FirstPass, Aged, Waiting, NobodyWaits, Subject.HostUser;
    var i :| 0 <= i < |s| && s[i] == x;
    FirstPassHolds(at, s, |s|, i);
    assert s[..|s|] == s;
    NobodyWaiting(at, s, x.HostUser());
    RefreshLeaves(at, s, t, ops, led, y);
  }

  /** A released lease of a consumer with nothing waiting is kept exactly while it is in its decay. */
  lemma ReleasedFate(s: seq<Lease>, at: Time, t: seq<Lease>, ops: seq<Op>, led: Ledger, x: Lease)
    requires Refreshes(s, at, t, ops, led) && AllWellFormed(s) && Unique(s)
    requires x in s && x.status == Released && NobodyWaits(at, s, x.HostUser())
    ensures x in t <==> at <= x.released + x.decay
  {
    hide Refreshes, Unique, NobodyWaits, Subject.HostUser, Lease.WellFormed;
    if at <= x.released + x.decay {
      ReleasedAges(at, x);
      AgedLeft(s, at, t, ops, led, x, x);
    } else if x in t {
      var l := RefreshOnlyAges(s, at, t, ops, led, x);
      UniqueMember(s, l, x);
    }
  }

  lemma ReleasedAges(at: Time, x: Lease)
    requires x.WellFormed() && x.status == Released && at <= x.released + x.decay
    ensures Aged(at, x) == [x]
  {
  }

  /** An active lease of a consumer with nothing waiting is released as of the time it ran out, exactly between then
      and the end of its decay; after that the subject has none. */
  lemma ExpiredFate(s: seq<Lease>, at: Time, t: seq<Lease>, ops: seq<Op>, led: Ledger, x: Lease)
    requires Refreshes(s, at, t, ops, led) && AllWellFormed(s) && Unique(s)
    requires x in s && x.status == Active && NobodyWaits(at, s, x.HostUser())
    ensures x.(status := Released, released := x.renewed + x.duration) in t <==>
            x.renewed + x.duration < at <= x.renewed + x.duration + x.decay
    ensures at > x.renewed + x.duration + x.decay ==> forall y :: y in t ==> y.subject != x.subject
  {
    hide Refreshes, Unique, NobodyWaits, Subject.HostUser, Lease.WellFormed;
    var z := x.(status := Released, released := x.renewed + x.duration);
    if x.renewed + x.duration < at <= x.renewed + x.duration + x.decay {
      ExpiredAges(at, x);
      AgedLeft(s, at, t, ops, led, x, z);
    } else if z in t {
      var l := RefreshOnlyAges(s, at, t, ops, led, z);
      UniqueMember(s, l, x);
    }
    if at > x.renewed + x.duration + x.decay {
      assert x.WellFormed();
      DecayIsNatural(x);
      forall y | y in t ensures y.subject != x.subject {
        var l := RefreshOnlyAges(s, at, t, ops, led, y);
        if y.subject == x.subject {
          UniqueMember(s, l, x);
        }
      }
    }
  }

  lemma DecayIsNatural(x: Lease)
    requires x.WellFormed()
    ensures x.decay >= 0
  {
  }

  lemma ExpiredAges(at: Time, x: Lease)
    requires x.WellFormed() && x.status == Active && x.renewed + x.duration < at <= x.renewed + x.duration + x.decay
    ensures Aged(at, x) == [x.(status := Released, released := x.renewed + x.duration)]
  {
  }

  /** A queued lease stays, waiting or activated, until it has run out; then the subject has none. */
  lemma QueuedFate(s: seq<Lease>, at: Time, t: seq<Lease>, ops: seq<Op>, led: Ledger, x: Lease)
    requires Refreshes(s, at, t, ops, led) && AllWellFormed(s) && Unique(s)
    requires x in s && x.status == Queued
    ensures at <= x.renewed + x.duration ==> x in t || x.(status := Active) in t
    ensures at > x.renewed + x.duration ==> forall y :: y in t ==> y.subject != x.subject
  {
    hide Refreshes, Unique, Lease.WellFormed;
    if at <= x.renewed + x.duration {
      QueuedRemains(s, at, t, ops, led, x);
    } else {
      forall y | y in t ensures y.subject != x.subject {
        var l := RefreshOnlyAges(s, at, t, ops, led, y);
        if y.subject == x.subject {
          UniqueMember(s, l, x);
        }
      }
    }
  }

  // ------------------------------------------------------ order of service

  /** A slot of the consumer that has been released, or that has run out, and has not decayed. */
  predicate OpenSlot(at: Time, z: Lease, c: string) {
    && z.HostUser() == c
    && (|| (z.status == Released && at <= z.released + z.decay)
        || (z.status == Active && z.renewed + z.duration < at <= z.renewed + z.duration + z.decay))
  }

  /** A lease of the consumer that is active, and has not run out. */
  predicate Running(at: Time, z: Lease, c: string) {
    z.HostUser() == c && z.status == Active && at <= z.renewed + z.duration
  }

  lemma NothingCounted(at: Time, s: seq<Lease>)
    ensures FirstPass(at, s[..0]).state.ledger == Ledger(multiset{}, multiset{}, multiset{})
  {
    FirstPassNone(at);
    assert s[..0] == [];
  }

  lemma ScanReleasedFrom(at: Time, st: Scan, l: Lease, c: string)
    requires ScanStep(at, st, l).0.ledger.released[c] > 0 && l.WellFormed()
    ensures st.ledger.released[c] > 0 || OpenSlot(at, l, c)
  {
    hide Subject.HostUser, Ledger.Total, CanActivate;
  }

  lemma {:induction false} ReleasedFrom(at: Time, s: seq<Lease>, k: nat, c: string) returns (m: nat)
    requires k <= |s| && AllWellFormed(s) && FirstPass(at, s[..k]).state.ledger.released[c] > 0
    ensures m < k && OpenSlot(at, s[m], c)
  {
    hide FirstPass, ScanStep, OpenSlot, Lease.WellFormed;
    NothingCounted(at, s);
    if k > 0 {
      FirstPassStep(at, s, k - 1);
      assert s[k - 1] in s;
      ScanReleasedFrom(at, FirstPass(at, s[..k - 1]).state, s[k - 1], c);
      if OpenSlot(at, s[k - 1], c) {
        m := k - 1;
      } else {
        m := ReleasedFrom(at, s, k - 1, c);
      }
    }
  }

  lemma ScanActiveFrom(at: Time, st: Scan, l: Lease, c: string)
    requires ScanStep(at, st, l).0.ledger.active[c] > 0
    ensures || st.ledger.active[c] > 0
            || Running(at, l, c)
            || (l.status == Queued && !l.Expired(at) && l.HostUser() == c && !Blocked(l, st.ledger))
  {
    hide Subject.HostUser, Ledger.Total, CanActivate;
  }

  lemma {:induction false} ActiveFrom(at: Time, s: seq<Lease>, k: nat, c: string) returns (m: nat)
    requires k <= |s| && FirstPass(at, s[..k]).state.ledger.active[c] > 0
    ensures m < k && (Running(at, s[m], c) || (Granted(at, s, m) && s[m].HostUser() == c))
  {
    hide FirstPass, ScanStep, Running, Blocked, Subject.HostUser;
    NothingCounted(at, s);
    if k > 0 {
      var n := k - 1;
      FirstPassStep(at, s, n);
      ScanActiveFrom(at, FirstPass(at, s[..n]).state, s[n], c);
      if FirstPass(at, s[..n]).state.ledger.active[c] > 0 {
        m := ActiveFrom(at, s, n, c);
      } else {
        m := n;
      }
    }
  }

  /** `x` is queued in `s`, has not run out, and is waiting or served afterwards. */
  lemma WaitsOrGranted(s: seq<Lease>, at: Time, t: seq<Lease>, ops: seq<Op>, led: Ledger, i: nat)
    requires Refreshes(s, at, t, ops, led) && Unique(s) && i < |s|
    requires s[i].status == Queued && at <= s[i].renewed + s[i].duration
    ensures Waits(at, s, i) <==> s[i] in t
    ensures Granted(at, s, i) <==> s[i].(status := Active) in t
    ensures Waits(at, s, i) <==> !Granted(at, s, i)
  {
    hide Refreshes, FirstPass, Blocked, Unique, Subjects;
    ServiceOutcome(s, at, t, ops, led, i);
    RefreshSubjects(s, at, t, ops, led);
    UniqueBelow(t, s);
    if s[i] in t && s[i].(status := Active) in t {
      UniqueMember(t, s[i], s[i].(status := Active));
    }
  }

  /** A queued lease of the consumer of `y` that started no later and is active in `t`. */
  predicate ServedNoLater(w: Lease, y: Lease, t: seq<Lease>) {
    w.status == Queued && w.HostUser() == y.HostUser() && w.started <= y.started && w.(status := Active) in t
  }

  /** First come, first served, by the times the leases started: of two queued leases with one limit and strategy that
      have not run out, the later one is served while the earlier one is left waiting only if its consumer had an open
      slot, or, where consumers are counted, was active already or became so through a lease that started no later. */
  lemma EarlierServedFirst(s: seq<Lease>, at: Time, t: seq<Lease>, ops: seq<Op>, led: Ledger, x: Lease, y: Lease)
    requires Refreshes(s, at, t, ops, led) && Sorted(s) && Unique(s) && AllWellFormed(s)
    requires x in s && x.status == Queued && at <= x.renewed + x.duration
    requires y in s && y.status == Queued && at <= y.renewed + y.duration
    requires x.strategy == y.strategy && x.limit == y.limit && x.started < y.started
    requires x in t && y.(status := Active) in t
    ensures || (exists z :: z in s && OpenSlot(at, z, y.HostUser()))
            || (y.strategy == ByConsumer && exists z :: z in s && Running(at, z, y.HostUser()))
            || (y.strategy == ByConsumer && exists w :: w in s && w != y && ServedNoLater(w, y, t))
  {
    hide Refreshes, FirstPass, Blocked, Unique, Sorted, OpenSlot, Running, Subject.HostUser, Lease.WellFormed;
    var i, j := Overtaken(s, at, t, ops, led, x, y);
    WaitsOn(at, s, i, j);
    var before := FirstPass(at, s[..j]).state.ledger;
    OvertakingNeedsSlot(x, y, before);
    var c := y.HostUser();
    if before.released[c] > 0 {
      var m := ReleasedFrom(at, s, j, c);
      assert s[m] in s;
    } else {
      var m := ActiveFrom(at, s, j, c);
      assert s[m] in s;
      if !Running(at, s[m], c) {
        SortedMeans(s, m, j);
        WaitsOrGranted(s, at, t, ops, led, m);
        if s[m] == y {
          UniqueIndex(s, m, j);
        }
      }
    }
  }

  lemma Overtaken(s: seq<Lease>, at: Time, t: seq<Lease>, ops: seq<Op>, led: Ledger, x: Lease, y: Lease)
    returns (i: nat, j: nat)
    requires Refreshes(s, at, t, ops, led) && Sorted(s) && Unique(s)
    requires x in s && x.status == Queued && at <= x.renewed + x.duration
    requires y in s && y.status == Queued && at <= y.renewed + y.duration
    requires x.started < y.started && x in t && y.(status := Active) in t
    ensures i < j < |s| && s[i] == x && s[j] == y && Waits(at, s, i) && Granted(at, s, j)
  {
    hide Refreshes, FirstPass, Blocked, Unique, Sorted;
    i :| 0 <= i < |s| && s[i] == x;
    j :| 0 <= j < |s| && s[j] == y;
    EarlierFirst(s, i, j);
    WaitsOrGranted(s, at, t, ops, led, i);
    WaitsOrGranted(s, at, t, ops, led, j);
  }

  lemma ScanIntoSlot(at: Time, st: Scan, l: Lease, c: string)
    requires !l.Consumptive()
    requires l.status == Queued && !l.Expired(at) && l.HostUser() == c && !Blocked(l, st.ledger) ==>
               st.ledger.released[c] > 0
    ensures ScanStep(at, st, l).0.ledger.Holders()[c] == st.ledger.Holders()[c]
  {
    hide Subject.HostUser, Ledger.Total, CanActivate;
  }

  /** Once `x` is left waiting, leases of the same limit and strategy get nothing but slots. */
  lemma {:induction false} OnlySlotsAfter(at: Time, s: seq<Lease>, i: nat, j: nat, k: nat, c: string,
                                          strat: Strategy, limit: nat)
    requires Sorted(s) && Uniform(strat, limit, s) && strat != ByConsumer && i < j <= k <= |s| && Waits(at, s, i)
    requires FirstPass(at, s[..j]).state.ledger.released[c] > 0
    ensures FirstPass(at, s[..k]).state.ledger.Holders()[c] == Held(at, s[..k])[c]
  {
    hide FirstPass, ScanStep, Blocked, Sorted, Held, HeldIf, Ledger.Holders, Subject.HostUser;
    if j == k {
      FirstPassSlots(at, s, j);
    } else {
      var n := k - 1;
      OnlySlotsAfter(at, s, i, j, n, c, strat, limit);
      FirstPassStep(at, s, n);
      HeldLast(at, s, n);
      SortedByStatus(s, i, n);
      QueuedHoldsNothing(at, s[n]);
      WaitsOn(at, s, i, n);
      var before := FirstPass(at, s[..n]).state;
      assert s[n] in s && s[i] in s;
      if s[n].status == Queued && !s[n].Expired(at) && s[n].HostUser() == c && !Blocked(s[n], before.ledger) {
        OvertakingNeedsSlot(s[i], s[n], before.ledger);
      }
      ScanIntoSlot(at, before, s[n], c);
    }
  }

  /** Where instances are counted, a consumer that is served ahead of an earlier lease ends up with exactly as many
      slots as it held. */
  lemma OvertakingGainsNothing(s: seq<Lease>, at: Time, t: seq<Lease>, ops: seq<Op>, led: Ledger, x: Lease, y: Lease,
                               strat: Strategy, limit: nat)
    requires Refreshes(s, at, t, ops, led) && Sorted(s) && Unique(s)
    requires Uniform(strat, limit, s) && strat != ByConsumer
    requires x in s && x.status == Queued && at <= x.renewed + x.duration
    requires y in s && y.status == Queued && at <= y.renewed + y.duration
    requires x.started < y.started && x in t && y.(status := Active) in t
    ensures Holders(t)[y.HostUser()] == Held(at, s)[y.HostUser()]
  {
    hide Refreshes, FirstPass, Blocked, Unique, Sorted, Subject.HostUser, Held, Holders, Keys, Ledger.Holders;
    var i, j := Overtaken(s, at, t, ops, led, x, y);
    WaitsOn(at, s, i, j);
    OvertakingNeedsSlot(x, y, FirstPass(at, s[..j]).state.ledger);
    OnlySlotsAfter(at, s, i, j, |s|, y.HostUser(), strat, limit);
    RefreshLedger(s, at, t, ops, led);
    assert s[..|s|] == s;
  }
}
