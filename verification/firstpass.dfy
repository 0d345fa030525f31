/** What the first pass of a refresh keeps, for any lease set. */
module FirstPasses {
  import opened Leases
  import opened Projections
  import opened LeaseSets
  import opened Transactions
  import opened Accumulators
  import opened Refreshing

  // ------------------------------------------------------------- subjects

  lemma ScanStepShape(at: Time, st: Scan, l: Lease)
    ensures var (after, e) := ScanStep(at, st, l);
            && (e.Update? ==> e.lease.subject == l.subject)
            && (after.replacements == st.replacements || (e == Delete && after.replacements == st.replacements + [l]))
  {
    hide Subject.HostUser, Ledger.Total, CanActivate;
  }

  lemma ScanStepSubjects(at: Time, st: Scan, l: Lease)
    ensures var (after, e) := ScanStep(at, st, l);
            Subjects(Kept(e, l)) + Subjects(after.replacements) <= Subjects(st.replacements) + multiset{l.subject}
  {
    hide ScanStep, Subjects;
    ScanStepShape(at, st, l);
    var (after, e) := ScanStep(at, st, l);
    SubjectsAppend(st.replacements, [l]);
    SubjectsOne(l);
    NoSubjects();
    if e.Update? {
      SubjectsOne(e.lease);
    }
  }

  lemma SubjectsOne(l: Lease)
    ensures Subjects([l]) == multiset{l.subject}
  {
    ProjectOne(SubjectBag(), l);
  }

  /** No subject appears: what is kept and what waits to be fitted in were all there before. */
  lemma {:induction false} FirstPassSubjects(at: Time, s: seq<Lease>, k: nat)
    requires k <= |s|
    ensures var first := FirstPass(at, s[..k]);
            Subjects(first.leases) + Subjects(first.state.replacements) <= Subjects(s[..k])
  {
    hide *;
    FirstPassNone(at);
    if k == 0 {
      assert s[..0] == [];
      NoSubjects();
    } else {
      var n := k - 1;
      FirstPassSubjects(at, s, n);
      FirstPassStep(at, s, n);
      var before := FirstPass(at, s[..n]);
      var (after, e) := ScanStep(at, before.state, s[n]);
      ScanStepSubjects(at, before.state, s[n]);
      SubjectsAppend(before.leases, Kept(e, s[n]));
      SubjectsLast(s, n);
      SumBound(Subjects(before.leases), Subjects(before.state.replacements), Subjects(s[..n]),
               Subjects(Kept(e, s[n])), Subjects(after.replacements), multiset{s[n].subject});
    }
  }

  lemma NoSubjects()
    ensures Subjects([]) == multiset{}
  {
  }

  lemma SubjectsAppend(a: seq<Lease>, b: seq<Lease>)
    ensures Subjects(a + b) == Subjects(a) + Subjects(b)
  {
    ProjectAppend(SubjectBag(), a, b);
  }

  lemma SubjectsLast(s: seq<Lease>, n: nat)
    requires n < |s|
    ensures Subjects(s[..n + 1]) == Subjects(s[..n]) + multiset{s[n].subject}
  {
    assert s[..n + 1][..n] == s[..n];
  }

  lemma SumBound<U>(a: multiset<U>, r: multiset<U>, b: multiset<U>, x: multiset<U>, r': multiset<U>, y: multiset<U>)
    requires a + r <= b && x + r' <= r + y
    ensures a + x + r' <= b + y
  {
    forall u ensures (a + x + r')[u] <= (b + y)[u] {
      assert (a + r)[u] <= b[u] && (x + r')[u] <= (r + y)[u];
    }
  }

  // -------------------------------------------------------------- origins

  /** How a lease that is kept comes from the one shown. */
  ghost predicate ScansTo(at: Time, l: Lease, x: Lease) {
    || (x == l && !l.status.Queued? && (l.Consumptive() ==> !l.Decayed(at)) && (l.status.Active? ==> !l.Expired(at)))
    || (x == l && l.status.Queued? && !l.Expired(at))
    || (x == Expire(l) && l.status.Active? && l.Expired(at) && !l.Decayed(at))
    || (x == Activate(l) && l.status.Queued? && !l.Expired(at))
  }

  ghost predicate Scanned(at: Time, s: seq<Lease>, x: Lease) {
    exists l :: l in s && ScansTo(at, l, x)
  }

  lemma ScanStepOrigin(at: Time, st: Scan, l: Lease)
    ensures var (after, e) := ScanStep(at, st, l);
            && (forall x :: x in Kept(e, l) ==> ScansTo(at, l, x))
            && (after.replacements == st.replacements
                || (after.replacements == st.replacements + [l] && l.status.Queued? && !l.Expired(at)))
  {
    hide Subject.HostUser, Ledger.Total, CanActivate;
  }

  lemma {:induction false} FirstPassOrigins(at: Time, s: seq<Lease>, k: nat)
    requires k <= |s|
    ensures var first := FirstPass(at, s[..k]);
            && (forall x :: x in first.leases ==> Scanned(at, s[..k], x))
            && (forall x :: x in first.state.replacements ==> x in s[..k] && x.status.Queued? && !x.Expired(at))
  {
    hide FirstPass, ScanStep, Kept, Logged, ScansTo;
    FirstPassNone(at);
    if k == 0 {
      assert s[..0] == [];
    } else {
      var n := k - 1;
      FirstPassOrigins(at, s, n);
      FirstPassStep(at, s, n);
      var before := FirstPass(at, s[..n]);
      var (after, e) := ScanStep(at, before.state, s[n]);
      ScanStepOrigin(at, before.state, s[n]);
      assert s[..k] == s[..n] + [s[n]];
      forall x | x in before.leases + Kept(e, s[n]) ensures Scanned(at, s[..k], x) {
        if x in before.leases {
          var l :| l in s[..n] && ScansTo(at, l, x);
          assert l in s[..k];
        } else {
          assert s[n] in s[..k];
        }
      }
    }
  }

  // -------------------------------------------------------------- waiting

  /** Why a queued lease is left waiting. */
  predicate Blocked(l: Lease, led: Ledger) {
    var consumed, c := led.Total(l.strategy), l.HostUser();
    consumed > l.limit
    || (led.released[c] == 0 && !CanActivate(l.strategy, led.active[c], consumed, l.limit))
  }

  lemma TotalAdd(led: Ledger, c: string, strat: Strategy)
    ensures led.Add(c, Active).Total(strat) ==
            led.Total(strat) + if strat == ByConsumer && c in led.Holders() then 0 else 1
    ensures led.Add(c, Released).Total(strat) ==
            led.Total(strat) + if strat == ByConsumer && c in led.Holders() then 0 else 1
  {
    AddHolders(led, c, Active);
    AddHolders(led, c, Released);
    SizeAdd(strat, led.Holders(), c);
  }

  /** Once blocked, a queued lease stays blocked while the rest of the queue is dealt with,
      whatever limits and strategies the others carry. */
  lemma BlockedStable(at: Time, st: Scan, x: Lease, l: Lease)
    requires !x.Consumptive() && Blocked(l, st.ledger)
    ensures Blocked(l, ScanStep(at, st, x).0.ledger)
  {
    hide Subject.HostUser, Ledger.Total;
    var c := x.HostUser();
    TotalAdd(st.ledger, c, l.strategy);
    if c in st.ledger.released {
      TotalStart(st.ledger, c, l.strategy);
    }
  }

  lemma TotalStart(led: Ledger, c: string, strat: Strategy)
    requires c in led.released
    ensures led.StartReplacement(c).Total(strat) == led.Total(strat)
  {
    StartHolders(led, c);
  }

  lemma ScanStepBlocked(at: Time, st: Scan, l: Lease)
    requires l.status.Queued?
    ensures var (after, e) := ScanStep(at, st, l);
            e == Keep <==> !l.Expired(at) && Blocked(l, st.ledger)
    ensures ScanStep(at, st, l).1 == Keep ==> ScanStep(at, st, l).0 == st
    ensures forall x :: x in Kept(ScanStep(at, st, l).1, l) && x.status.Queued? ==>
                          x == l && ScanStep(at, st, l).1 == Keep
  {
    hide Subject.HostUser, Ledger.Total, CanActivate;
  }

  ghost predicate NoneQueued(s: seq<Lease>) {
    forall x :: x in s ==> !x.status.Queued?
  }

  ghost predicate AllBlocked(s: seq<Lease>, led: Ledger) {
    forall x :: x in s && x.status.Queued? ==> Blocked(x, led)
  }

  /** Queued leases come last, so the active and released ones are counted before any of them. */
  lemma HeldBeforeQueued(s: seq<Lease>, n: nat)
    requires Sorted(s) && n < |s| && s[n].Consumptive()
    ensures NoneQueued(s[..n])
  {
    forall x | x in s[..n] ensures !x.status.Queued? {
      var i :| 0 <= i < n && s[i] == x;
      SortedByStatus(s, i, n);
    }
  }

  lemma NoneQueuedScanned(at: Time, s: seq<Lease>, n: nat)
    requires n <= |s| && NoneQueued(s[..n])
    ensures NoneQueued(FirstPass(at, s[..n]).leases)
  {
    hide FirstPass;
    FirstPassOrigins(at, s, n);
  }

  lemma ScanHeldKept(at: Time, st: Scan, l: Lease)
    requires l.Consumptive()
    ensures NoneQueued(Kept(ScanStep(at, st, l).1, l))
  {
    hide Subject.HostUser;
  }

  /** Every queued lease that the first pass keeps is blocked by the final count. */
  lemma {:induction false} FirstPassWaiting(at: Time, s: seq<Lease>, k: nat)
    requires Sorted(s) && k <= |s|
    ensures var first := FirstPass(at, s[..k]); AllBlocked(first.leases, first.state.ledger)
  {
    hide FirstPass, ScanStep, Kept, Logged, Blocked, Sorted;
    FirstPassNone(at);
    if k == 0 {
      assert s[..0] == [];
    } else {
      var n := k - 1;
      FirstPassWaiting(at, s, n);
      FirstPassStep(at, s, n);
      var before := FirstPass(at, s[..n]);
      var (after, e) := ScanStep(at, before.state, s[n]);
      if s[n].Consumptive() {
        HeldBeforeQueued(s, n);
        NoneQueuedScanned(at, s, n);
        ScanHeldKept(at, before.state, s[n]);
      } else {
        forall x | x in before.leases + Kept(e, s[n]) && x.status.Queued? ensures Blocked(x, after.ledger) {
          if x in before.leases {
            BlockedStable(at, before.state, s[n], x);
          } else {
            ScanStepIdle(at, before.state, s[n]);
            ScanStepBlocked(at, before.state, s[n]);
          }
        }
      }
    }
  }

  lemma ScanStepIdle(at: Time, st: Scan, l: Lease)
    requires !l.Consumptive() && exists x :: x in Kept(ScanStep(at, st, l).1, l) && x.status.Queued?
    ensures l.status.Queued?
  {
    hide Subject.HostUser, Ledger.Total, CanActivate;
  }
}
