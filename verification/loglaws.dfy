/** Reading the log: the lines of a commit account for the change it makes, and a block for all that is held. */
module LogLaws {
  import opened Leases
  import opened Projections
  import opened LeaseSets
  import opened Transactions
  import opened TransactionLogs

  // ------------------------------------------------------ commits and lines

  function GainedBy(op: Op): seq<Lease> {
    if op.DeleteOp? then [] else [op.lease]
  }

  function LostBy(op: Op): seq<Lease> {
    if op.CreateOp? then [] else [op.previous]
  }

  /** The leases that a log puts in, one after the other, and those it takes out. */
  function GainSeq(ops: seq<Op>): seq<Lease> {
    if ops == [] then [] else GainSeq(ops[..|ops| - 1]) + GainedBy(ops[|ops| - 1])
  }

  function LossSeq(ops: seq<Op>): seq<Lease> {
    if ops == [] then [] else LossSeq(ops[..|ops| - 1]) + LostBy(ops[|ops| - 1])
  }

  lemma {:induction false} SequencesCount(ops: seq<Op>)
    ensures multiset(GainSeq(ops)) == Gains(ops) && multiset(LossSeq(ops)) == Losses(ops)
  {
    if ops != [] {
      SequencesCount(ops[..|ops| - 1]);
    }
  }

  lemma NothingProjected()
    ensures Listing([]) == Additions([]) == Drops([]) == multiset{}
  {
  }

  lemma ListingOne(l: Lease)
    ensures Listing([l]) == if l.Consumptive() then multiset{EntryOf(l)} else multiset{}
  {
    ProjectOne(EntryIf(), l);
  }

  lemma EffectAccounts(l: Lease)
    ensures Additions(EffectLine(Created(l))) == Listing([l]) && Drops(EffectLine(Created(l))) == multiset{}
    ensures Drops(EffectLine(Removed(l))) == Listing([l]) && Additions(EffectLine(Removed(l))) == multiset{}
  {
    hide Project;
    NothingProjected();
    ListingOne(l);
    ProjectOne(AddedIf(), Added(EntryOf(l)));
    ProjectOne(DroppedIf(), Added(EntryOf(l)));
    ProjectOne(AddedIf(), Dropped(EntryOf(l)));
    ProjectOne(DroppedIf(), Dropped(EntryOf(l)));
  }

  /** The lines of an operation account for what it does to a listing. A renewal does nothing to it. */
  lemma OpAccounts(op: Op)
    ensures Listing(GainedBy(op)) + Drops(OpLines(op)) == Listing(LostBy(op)) + Additions(OpLines(op))
  {
    hide Listing, Additions, Drops, EffectLines, EffectLine;
    NothingProjected();
    match op
    case CreateOp(l) =>
      EffectAccounts(l);
      EffectLinesShort(Created(l), Created(l));
    case DeleteOp(p) =>
      EffectAccounts(p);
      EffectLinesShort(Removed(p), Removed(p));
    case UpdateOp(p, l) =>
      if op.UpdateType() == Renew {
        ListingOne(p);
        ListingOne(l);
      } else {
        EffectAccounts(p);
        EffectAccounts(l);
        EffectLinesShort(Removed(p), Created(l));
        ProjectAppend(AddedIf(), EffectLine(Removed(p)), EffectLine(Created(l)));
        ProjectAppend(DroppedIf(), EffectLine(Removed(p)), EffectLine(Created(l)));
        JoinLines(EffectLine(Removed(p)), EffectLine(Created(l)));
      }
  }

  lemma JoinLines(a: seq<Line>, b: seq<Line>)
    ensures Additions(a + b) == Additions(a) + Additions(b)
    ensures Drops(a + b) == Drops(a) + Drops(b)
  {
    ProjectAppend(AddedIf(), a, b);
    ProjectAppend(DroppedIf(), a, b);
  }

  lemma {:induction false} RecordAccounts(ops: seq<Op>)
    ensures Listing(GainSeq(ops)) + Drops(RecordLines(ops)) == Listing(LossSeq(ops)) + Additions(RecordLines(ops))
  {
    hide Listing, Additions, Drops, OpLines, GainedBy, LostBy;
    if ops == [] {
      NothingProjected();
    } else {
      var n := |ops| - 1;
      var op := ops[n];
      RecordAccounts(ops[..n]);
      OpAccounts(op);
      JoinLines(RecordLines(ops[..n]), OpLines(op));
      JoinListings(GainSeq(ops[..n]), GainedBy(op));
      JoinListings(LossSeq(ops[..n]), LostBy(op));
      AddBeside(Listing(GainSeq(ops[..n])), Drops(RecordLines(ops[..n])),
                Listing(LossSeq(ops[..n])), Additions(RecordLines(ops[..n])),
                Listing(GainedBy(op)), Drops(OpLines(op)), Listing(LostBy(op)), Additions(OpLines(op)));
    }
  }

  lemma JoinListings(a: seq<Lease>, b: seq<Lease>)
    ensures Listing(a + b) == Listing(a) + Listing(b)
  {
    ProjectAppend(EntryIf(), a, b);
  }

  /** The lines recorded for a log account for the whole difference between the listings of the two sets,
      although renewals and leases that do not count are left out of them. */
  lemma LinesAccount(s: seq<Lease>, ops: seq<Op>, t: seq<Lease>)
    requires Balanced(s, ops, t)
    ensures Listing(s) + Additions(RecordLines(ops)) == Listing(t) + Drops(RecordLines(ops))
  {
    hide Listing, Additions, Drops, RecordLines, GainSeq, LossSeq;
    SequencesCount(ops);
    RecordAccounts(ops);
    ListingPermutation(s + GainSeq(ops), t + LossSeq(ops));
    JoinListings(s, GainSeq(ops));
    JoinListings(t, LossSeq(ops));
    CrossCancel(Listing(s), Listing(GainSeq(ops)), Listing(t), Listing(LossSeq(ops)),
                Drops(RecordLines(ops)), Additions(RecordLines(ops)));
  }

  lemma ListingPermutation(a: seq<Lease>, b: seq<Lease>)
    requires multiset(a) == multiset(b)
    ensures Listing(a) == Listing(b)
  {
    ProjectPermutation(EntryIf(), a, b);
  }

  lemma CrossCancel<U>(s: multiset<U>, g: multiset<U>, t: multiset<U>, l: multiset<U>, d: multiset<U>, a: multiset<U>)
    requires s + g == t + l && g + d == l + a
    ensures s + a == t + d
  {
    forall u ensures (s + a)[u] == (t + d)[u] {
      assert (s + g)[u] == (t + l)[u] && (g + d)[u] == (l + a)[u];
    }
  }

  // ------------------------------------------------------- reading the log

  predicate IsTx(l: Line) {
    l.Added? || l.Dropped?
  }

  ghost predicate AllTx(lines: seq<Line>) {
    forall l :: l in lines ==> IsTx(l)
  }

  /** What a reader of the log has seen: the last checkpoint, the lines since, the block under way, and
      whether every checkpoint so far agreed with the one before it and the lines between them. */
  datatype Reading = Reading(
    base: multiset<Entry>, added: multiset<Entry>, dropped: multiset<Entry>, listed: multiset<Entry>,
    since: nat, agrees: bool)

  const NOTHING_READ := Reading(multiset{}, multiset{}, multiset{}, multiset{}, 0, true)

  function ReadLine(r: Reading, l: Line): Reading {
    match l
    case Added(e) => r.(added := r.added + multiset{e}, since := r.since + 1)
    case Dropped(e) => r.(dropped := r.dropped + multiset{e}, since := r.since + 1)
    case Start(_) => r.(listed := multiset{})
    case Listed(_, e) => r.(listed := r.listed + multiset{e})
    case End(_) =>
      Reading(r.listed, multiset{}, multiset{}, multiset{}, 0, r.agrees && r.base + r.added == r.listed + r.dropped)
  }

  function Read(log: seq<Line>): Reading {
    if log == [] then NOTHING_READ else ReadLine(Read(log[..|log| - 1]), log[|log| - 1])
  }

  lemma ReadOne(log: seq<Line>, l: Line)
    ensures Read(log + [l]) == ReadLine(Read(log), l)
  {
    assert (log + [l])[..|log|] == log;
  }

  /** The reading after lines of transactions. */
  function AfterTx(r: Reading, added: multiset<Entry>, dropped: multiset<Entry>, count: nat): Reading {
    r.(added := r.added + added, dropped := r.dropped + dropped, since := r.since + count)
  }

  lemma AfterTxStep(r: Reading, added: multiset<Entry>, dropped: multiset<Entry>, count: nat, l: Line)
    requires IsTx(l)
    ensures ReadLine(AfterTx(r, added, dropped, count), l) ==
            AfterTx(r, added + AddedIf()(l), dropped + DroppedIf()(l), count + 1)
  {
    assert r.added + added + multiset{l.entry} == r.added + (added + multiset{l.entry});
    assert r.dropped + dropped + multiset{l.entry} == r.dropped + (dropped + multiset{l.entry});
    assert added + multiset{} == added && dropped + multiset{} == dropped;
  }

  lemma {:induction false} ReadTx(log: seq<Line>, lines: seq<Line>)
    requires AllTx(lines)
    ensures Read(log + lines) == AfterTx(Read(log), Additions(lines), Drops(lines), |lines|)
  {
    hide *;
    if lines == [] {
      assert log + lines == log;
      NothingProjected();
      AfterNoTx(Read(log));
    } else {
      var n := |lines| - 1;
      AllTxLast(lines, n);
      ReadTx(log, lines[..n]);
      ReadOne(log + lines[..n], lines[n]);
      LastLine(lines, n);
      AfterTxStep(Read(log), Additions(lines[..n]), Drops(lines[..n]), n, lines[n]);
      assert log + lines == log + lines[..n] + [lines[n]];
    }
  }

  lemma AfterNoTx(r: Reading)
    ensures AfterTx(r, multiset{}, multiset{}, 0) == r
  {
  }

  lemma AllTxLast(lines: seq<Line>, n: nat)
    requires AllTx(lines) && n == |lines| - 1
    ensures AllTx(lines[..n]) && IsTx(lines[n])
  {
  }

  lemma LastLine(lines: seq<Line>, n: nat)
    requires n == |lines| - 1
    ensures Additions(lines) == Additions(lines[..n]) + AddedIf()(lines[n])
    ensures Drops(lines) == Drops(lines[..n]) + DroppedIf()(lines[n])
  {
  }

  lemma {:induction false} ReadListed(log: seq<Line>, lines: seq<Line>, nano: int)
    requires AllListed(lines, nano)
    ensures var r := Read(log); Read(log + lines) == r.(listed := r.listed + Project(ListedIf(), lines))
  {
    hide Read, Project;
    NothingListed();
    if lines == [] {
      assert log + lines == log;
    } else {
      var n := |lines| - 1;
      assert lines[n] in lines;
      ReadListed(log, lines[..n], nano);
      ReadOne(log + lines[..n], lines[n]);
      ListedOne(lines[..n], lines[n]);
      assert lines == lines[..n] + [lines[n]];
      assert log + lines == log + lines[..n] + [lines[n]];
    }
  }

  lemma ReadBlock(log: seq<Line>, block: seq<Line>, nano: int)
    requires BlockText(block, nano)
    ensures var r, listed := Read(log), Project(ListedIf(), block);
            Read(log + block) == Reading(listed, multiset{}, multiset{}, multiset{}, 0,
                                         r.agrees && r.base + r.added == listed + r.dropped)
  {
    hide Read, Project;
    var lines :| AllListed(lines, nano) && block == [Start(nano)] + lines + [End(nano)];
    ReadOne(log, Start(nano));
    ReadListed(log + [Start(nano)], lines, nano);
    ReadOne(log + [Start(nano)] + lines, End(nano));
    assert log + block == log + [Start(nano)] + lines + [End(nano)];
    BlockLists(lines, nano);
  }

  /** Once two checkpoints have disagreed, a reader never forgets it. */
  lemma {:induction false} AgreesBefore(a: seq<Line>, b: seq<Line>)
    requires Read(a + b).agrees
    ensures Read(a).agrees
  {
    hide Read;
    if b == [] {
      assert a + b == a;
    } else {
      var n := |b| - 1;
      assert a + b == a + b[..n] + [b[n]];
      ReadOne(a + b[..n], b[n]);
      AgreesBefore(a, b[..n]);
    }
  }

  // ------------------------------------------------------- what is listed

  lemma {:induction false} ListedBelow(s: seq<Lease>, e: Entry)
    ensures Listing(s)[e] <= Subjects(s)[e.subject]
  {
    if s != [] {
      ListedBelow(s[..|s| - 1], e);
    }
  }

  /** An entry is listed once if the subject has a lease of that status that is active or released, and else not
      at all. */
  lemma ListingMeans(s: seq<Lease>, e: Entry)
    requires Unique(s)
    ensures Listing(s)[e] ==
            if exists l :: l in s && l.subject == e.subject && l.status == e.status
                           && (l.status == Active || l.status == Released) then 1 else 0
  {
    hide Project;
    ListedBelow(s, e);
    if l :| l in s && l.subject == e.subject && l.status == e.status && (l.status == Active || l.status == Released) {
      ProjectMember(EntryIf(), s, l);
      assert e in multiset{EntryOf(l)};
    } else if e in Listing(s) {
      var k := ProjectWitness(EntryIf(), s, e);
      assert s[k] in s;
    }
  }
}
