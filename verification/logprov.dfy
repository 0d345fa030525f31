/** The transaction log: consumption lines, checkpoint blocks, and when a checkpoint is due. */
module TransactionLogs {
  import opened Leases
  import opened Projections
  import opened LeaseSets
  import opened Transactions
  import opened Providers
  import opened GuardianLaws

  /** What a line says about a lease. */
  datatype Entry = Entry(subject: Subject, status: Status)

  datatype Line =
    | Added(entry: Entry)
    | Dropped(entry: Entry)
    | Start(nano: int)
    | Listed(nano: int, entry: Entry)
    | End(nano: int)

  function EntryOf(l: Lease): Entry {
    Entry(l.subject, l.status)
  }

  function EntryIf(): Lease -> multiset<Entry> {
    (l: Lease) => if l.Consumptive() then multiset{EntryOf(l)} else multiset{}
  }

  /** The consumptive leases of a set, as a checkpoint lists them. */
  function Listing(s: seq<Lease>): multiset<Entry> {
    Project(EntryIf(), s)
  }

  // ------------------------------------------------------------- recording

  function EffectLine(e: Effect): seq<Line> {
    if !e.lease.Consumptive() then []
    else if e.Removed? then [Dropped(EntryOf(e.lease))]
    else [Added(EntryOf(e.lease))]
  }

  function EffectLines(effects: seq<Effect>): seq<Line> {
    if effects == [] then [] else EffectLines(effects[..|effects| - 1]) + EffectLine(effects[|effects| - 1])
  }

  /** Renewals are not recorded, nor are effects on leases that do not count. */
  function OpLines(op: Op): seq<Line> {
    if op.UpdateOp? && op.UpdateType() == Renew then [] else EffectLines(op.Effects())
  }

  /** The lines that recording a log of operations writes. */
  function RecordLines(ops: seq<Op>): seq<Line> {
    if ops == [] then [] else RecordLines(ops[..|ops| - 1]) + OpLines(ops[|ops| - 1])
  }

  /** The line for a lease that is put in or taken out, if it is active or released. */
  function AddLine(l: Lease): seq<Line> {
    if l.status == Active || l.status == Released then [Added(Entry(l.subject, l.status))] else []
  }

  function DropLine(l: Lease): seq<Line> {
    if l.status == Active || l.status == Released then [Dropped(Entry(l.subject, l.status))] else []
  }

  lemma EffectLinesShort(a: Effect, b: Effect)
    ensures EffectLines([a]) == EffectLine(a)
    ensures EffectLines([a, b]) == EffectLine(a) + EffectLine(b)
  {
    assert [a][..0] == [] && [a, b][..1] == [a];
  }

  /** What recording an operation writes: nothing for an update that leaves subject and status as they were; for any
      other one the old lease dropped, then the new one added, in so far as they count. */
  lemma OpLinesMean(op: Op)
    ensures match op
            case CreateOp(l) => OpLines(op) == AddLine(l)
            case DeleteOp(p) => OpLines(op) == DropLine(p)
            case UpdateOp(p, l) =>
              OpLines(op) == if p.subject == l.subject && p.status == l.status then [] else DropLine(p) + AddLine(l)
  {
    hide EffectLines;
    match op
    case CreateOp(l) =>
      EffectLinesShort(Created(l), Created(l));
    case DeleteOp(p) =>
      EffectLinesShort(Removed(p), Removed(p));
    case UpdateOp(p, l) =>
      UpdateTypeMeans(p, l);
      EffectLinesShort(Removed(p), Created(l));
  }

  /** Renewals, and nothing else. */
  ghost predicate OnlyRenewals(ops: seq<Op>) {
    forall op :: op in ops ==>
                   && op.UpdateOp?
                   && op.previous.subject == op.lease.subject && op.previous.status == op.lease.status
  }

  /** A log of renewals writes nothing. */
  lemma {:induction false} RenewalsAreSilent(ops: seq<Op>)
    requires OnlyRenewals(ops)
    ensures RecordLines(ops) == []
  {
    hide OpLines;
    if ops != [] {
      RenewalsAreSilent(ops[..|ops| - 1]);
      OpLinesMean(ops[|ops| - 1]);
    }
  }

  function AddedIf(): Line -> multiset<Entry> {
    (l: Line) => if l.Added? then multiset{l.entry} else multiset{}
  }

  function DroppedIf(): Line -> multiset<Entry> {
    (l: Line) => if l.Dropped? then multiset{l.entry} else multiset{}
  }

  function ListedIf(): Line -> multiset<Entry> {
    (l: Line) => if l.Listed? then multiset{l.entry} else multiset{}
  }

  function Additions(lines: seq<Line>): multiset<Entry> {
    Project(AddedIf(), lines)
  }

  function Drops(lines: seq<Line>): multiset<Entry> {
    Project(DroppedIf(), lines)
  }

  // ----------------------------------------------------- blocks and stores

  /** How many times the stored leases would be listed as `e`. */
  function Stock(st: Store, e: Entry): nat {
    Listing(st.Leases(e.subject.resource))[e]
  }

  ghost predicate OwnLeases(st: Store) {
    forall r :: AllFor(r, st.Leases(r))
  }

  ghost predicate AllListed(lines: seq<Line>, nano: int) {
    forall l :: l in lines ==> l.Listed? && l.nano == nano
  }

  /** The lines of a checkpoint block, from its start to its end. */
  ghost predicate BlockText(block: seq<Line>, nano: int) {
    exists lines :: AllListed(lines, nano) && block == [Start(nano)] + lines + [End(nano)]
  }

  /** A checkpoint block that lists exactly what is stored, in any order. */
  ghost predicate IsBlock(block: seq<Line>, nano: int, st: Store) {
    BlockText(block, nano) && forall e :: Project(ListedIf(), block)[e] == Stock(st, e)
  }

  datatype Schedule = EveryOps(ops: nat) | EveryDuration(duration: Duration)

  /** Enough effects have been recorded for a checkpoint. */
  ghost predicate Due(schedule: seq<Schedule>, passed: int) {
    exists n: nat :: EveryOps(n) in schedule && 0 < n <= passed
  }

  class LogProvider {
    const source: MemProvider
    const schedule: seq<Schedule>
    var log: seq<Line>
    var ops: nat        // Consumptive effects recorded so far
    var lastOps: nat    // The same at the last checkpoint
    var lastWhen: Time  // When that was
    var tasks: nat      // Checkpoints started in the background and not run yet

    constructor (source: MemProvider, schedule: seq<Schedule>)
      ensures this.source == source && this.schedule == schedule
      ensures log == [] && ops == lastOps == tasks == 0 && lastWhen == ZERO_TIME
    {
      this.source, this.schedule := source, schedule;
      log, ops, lastOps, lastWhen, tasks := [], 0, 0, ZERO_TIME, 0;
    }

    /** The smallest positive number of operations scheduled. */
    method OpsSchedule() returns (due: Option<nat>)
      ensures due.Some? ==> due.value > 0 && EveryOps(due.value) in schedule
      ensures forall n: nat :: EveryOps(n) in schedule && n > 0 ==> due.Some? && due.value <= n
    {
      due := None;
      for i := 0 to |schedule|
        invariant due.Some? ==> due.value > 0 && EveryOps(due.value) in schedule
        invariant forall n: nat :: EveryOps(n) in schedule[..i] && n > 0 ==> due.Some? && due.value <= n
      {
        match schedule[i] {
          case EveryOps(n) =>
            if n != 0 && (due.None? || n < due.value) {
              due := Some(n);
            }
          case EveryDuration(_) =>
        }
      }
    }

    /** Commits to the source, and records the transaction when that succeeds. */
    method LeaseCommit(tx: Tx) returns (ok: bool)
      modifies this, source
      ensures StoreCommits(Mem(old(source.pages)), tx.resource, tx.revision, tx.ops, tx.leases, Mem(source.pages), ok)
      ensures lastOps == old(lastOps) && lastWhen == old(lastWhen)
      ensures var lines := if ok then RecordLines(tx.ops) else [];
              && log == old(log) + lines && ops == old(ops) + |lines|
              && tasks == old(tasks) + if lines != [] && Due(schedule, ops - lastOps) then 1 else 0
      ensures OnlyRenewals(tx.ops) ==> log == old(log) && ops == old(ops) && tasks == old(tasks)
    {
      hide StoreCommits, RecordLines, Due, OnlyRenewals;
      if OnlyRenewals(tx.ops) {
        RenewalsAreSilent(tx.ops);
      }
      ok := source.LeaseCommit(tx);
      if ok {
        Record(tx.ops);
      }
    }

    /** Writes one line for each effect on a lease that counts, renewals apart. */
    method Record(edits: seq<Op>)
      modifies this`log, this`ops, this`tasks
      ensures log == old(log) + RecordLines(edits) && ops == old(ops) + |RecordLines(edits)|
      ensures tasks == old(tasks) + if RecordLines(edits) != [] && Due(schedule, ops - lastOps) then 1 else 0
      ensures OnlyRenewals(edits) ==> log == old(log) && ops == old(ops) && tasks == old(tasks)
    {
      hide *;
      if OnlyRenewals(edits) {
        RenewalsAreSilent(edits);
      }
      var count := 0;
      ghost var lines := [];
      RecordNone();
      for i := 0 to |edits|
        invariant lines == RecordLines(edits[..i]) && log == old(log) + lines && count == |lines|
        invariant ops == old(ops) && tasks == old(tasks)
      {
        RecordStep(edits, i);
        var written := RecordOp(edits[i]);
        count, lines := count + written, RecordLines(edits[..i + 1]);
      }
      assert edits[..|edits|] == edits;
      Add(count);
    }

    method RecordOp(op: Op) returns (count: nat)
      modifies this`log
      ensures log == old(log) + OpLines(op) && count == |OpLines(op)|
      ensures match op
              case CreateOp(l) => log == old(log) + AddLine(l)
              case DeleteOp(p) => log == old(log) + DropLine(p)
              case UpdateOp(p, l) =>
                log == old(log) + if p.subject == l.subject && p.status == l.status then []
                                  else DropLine(p) + AddLine(l)
    {
      hide EffectLines, EffectLine, AddLine, DropLine;
      OpLinesMean(op);
      if op.UpdateOp? && op.UpdateType() == Renew {
        return 0;
      }
      count := 0;
      var effects := op.Effects();
      EffectNone();
      assert effects[..0] == [];
      for i := 0 to |effects|
        invariant log == old(log) + EffectLines(effects[..i]) && count == |EffectLines(effects[..i])|
      {
        EffectStep(effects, i);
        var e := effects[i];
        if e.lease.Consumptive() {
          log := log + [if e.Removed? then Dropped(EntryOf(e.lease)) else Added(EntryOf(e.lease))];
          count := count + 1;
        }
      }
      assert effects[..|effects|] == effects;
    }

    /** Counts recorded effects, and starts a checkpoint in the background when enough have gone by. */
    method Add(count: nat)
      modifies this`ops, this`tasks
      ensures ops == old(ops) + count
      ensures tasks == old(tasks) + if count > 0 && Due(schedule, ops - lastOps) then 1 else 0
      ensures tasks == old(tasks) + 1 <==>
              count > 0 && exists n: nat :: EveryOps(n) in schedule && 0 < n <= ops - lastOps
    {
      if count == 0 {
        return;
      }
      ops := ops + count;
      var due := OpsSchedule();
      if due.Some? && ops - lastOps >= due.value {
        tasks := tasks + 1;
      }
    }

    /** A checkpoint started in the background, with the smallest number scheduled: it gives way to one
        that was quicker. */
    method OpsCheckpoint(due: nat, nano: int, when: Time) returns (ghost block: seq<Line>)
      requires tasks > 0 && OwnLeases(Mem(source.pages))
      modifies this`log, this`lastOps, this`lastWhen, this`tasks
      ensures tasks == old(tasks) - 1
      ensures if ops - old(lastOps) < due then log == old(log) && lastOps == old(lastOps) && lastWhen == old(lastWhen)
              else log == old(log) + block && IsBlock(block, nano, Mem(source.pages))
                   && lastOps == ops && lastWhen == when
    {
      tasks := tasks - 1;
      block := [];
      if ops - lastOps < due {
        return;
      }
      block := Checkpoint(nano, when);
    }

    /** Writes all consumptive leases of all resources as one block. */
    method Checkpoint(nano: int, when: Time) returns (ghost block: seq<Line>)
      requires OwnLeases(Mem(source.pages))
      modifies this`log, this`lastOps, this`lastWhen
      ensures log == old(log) + block && IsBlock(block, nano, Mem(source.pages))
      ensures lastOps == ops && lastWhen == when
    {
      hide *;
      log := log + [Start(nano)];
      var lines := ListResources(nano);
      log := log + lines;
      log := log + [End(nano)];
      block := [Start(nano)] + lines + [End(nano)];
      BlockListed(lines, nano, Mem(source.pages));
      lastOps, lastWhen := ops, when;
    }

    method ListResources(nano: int) returns (lines: seq<Line>)
      requires OwnLeases(Mem(source.pages))
      ensures AllListed(lines, nano)
      ensures forall e :: Project(ListedIf(), lines)[e] == Stock(Mem(source.pages), e)
    {
      hide Project, Listing, AllFor;
      var pages := source.pages;
      var todo := pages.Keys;
      lines := [];
      NothingListed();
      while todo != {}
        invariant todo <= pages.Keys
        invariant AllListed(lines, nano)
        invariant forall e: Entry :: Project(ListedIf(), lines)[e] ==
                    if e.subject.resource in pages && e.subject.resource !in todo then Stock(Mem(pages), e) else 0
        decreases |todo|
      {
        var resource :| resource in todo;
        var more := ListLeases(nano, pages[resource].leases);
        assert AllFor(resource, Mem(pages).Leases(resource));
        ListingForeign(resource, pages[resource].leases);
        ProjectAppend(ListedIf(), lines, more);
        lines := lines + more;
        todo := todo - {resource};
      }
      NothingStocked(pages);
    }

    method ListLeases(nano: int, leases: seq<Lease>) returns (lines: seq<Line>)
      ensures Project(ListedIf(), lines) == Listing(leases)
      ensures AllListed(lines, nano)
    {
      lines := [];
      for i := 0 to |leases|
        invariant Project(ListedIf(), lines) == Listing(leases[..i])
        invariant AllListed(lines, nano)
      {
        ListingLast(leases, i);
        if leases[i].Consumptive() {
          ListedOne(lines, Listed(nano, EntryOf(leases[i])));
          lines := lines + [Listed(nano, EntryOf(leases[i]))];
        }
      }
      assert leases[..|leases|] == leases;
    }
  }

  lemma EffectStep(effects: seq<Effect>, i: nat)
    requires i < |effects|
    ensures var e := effects[i];
            EffectLines(effects[..i + 1]) ==
            EffectLines(effects[..i])
              + (if !e.lease.Consumptive() then []
                 else [if e.Removed? then Dropped(EntryOf(e.lease)) else Added(EntryOf(e.lease))])
  {
    assert effects[..i + 1][..i] == effects[..i];
  }

  lemma EffectNone()
    ensures EffectLines([]) == []
  {
  }

  lemma RecordNone()
    ensures RecordLines([]) == []
  {
  }

  lemma RecordStep(ops: seq<Op>, i: nat)
    requires i < |ops|
    ensures RecordLines(ops[..i + 1]) == RecordLines(ops[..i]) + OpLines(ops[i])
  {
    assert ops[..i + 1][..i] == ops[..i];
  }

  lemma ListingLast(s: seq<Lease>, i: nat)
    requires i < |s|
    ensures Listing(s[..i + 1]) == Listing(s[..i]) + if s[i].Consumptive() then multiset{EntryOf(s[i])} else multiset{}
  {
    assert s[..i + 1][..i] == s[..i];
  }

  lemma ListedOne(lines: seq<Line>, l: Line)
    ensures Project(ListedIf(), lines + [l]) ==
            Project(ListedIf(), lines) + if l.Listed? then multiset{l.entry} else multiset{}
  {
    ProjectAppend(ListedIf(), lines, [l]);
    ProjectOne(ListedIf(), l);
  }

  lemma NothingListed()
    ensures Project(ListedIf(), []) == multiset{}
  {
  }

  /** A set of one resource's leases lists entries of that resource alone. */
  lemma ListingForeign(resource: string, s: seq<Lease>)
    requires AllFor(resource, s)
    ensures forall e :: e in Listing(s) ==> e.subject.resource == resource
  {
    forall e | e in Listing(s) ensures e.subject.resource == resource {
      var k := ProjectWitness(EntryIf(), s, e);
      assert s[k] in s;
    }
  }

  lemma NothingStocked(pages: map<string, Page>)
    ensures forall e: Entry :: e.subject.resource !in pages ==> Stock(Mem(pages), e) == 0
  {
    assert Listing([]) == multiset{};
  }

  lemma BlockLists(lines: seq<Line>, nano: int)
    ensures Project(ListedIf(), [Start(nano)] + lines + [End(nano)]) == Project(ListedIf(), lines)
  {
    hide Project;
    ListedOne([Start(nano)] + lines, End(nano));
    ProjectAppend(ListedIf(), [Start(nano)], lines);
    ListedOne([], Start(nano));
    NothingListed();
    assert [] + [Start(nano)] == [Start(nano)];
  }

  lemma BlockListed(lines: seq<Line>, nano: int, st: Store)
    requires AllListed(lines, nano)
    requires forall e :: Project(ListedIf(), lines)[e] == Stock(st, e)
    ensures IsBlock([Start(nano)] + lines + [End(nano)], nano, st)
  {
    hide Project, Stock;
    BlockLists(lines, nano);
  }
}
