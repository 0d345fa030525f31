/** The guardian over the logging provider, with commits recorded concurrently: checkpoints always agree
    with the lines between them, and one is always on its way when enough has been recorded. */
module LogRuns {
  import opened Leases
  import opened Projections
  import opened LeaseSets
  import opened Transactions
  import opened Replays
  import opened Guardian
  import opened GuardianLaws
  import opened Providers
  import opened Systems
  import opened TransactionLogs
  import opened LogLaws

  /** A commit being recorded: it has written some lines, and has not counted any yet. */
  datatype Writer = Writer(written: seq<Line>, unwritten: seq<Line>)

  datatype LogState = LogState(
    sys: System, schedule: seq<Schedule>, log: seq<Line>, writers: seq<Writer>, ops: nat, lastOps: nat, tasks: nat)

  // ----------------------------------------------------------- transitions

  ghost predicate LogInitial(g: LogState) {
    Initial(g.sys) && g.log == [] && g.writers == [] && g.ops == g.lastOps == g.tasks == 0
  }

  /** The guardian does something other than a commit. */
  ghost predicate Elsewhere(a: LogState, b: LogState) {
    && b == a.(sys := b.sys)
    && (|| Ticks(a.sys, b.sys)
        || (exists c, f :: Begins(a.sys, b.sys, c, f))
        || (exists c :: Retries(a.sys, b.sys, c))
        || (exists c, t, ops :: Computes(a.sys, b.sys, c, t, ops))
        || (exists c, store :: IsRefused(a.sys, b.sys, c, store))
        || (exists c :: Abandons(a.sys, b.sys, c)))
  }

  /** A commit succeeds at the source and starts to record its lines, holding a read lock. */
  ghost predicate Commits(a: LogState, b: LogState, c: nat, store: Store) {
    && Succeeds(a.sys, b.sys, c, store)
    && b == a.(sys := b.sys, writers := a.writers + [Writer([], RecordLines(a.sys.flights[c].stage.ops))])
  }

  function Without(ws: seq<Writer>, k: nat): seq<Writer>
    requires k < |ws|
  {
    ws[..k] + ws[k + 1..]
  }

  /** Any of the commits under way writes its next line. */
  ghost predicate Writes(a: LogState, b: LogState, k: nat) {
    && k < |a.writers| && a.writers[k].unwritten != []
    && var w := a.writers[k];
       b == a.(log := a.log + [w.unwritten[0]],
               writers := Without(a.writers, k) + [Writer(w.written + [w.unwritten[0]], w.unwritten[1..])])
  }

  /** A commit has written all its lines: it counts them, starts a checkpoint if one is due, and gives up its lock. */
  ghost predicate Finishes(a: LogState, b: LogState, k: nat) {
    && k < |a.writers| && a.writers[k].unwritten == []
    && var count := |a.writers[k].written|;
       b == a.(writers := Without(a.writers, k), ops := a.ops + count,
               tasks := a.tasks + if count > 0 && Due(a.schedule, a.ops + count - a.lastOps) then 1 else 0)
  }

  /** A checkpoint by the timer or on demand: it holds the lock alone, so no commit is under way. */
  ghost predicate Checkpoints(a: LogState, b: LogState, nano: int, block: seq<Line>) {
    && a.writers == [] && IsBlock(block, nano, a.sys.store)
    && b == a.(log := a.log + block, lastOps := a.ops)
  }

  ghost predicate Smallest(schedule: seq<Schedule>, due: nat) {
    due > 0 && EveryOps(due) in schedule && forall n: nat :: EveryOps(n) in schedule && n > 0 ==> due <= n
  }

  /** A checkpoint started in the background runs, or gives way to one that was quicker. */
  ghost predicate RunsTask(a: LogState, b: LogState, due: nat, nano: int, block: seq<Line>) {
    && a.writers == [] && a.tasks > 0 && Smallest(a.schedule, due)
    && if a.ops - a.lastOps < due then b == a.(tasks := a.tasks - 1)
       else Checkpoints(a.(tasks := a.tasks - 1), b, nano, block)
  }

  ghost predicate LogNext(a: LogState, b: LogState) {
    || Elsewhere(a, b)
    || (exists c, store :: Commits(a, b, c, store))
    || (exists k :: Writes(a, b, k))
    || (exists k :: Finishes(a, b, k))
    || (exists nano, block :: Checkpoints(a, b, nano, block))
    || (exists due, nano, block :: RunsTask(a, b, due, nano, block))
  }

  ghost predicate LogBehavior(run: seq<LogState>) {
    run != [] && LogInitial(run[0]) && forall i :: 0 <= i < |run| - 1 ==> LogNext(run[i], run[i + 1])
  }

  // ------------------------------------------------------------ accounting

  function UnwrittenAdditions(): Writer -> multiset<Entry> {
    (w: Writer) => Additions(w.unwritten)
  }

  function UnwrittenDrops(): Writer -> multiset<Entry> {
    (w: Writer) => Drops(w.unwritten)
  }

  function WrittenLines(): Writer -> multiset<Line> {
    (w: Writer) => multiset(w.written)
  }

  /** All that the last checkpoint and the lines since it add up to, with the lines still to come. */
  function Put(r: Reading, ws: seq<Writer>): multiset<Entry> {
    r.base + r.added + Project(UnwrittenAdditions(), ws)
  }

  function Taken(r: Reading, ws: seq<Writer>): multiset<Entry> {
    r.dropped + Project(UnwrittenDrops(), ws)
  }

  /** Lines written by commits that have not counted them yet. */
  function Ahead(ws: seq<Writer>): nat {
    |Project(WrittenLines(), ws)|
  }

  ghost predicate OnlyTx(ws: seq<Writer>) {
    forall w :: w in ws ==> AllTx(w.unwritten)
  }

  /** The log and the lines still to come account for exactly what is stored. */
  ghost predicate Accounted(g: LogState) {
    && Read(g.log).agrees && OnlyTx(g.writers)
    && forall e :: Put(Read(g.log), g.writers)[e] == Stock(g.sys.store, e) + Taken(Read(g.log), g.writers)[e]
  }

  /** The counter lags behind the log by what the commits under way have written, and a checkpoint is on
      its way whenever it shows one to be due. */
  ghost predicate Counted(g: LogState) {
    && g.lastOps <= g.ops
    && Read(g.log).since == g.ops - g.lastOps + Ahead(g.writers)
    && (Due(g.schedule, g.ops - g.lastOps) ==> g.tasks > 0)
  }

  ghost predicate LogSound(g: LogState) {
    Sound(g.sys) && Accounted(g) && Counted(g)
  }

  lemma NoWriters()
    ensures Project(UnwrittenAdditions(), []) == Project(UnwrittenDrops(), []) == multiset{} && Ahead([]) == 0
  {
  }

  lemma NothingDue(schedule: seq<Schedule>)
    ensures !Due(schedule, 0)
  {
  }

  lemma NothingStored(st: Store, e: Entry)
    requires st == Mem(map[]) || st == Bolt(0, map[])
    ensures Stock(st, e) == 0
  {
    assert Listing([]) == multiset{};
  }

  lemma LogInitialSound(g: LogState)
    requires LogInitial(g)
    ensures LogSound(g)
  {
    hide Sound, Stock;
    InitialSound(g.sys);
    NoWriters();
    NothingDue(g.schedule);
    assert Read([]) == NOTHING_READ;
    forall e ensures Stock(g.sys.store, e) == 0 {
      NothingStored(g.sys.store, e);
    }
  }

  // ---------------------------------------------------- one more writer

  lemma WriterMore(r: Reading, ws: seq<Writer>, w: Writer)
    ensures Put(r, ws + [w]) == Put(r, ws) + Additions(w.unwritten)
    ensures Taken(r, ws + [w]) == Taken(r, ws) + Drops(w.unwritten)
    ensures Ahead(ws + [w]) == Ahead(ws) + |w.written|
  {
    hide Project, Additions, Drops;
    ProjectAppend(UnwrittenAdditions(), ws, [w]);
    ProjectAppend(UnwrittenDrops(), ws, [w]);
    ProjectAppend(WrittenLines(), ws, [w]);
    ProjectOne(UnwrittenAdditions(), w);
    ProjectOne(UnwrittenDrops(), w);
    ProjectOne(WrittenLines(), w);
  }

  lemma WriterLess(r: Reading, ws: seq<Writer>, k: nat)
    requires k < |ws|
    ensures Put(r, ws) == Put(r, Without(ws, k)) + Additions(ws[k].unwritten)
    ensures Taken(r, ws) == Taken(r, Without(ws, k)) + Drops(ws[k].unwritten)
    ensures Ahead(ws) == Ahead(Without(ws, k)) + |ws[k].written|
  {
    hide Project, Additions, Drops;
    ProjectSplit(UnwrittenAdditions(), ws, k);
    ProjectSplit(UnwrittenDrops(), ws, k);
    ProjectSplit(WrittenLines(), ws, k);
  }

  lemma FirstLine(lines: seq<Line>)
    requires lines != []
    ensures Additions(lines) == AddedIf()(lines[0]) + Additions(lines[1..])
    ensures Drops(lines) == DroppedIf()(lines[0]) + Drops(lines[1..])
  {
    hide Project;
    assert lines == [lines[0]] + lines[1..];
    ProjectAppend(AddedIf(), [lines[0]], lines[1..]);
    ProjectAppend(DroppedIf(), [lines[0]], lines[1..]);
    ProjectOne(AddedIf(), lines[0]);
    ProjectOne(DroppedIf(), lines[0]);
  }

  /** A line moves from what is still to come to what the log says. */
  lemma LineMoves(r: Reading, ws: seq<Writer>, k: nat)
    requires k < |ws| && ws[k].unwritten != [] && IsTx(ws[k].unwritten[0])
    ensures var w := ws[k];
            var r', ws' := ReadLine(r, w.unwritten[0]),
                           Without(ws, k) + [Writer(w.written + [w.unwritten[0]], w.unwritten[1..])];
            && Put(r', ws') == Put(r, ws) && Taken(r', ws') == Taken(r, ws)
            && Ahead(ws') == Ahead(ws) + 1 && r'.since == r.since + 1 && r'.agrees == r.agrees
  {
    hide Project, Additions, Drops, Ahead;
    var w := ws[k];
    var moved := Writer(w.written + [w.unwritten[0]], w.unwritten[1..]);
    WriterLess(r, ws, k);
    FirstLine(w.unwritten);
    WriterMore(ReadLine(r, w.unwritten[0]), Without(ws, k), moved);
  }

  lemma OnlyTxMore(ws: seq<Writer>, w: Writer)
    requires OnlyTx(ws) && AllTx(w.unwritten)
    ensures OnlyTx(ws + [w])
  {
  }

  lemma OnlyTxLess(ws: seq<Writer>, k: nat)
    requires OnlyTx(ws) && k < |ws|
    ensures OnlyTx(Without(ws, k)) && AllTx(ws[k].unwritten)
  {
  }

  lemma WritesSound(a: LogState, b: LogState, k: nat)
    requires LogSound(a) && Writes(a, b, k)
    ensures LogSound(b)
  {
    hide Sound, Read, Put, Taken, Ahead, Due, Stock, Without, ReadLine, OnlyTx;
    var w := a.writers[k];
    OnlyTxLess(a.writers, k);
    assert w.unwritten[0] in w.unwritten;
    ReadOne(a.log, w.unwritten[0]);
    LineMoves(Read(a.log), a.writers, k);
    OnlyTxMore(Without(a.writers, k), Writer(w.written + [w.unwritten[0]], w.unwritten[1..]));
  }

  lemma FinishesSound(a: LogState, b: LogState, k: nat)
    requires LogSound(a) && Finishes(a, b, k)
    ensures LogSound(b)
  {
    hide Sound, Read, Put, Taken, Ahead, Due, Stock, Without, OnlyTx, Additions, Drops;
    OnlyTxLess(a.writers, k);
    WriterLess(Read(a.log), a.writers, k);
    NothingProjected();
  }

  lemma CheckpointsSound(a: LogState, b: LogState, nano: int, block: seq<Line>)
    requires Sound(a.sys) && Accounted(a) && Checkpoints(a, b, nano, block)
    ensures LogSound(b)
  {
    hide Sound, Read, Due, Stock, Project, BlockText, OnlyTx, Ahead;
    NoWriters();
    NothingDue(a.schedule);
    ReadBlock(a.log, block, nano);
    var r, listed := Read(a.log), Project(ListedIf(), block);
    forall e ensures (r.base + r.added)[e] == (listed + r.dropped)[e] {
      assert Put(r, [])[e] == Stock(a.sys.store, e) + Taken(r, [])[e];
    }
    assert r.base + r.added == listed + r.dropped;
  }

  lemma RunsTaskSound(a: LogState, b: LogState, due: nat, nano: int, block: seq<Line>)
    requires LogSound(a) && RunsTask(a, b, due, nano, block)
    ensures LogSound(b)
  {
    hide Sound, Read, Put, Taken, Ahead, Stock, OnlyTx, IsBlock;
    if a.ops - a.lastOps < due {
      assert !Due(a.schedule, a.ops - a.lastOps);
    } else {
      CheckpointsSound(a.(tasks := a.tasks - 1), b, nano, block);
    }
  }

  lemma ElsewhereSound(a: LogState, b: LogState)
    requires LogSound(a) && Elsewhere(a, b)
    ensures LogSound(b)
  {
    hide Sound, Read, Put, Taken, Ahead, Due, OnlyTx, Listing, Ticks, Begins, Retries, Computes, IsRefused, Abandons;
    assert Next(a.sys, b.sys);
    NextSound(a.sys, b.sys);
    forall r ensures b.sys.store.Leases(r) == a.sys.store.Leases(r) {
      ElsewhereKeeps(a, b, r);
    }
  }

  lemma ElsewhereKeeps(a: LogState, b: LogState, r: string)
    requires Elsewhere(a, b)
    ensures b.sys.store.Leases(r) == a.sys.store.Leases(r)
  {
    hide Step, StoreCommits;
    if c, store :| IsRefused(a.sys, b.sys, c, store) {
      var f := a.sys.flights[c];
      NothingRefused(a.sys.store, f.resource, f.revision, f.stage.ops, f.stage.leases, store);
    }
  }

  // -------------------------------------------------------------- commits

  lemma {:induction false} RecordAllTx(ops: seq<Op>)
    ensures AllTx(RecordLines(ops))
  {
    if ops != [] {
      RecordAllTx(ops[..|ops| - 1]);
      EffectAllTx(ops[|ops| - 1].Effects());
    }
  }

  lemma {:induction false} EffectAllTx(effects: seq<Effect>)
    ensures AllTx(EffectLines(effects))
  {
    if effects != [] {
      EffectAllTx(effects[..|effects| - 1]);
    }
  }

  /** A commit's lines account for the difference it makes to the stock of every entry. */
  lemma CommitAccounts(a: System, b: System, c: nat, store: Store, e: Entry)
    requires Sound(a) && Succeeds(a, b, c, store)
    ensures var lines := RecordLines(a.flights[c].stage.ops);
            Stock(a.store, e) + Additions(lines)[e] == Stock(b.store, e) + Drops(lines)[e]
  {
    hide Step, Sequential, Stored, Sorted, Replay, StoreCommits, LastTime, ReplaysTo, Listing, Additions, Drops,
         RecordLines, Balanced;
    var f := a.flights[c];
    assert FlightSound(a, f);
    ReadyReplays(a, f);
    CommitMeans(a.store, f.resource, f.revision, f.stage.ops, f.stage.leases, store, true);
    if f.stage.ops == [] {
      RecordNone();
      NothingProjected();
    } else {
      SequentialStored(a.history, f.resource, f.base);
      StepLogs(f.pol, f.req, f.stage.now, f.resource, f.base, f.stage.leases, f.stage.ops);
      LinesAccount(f.base, f.stage.ops, f.stage.leases);
      ListingPermutation(store.Leases(f.resource), f.stage.leases);
      StepStored(f.pol, f.req, f.stage.now, f.resource, f.base, f.stage.leases, f.stage.ops);
      if e.subject.resource != f.resource {
        ForeignEntry(f.resource, f.base, e);
        ForeignEntry(f.resource, f.stage.leases, e);
      }
      assert (Listing(f.base) + Additions(RecordLines(f.stage.ops)))[e]
          == (Listing(f.stage.leases) + Drops(RecordLines(f.stage.ops)))[e];
    }
  }

  lemma ForeignEntry(resource: string, s: seq<Lease>, e: Entry)
    requires Stored(resource, s) && e.subject.resource != resource
    ensures Listing(s)[e] == 0
  {
    hide Sorted, Unique, Listing, Lease.WellFormed;
    ListingForeign(resource, s);
    assert e !in Listing(s);
  }

  lemma CommitsSound(a: LogState, b: LogState, c: nat, store: Store)
    requires LogSound(a) && Commits(a, b, c, store)
    ensures LogSound(b)
  {
    hide Sound, Read, Put, Taken, Ahead, Due, Stock, OnlyTx, StoreCommits, RecordLines, Additions, Drops;
    SucceedsSound(a.sys, b.sys, c, store);
    var lines := RecordLines(a.sys.flights[c].stage.ops);
    WriterMore(Read(a.log), a.writers, Writer([], lines));
    RecordAllTx(a.sys.flights[c].stage.ops);
    OnlyTxMore(a.writers, Writer([], lines));
    forall e ensures Put(Read(b.log), b.writers)[e] == Stock(b.sys.store, e) + Taken(Read(b.log), b.writers)[e] {
      CommitAccounts(a.sys, b.sys, c, store, e);
    }
  }

  lemma LogNextSound(a: LogState, b: LogState)
    requires LogSound(a) && LogNext(a, b)
    ensures LogSound(b)
  {
    hide LogSound, Elsewhere, Commits, Writes, Finishes, Checkpoints, RunsTask;
    if Elsewhere(a, b) {
      ElsewhereSound(a, b);
    } else if c, store :| Commits(a, b, c, store) {
      CommitsSound(a, b, c, store);
    } else if k :| Writes(a, b, k) {
      WritesSound(a, b, k);
    } else if k :| Finishes(a, b, k) {
      FinishesSound(a, b, k);
    } else if nano, block :| Checkpoints(a, b, nano, block) {
      LogSoundParts(a);
      CheckpointsSound(a, b, nano, block);
    } else {
      var due, nano, block :| RunsTask(a, b, due, nano, block);
      RunsTaskSound(a, b, due, nano, block);
    }
  }

  lemma LogSoundParts(g: LogState)
    requires LogSound(g)
    ensures Sound(g.sys) && Accounted(g) && Counted(g)
  {
  }

  // ------------------------------------------------------- over every run

  lemma {:induction false} LogReachable(run: seq<LogState>, i: nat)
    requires LogBehavior(run) && i < |run|
    ensures LogSound(run[i])
  {
    hide LogSound, LogNext, LogInitial;
    if i == 0 {
      LogInitialSound(run[0]);
    } else {
      LogReachable(run, i - 1);
      LogNextSound(run[i - 1], run[i]);
    }
  }

  /** In every run, whatever the order in which concurrent commits write their lines: a checkpoint lists
      exactly what the previous checkpoint and the lines between the two add up to, although renewals and
      leases that do not count are never recorded. `first` may be missing at the start of the log. */
  lemma CheckpointsAgree(run: seq<LogState>, i: nat, before: seq<Line>, first: seq<Line>, n1: int,
                         between: seq<Line>, second: seq<Line>, n2: int)
    requires LogBehavior(run) && i < |run| && before + first + between + second <= run[i].log
    requires BlockText(first, n1) || (before == [] && first == [])
    requires AllTx(between) && BlockText(second, n2)
    ensures Project(ListedIf(), first) + Additions(between) == Project(ListedIf(), second) + Drops(between)
  {
    hide LogBehavior, Read, Project, Additions, Drops, BlockText, AllTx, Sound, Counted, OnlyTx;
    LogReachable(run, i);
    var text := before + first + between + second;
    assert run[i].log == text + run[i].log[|text|..];
    AgreesBefore(text, run[i].log[|text|..]);
    ReadBlock(before + first + between, second, n2);
    ReadTx(before + first, between);
    if BlockText(first, n1) {
      ReadBlock(before, first, n1);
    } else {
      assert before + first == [];
      NothingListed();
      ReadNothing();
    }
    assert multiset{} + Additions(between) == Additions(between) && multiset{} + Drops(between) == Drops(between);
  }

  lemma ReadNothing()
    ensures Read([]) == NOTHING_READ
  {
  }

  /** In every run a checkpoint is under way as soon as the operations counted since the last one reach the
      smallest number scheduled; and while no commit is being recorded those are the lines logged since. */
  lemma CheckpointPending(run: seq<LogState>, i: nat)
    requires LogBehavior(run) && i < |run|
    ensures Due(run[i].schedule, run[i].ops - run[i].lastOps) ==> run[i].tasks > 0
    ensures forall n: nat :: EveryOps(n) in run[i].schedule && 0 < n <= run[i].ops - run[i].lastOps ==> run[i].tasks > 0
    ensures run[i].writers == [] ==> Read(run[i].log).since == run[i].ops - run[i].lastOps
  {
    hide LogBehavior, Sound, Accounted, Read;
    LogReachable(run, i);
    NoWriters();
  }

  /** A checkpoint that was started by operations never runs when fewer lines than scheduled have been logged
      since the last checkpoint. */
  lemma NeverEarly(run: seq<LogState>, i: nat, due: nat, nano: int, block: seq<Line>)
    requires LogBehavior(run) && i < |run| - 1 && RunsTask(run[i], run[i + 1], due, nano, block)
    ensures if Read(run[i].log).since >= due then run[i + 1].log == run[i].log + block
            else run[i + 1].log == run[i].log
  {
    hide LogBehavior, Read, Due;
    CheckpointPending(run, i);
  }

  /** Every reachable store can be checkpointed: each resource holds leases of its own only. */
  lemma AlwaysOwn(run: seq<LogState>, i: nat)
    requires LogBehavior(run) && i < |run|
    ensures OwnLeases(run[i].sys.store)
  {
    hide LogBehavior, Sound, Stored, Counted, Accounted;
    LogReachable(run, i);
    forall r ensures AllFor(r, run[i].sys.store.Leases(r)) {
      SoundStored(run[i].sys, r);
      StoredFor(r, run[i].sys.store.Leases(r));
    }
  }

  lemma StoredFor(resource: string, s: seq<Lease>)
    requires Stored(resource, s)
    ensures AllFor(resource, s)
  {
    hide Sorted, Unique, Lease.WellFormed;
  }
}
