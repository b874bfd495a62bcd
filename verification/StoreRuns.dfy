/** What every sequence of store operations keeps: which snapshot may be served, and how many are kept. */
module StoreRuns {

  import opened Wrappers
  import opened EngineTypes
  import opened Sequences
  import opened Sorting
  import opened Chain
  import opened PoolEvents
  import opened Snapshots
  import opened SnapshotJson
  import opened Store

  datatype Op =
    | OpenUnder(model: ModelVersion)
    | ChangeStatus(status: Status, code: Option<Code>)
    | CommitOne(batch: Batch)
    | RetainSome(headers: seq<Header>)
    | ChooseSource(source: Source)
    | RollBack(block: nat)
    | Replay(model: ModelVersion)
    | Publish(snapshot: PublicSnapshot, now: int)

  /** A failed operation leaves the tables as they were. */
  function Settle(db: Db, r: Result<Db, Code>): Db {
    if r.Ok? then r.value else db
  }

  function Apply(cfg: Config, digest: Tree -> nat, db: Db, op: Op): Db {
    match op
    case OpenUnder(model) => EnsureModelVersion(db, model)
    case ChangeStatus(status, code) => SetStatus(db, status, code)
    case CommitOne(batch) => Settle(db, CommitBatch(db, batch))
    case RetainSome(headers) => Settle(db, RetainHeaders(db, headers))
    case ChooseSource(source) => InitializeSource(db, source)
    case RollBack(block) => Settle(db, RollbackTo(db, block))
    case Replay(model) => ResetForReplay(db, model)
    case Publish(snapshot, now) => PersistSnapshot(db, RowFor(cfg, digest, snapshot, now))
  }

  /** The snapshot that was published last and has not been withdrawn since. */
  function Served(db: Db, op: Op, before: Option<PublicSnapshot>): Option<PublicSnapshot> {
    match op
    case Publish(snapshot, _) => Some(snapshot)
    case OpenUnder(model) => if db.state.model == model then before else None
    case ChangeStatus(status, code) => if Servable(status, code) then before else None
    case RollBack(block) => if block in db.blocks then None else before
    case Replay(_) => None
    case _ => before
  }

  datatype Run = Run(db: Db, served: Option<PublicSnapshot>)

  function After(cfg: Config, digest: Tree -> nat, start: ModelVersion, ops: seq<Op>): Run {
    if ops == [] then Run(Fresh(start), None)
    else
      var before := After(cfg, digest, start, ops[..|ops| - 1]);
      var op := ops[|ops| - 1];
      Run(Apply(cfg, digest, before.db, op), Served(before.db, op, before.served))
  }

  function OfHash(hash: nat): SnapshotRow -> bool {
    (row: SnapshotRow) => row.hash == hash
  }

  /** The snapshot hash is a primary key. */
  ghost predicate UniqueHashes(rows: seq<SnapshotRow>) {
    forall h :: |Filter(rows, OfHash(h))| <= 1
  }

  ghost predicate Consistent(cfg: Config, digest: Tree -> nat, run: Run) {
    && UniqueHashes(run.db.snapshots)
    && |run.db.snapshots| <= MAX_SNAPSHOT_HISTORY
    && run.db.state.active.Some? == run.served.Some?
    && (run.served.Some? ==>
          && Servable(run.db.state.status, run.db.state.lastError)
          && exists row :: row in run.db.snapshots && row.hash == run.db.state.active.value
                           && row.text == CanonicalJson(cfg, run.served.value) && row.hash == digest(row.text))
  }

  lemma {:induction false} FindUnique(rows: seq<SnapshotRow>, row: SnapshotRow)
    requires row in rows && UniqueHashes(rows)
    ensures FindRow(rows, row.hash) == Some(row)
  {
    assert rows == [rows[0]] + rows[1..];
    if rows[0].hash == row.hash {
      var rest, same := rows[1..], Filter(rows[1..], OfHash(row.hash));
      assert |Filter(rows, OfHash(row.hash))| == 1 + |same|;
      assert row in rest ==> row in same;
    } else {
      forall h ensures |Filter(rows[1..], OfHash(h))| <= 1 {
        FilterConcat([rows[0]], rows[1..], OfHash(h));
      }
      FindUnique(rows[1..], row);
    }
  }

  lemma UniqueAfterFilter(rows: seq<SnapshotRow>, p: SnapshotRow -> bool)
    requires UniqueHashes(rows)
    ensures UniqueHashes(Filter(rows, p))
  {
    forall h ensures |Filter(Filter(rows, p), OfHash(h))| <= 1 {
      var both := (row: SnapshotRow) => p(row) && OfHash(h)(row);
      FilterFilter(rows, p, OfHash(h), both);
      FilterMonotone(rows, both, OfHash(h));
    }
  }

  lemma UniqueAfterTake(rows: seq<SnapshotRow>, n: nat)
    requires UniqueHashes(rows)
    ensures UniqueHashes(Take(rows, n))
  {
    forall h ensures |Filter(Take(rows, n), OfHash(h))| <= 1 {
      assert rows == Take(rows, n) + rows[|Take(rows, n)|..];
      FilterConcat(Take(rows, n), rows[|Take(rows, n)|..], OfHash(h));
      assert |Filter(rows, OfHash(h))| <= 1;
    }
  }

  /** Pruning keeps the published row, keeps hashes unique, and keeps at most three rows. */
  lemma PruneKeeps(db: Db, row: SnapshotRow)
    requires UniqueHashes(db.snapshots)
    ensures var pruned := PersistSnapshot(db, row).snapshots;
            UniqueHashes(pruned) && |pruned| <= MAX_SNAPSHOT_HISTORY && row in pruned
  {
    var others := Filter(db.snapshots, OtherThan(row.hash));
    var sorted := Sort(NewestFirst(), others);
    var kept := Take(sorted, MAX_SNAPSHOT_HISTORY - 1);
    UniqueAfterFilter(db.snapshots, OtherThan(row.hash));
    forall h ensures |Filter(sorted, OfHash(h))| <= 1 {
      FilterPermutation(sorted, others, OfHash(h));
    }
    UniqueAfterTake(sorted, MAX_SNAPSHOT_HISTORY - 1);
    PermutationBasics(sorted, others);
    forall i | 0 <= i < |kept| ensures kept[i].hash != row.hash {
      assert sorted[i] in sorted;
      assert OtherThan(row.hash)(sorted[i]);
    }
    forall h ensures |Filter([row] + kept, OfHash(h))| <= 1 {
      FilterConcat([row], kept, OfHash(h));
      if h == row.hash {
        FilterNone(kept, OfHash(h));
      }
    }
  }

  lemma RollbackKeeps(cfg: Config, digest: Tree -> nat, run: Run, block: nat)
    requires Consistent(cfg, digest, run)
    ensures Consistent(cfg, digest, Run(Apply(cfg, digest, run.db, RollBack(block)),
                                        Served(run.db, RollBack(block), run.served)))
  {
    UniqueAfterFilter(run.db.snapshots, ObservedBy(block));
  }

  lemma CommitKeepsRest(db: Db, batch: Batch)
    requires CommitBatch(db, batch).Ok?
    ensures var after := CommitBatch(db, batch).value;
            && after.snapshots == db.snapshots && after.state.active == db.state.active
            && after.state.lastError == db.state.lastError && after.state.status == Syncing
  {
    InsertKeepsRest(db.(blocks := UpsertAll(db.blocks, batch.headers).value), batch.events);
  }

  lemma PublishKeeps(cfg: Config, digest: Tree -> nat, run: Run, s: PublicSnapshot, row: SnapshotRow)
    requires Consistent(cfg, digest, run)
    requires row.text == CanonicalJson(cfg, s) && row.hash == digest(row.text)
    ensures Consistent(cfg, digest, Run(PersistSnapshot(run.db, row), Some(s)))
  {
    PruneKeeps(run.db, row);
    var pruned := PersistSnapshot(run.db, row).snapshots;
    assert row in pruned;
  }

  lemma StatusKeeps(cfg: Config, digest: Tree -> nat, run: Run, status: Status, code: Option<Code>)
    requires Consistent(cfg, digest, run)
    ensures Consistent(cfg, digest, Run(SetStatus(run.db, status, code),
                                        if Servable(status, code) then run.served else None))
  {
  }

  /** Operations that leave the snapshots and the serving columns alone, or set the status to syncing. */
  lemma UnservedKeeps(cfg: Config, digest: Tree -> nat, run: Run, after: Db)
    requires Consistent(cfg, digest, run)
    requires after.snapshots == run.db.snapshots && after.state.active == run.db.state.active
    requires after.state.lastError == run.db.state.lastError
    requires after.state.status == run.db.state.status || after.state.status == Syncing
    ensures Consistent(cfg, digest, Run(after, run.served))
  {
  }

  lemma StepKeeps(cfg: Config, digest: Tree -> nat, run: Run, op: Op)
    requires Consistent(cfg, digest, run)
    ensures Consistent(cfg, digest, Run(Apply(cfg, digest, run.db, op), Served(run.db, op, run.served)))
  {
    hide CanonicalJson, RollbackTo, CommitBatch, PersistSnapshot;
    match op
    case RollBack(block) => RollbackKeeps(cfg, digest, run, block);
    case CommitOne(batch) =>
      if CommitBatch(run.db, batch).Ok? {
        CommitKeepsRest(run.db, batch);
      }
      UnservedKeeps(cfg, digest, run, Settle(run.db, CommitBatch(run.db, batch)));
    case RetainSome(headers) => UnservedKeeps(cfg, digest, run, Settle(run.db, RetainHeaders(run.db, headers)));
    case ChooseSource(source) => UnservedKeeps(cfg, digest, run, InitializeSource(run.db, source));
    case Publish(s, now) => PublishKeeps(cfg, digest, run, s, RowFor(cfg, digest, s, now));
    case ChangeStatus(status, code) => StatusKeeps(cfg, digest, run, status, code);
    case OpenUnder(_) =>
    case Replay(_) =>
  }

  lemma {:induction false} RunsAreConsistent(cfg: Config, digest: Tree -> nat, start: ModelVersion, ops: seq<Op>)
    ensures Consistent(cfg, digest, After(cfg, digest, start, ops))
  {
    if ops != [] {
      RunsAreConsistent(cfg, digest, start, ops[..|ops| - 1]);
      StepKeeps(cfg, digest, After(cfg, digest, start, ops[..|ops| - 1]), ops[|ops| - 1]);
    }
  }

  /**
   After any run, loading succeeds exactly when a snapshot is active, and then gives the one published
   last, which nothing has withdrawn since. The active row is stored, and at most three rows are.
   */
  lemma LoadServesLastPublished(cfg: Config, digest: Tree -> nat, start: ModelVersion, ops: seq<Op>)
    requires ValidConfig(cfg)
    ensures var run := After(cfg, digest, start, ops);
            var loaded := LoadComplete(run.db, cfg, digest);
            && (loaded.Ok? <==> run.db.state.active.Some?)
            && (loaded.Ok? <==> run.served.Some?)
            && (loaded.Ok? ==> loaded.value == Canonical(cfg, run.served.value))
            && (run.db.state.active.Some? ==>
                  && Servable(run.db.state.status, run.db.state.lastError)
                  && FindRow(run.db.snapshots, run.db.state.active.value).Some?)
            && |run.db.snapshots| <= MAX_SNAPSHOT_HISTORY
  {
    hide After, CanonicalJson, Canonical, ParseSnapshot;
    var run := After(cfg, digest, start, ops);
    RunsAreConsistent(cfg, digest, start, ops);
    if run.served.Some? {
      var row :| row in run.db.snapshots && row.hash == run.db.state.active.value
                 && row.text == CanonicalJson(cfg, run.served.value) && row.hash == digest(row.text);
      FindUnique(run.db.snapshots, row);
      StoredRoundTrip(cfg, run.served.value);
    }
  }
}
