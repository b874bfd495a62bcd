/**
 How events below the source block come to be stored, and how long they stay. The moves are the transactions that
 the indexer makes; they may come from any attempts against any chains.
 */
module BelowSource {

  import opened Wrappers
  import opened EngineTypes
  import opened Chain
  import opened PoolEvents
  import opened Index
  import opened Store
  import opened IndexedStore
  import opened Publication
  import opened BoundarySearch

  datatype Move =
    | CommitNext(batch: Batch, chain: seq<Body>)
    | RetainOnHistory(headers: seq<Header>)
    | Choose(chain: seq<Body>, head: nat, n: nat, required: nat)
    | RollBack(block: nat, chain: seq<Body>)
    | MarkStatus(status: Status, code: Option<Code>)
    | Publish(row: SnapshotRow)
    | Reset(model: ModelVersion)

  /** The block the next batch starts at. */
  function StartOf(db: Db): nat
    requires db.state.source.Some?
  {
    if db.state.cursor.None? then db.state.source.value.at.block else db.state.cursor.value.block + 1
  }

  /** The search puts the source at this block, which is early enough. */
  ghost predicate Searched(cfg: Config, chain: seq<Body>, head: nat, n: nat, required: nat) {
    && Monotone(chain) && cfg.deploymentBlock < |chain| && n < |chain|
    && IsBoundary(HeaderAt(chain, n), chain, cfg.deploymentBlock, head, required) && chain[n].timestamp <= required
  }

  /**
   The move is one the indexer may make here, and this is what it leaves. A source is where the search puts it, and
   a rollback answers a chain that the cursor is not on and keeps a header of that chain.
   */
  ghost predicate Takes(db: Db, move: Move, after: Db, cfg: Config) {
    match move
    case CommitNext(batch, chain) =>
      && db.state.source.Some? && CursorOn(db, chain)
      && BatchOf(batch, cfg, db.state.model, chain, StartOf(db)) && CommitBatch(db, batch) == Ok(after)
    case RetainOnHistory(headers) =>
      && db.state.cursor.Some? && RetainHeaders(db, headers) == Ok(after)
      && var hash := db.state.cursor.value.hash;
         forall h :: h in headers ==> h.number < |hash| && h == HeaderAt(hash, h.number)
    case Choose(chain, head, n, required) =>
      && db.state.source.None? && Searched(cfg, chain, head, n, required)
      && RetainHeaders(db, [HeaderAt(chain, n)]).Ok?
      && after == InitializeSource(RetainHeaders(db, [HeaderAt(chain, n)]).value,
                                   Source(PointOf(HeaderAt(chain, n)), required))
    case RollBack(block, chain) =>
      && db.state.cursor.Some? && !CursorOn(db, chain) && block in db.blocks && block < |chain|
      && db.blocks[block].hash == HeaderAt(chain, block).hash && RollbackTo(db, block) == Ok(after)
    case MarkStatus(status, code) => after == SetStatus(db, status, code)
    case Publish(row) => after == PersistSnapshot(db, row)
    case Reset(model) => after == ResetForReplay(db, model)
  }

  lemma MovesKeepAnchored(db: Db, move: Move, after: Db, cfg: Config)
    requires ValidConfig(cfg) && Anchored(db, cfg) && Takes(db, move, after, cfg)
    ensures Anchored(after, cfg)
  {
    hide Anchored, CommitBatch, RollbackTo, RetainHeaders, BatchOf, ValidConfig;
    match move
    case CommitNext(batch, chain) => CommitAnchored(db, batch, after, cfg, chain, StartOf(db));
    case RetainOnHistory(headers) => RetainAnchored(db, headers, cfg);
    case Choose(chain, head, n, required) => SourceAnchored(db, cfg, chain, n, required);
    case RollBack(block, _) => RollbackAnchored(db, cfg, block);
    case MarkStatus(_, _) => AnchoredElsewhere(db, after, cfg);
    case Publish(_) => AnchoredElsewhere(db, after, cfg);
    case Reset(model) => ResetAnchored(db, cfg, model);
  }

  // ----- which move lets events below the source in

  /** Nothing stored lies below the source block, and nothing below it comes next. */
  ghost predicate Above(db: Db) {
    db.state.source.Some? ==>
      && NoRowBelow(db, db.state.source.value.at.block)
      && (db.state.cursor.Some? ==> db.state.source.value.at.block <= db.state.cursor.value.block + 1)
  }

  /** A rollback that takes the next start below the source block; to be seen before it is made. */
  predicate DipsBelow(db: Db, move: Move) {
    move.RollBack? && db.state.source.Some? && move.block + 1 < db.state.source.value.at.block
  }

  lemma StoredRows(db: Db, cfg: Config) returns (rows: seq<PoolEvent>)
    requires Anchored(db, cfg)
    ensures Holds(db, rows) && Referenced(db.blocks, db.events) && Referenced(db.blocks, db.withdrawals)
  {
    if db.state.cursor.Some? {
      var from: nat :| IndexedFrom(db, cfg, from);
      rows := IndexOf(cfg, db.state.model, db.state.cursor.value.hash, from, db.state.cursor.value.block + 1);
    } else {
      rows := [];
    }
  }

  lemma RowsAbove(db: Db, rows: seq<PoolEvent>, block: nat)
    requires Holds(db, rows) && forall r :: r in rows ==> block <= r.block
    ensures NoRowBelow(db, block)
  {
  }

  lemma CommitStaysAbove(db: Db, batch: Batch, after: Db, cfg: Config, chain: seq<Body>)
    requires Anchored(db, cfg) && db.state.source.Some? && Above(db)
    requires BatchOf(batch, cfg, db.state.model, chain, StartOf(db)) && CommitBatch(db, batch) == Ok(after)
    ensures Above(after)
  {
    hide Anchored, Holds, Referenced, Clean, IndexOf, CommitBatch, NoRowBelow;
    var rows := StoredRows(db, cfg);
    CommittedRows(db, batch, after, rows);
    var s := db.state.source.value.at.block;
    RowsBetween(cfg, db.state.model, chain, StartOf(db), batch.through.number + 1);
    forall r | r in rows + batch.events ensures s <= r.block {
      if r in rows {
        RowIsStored(db, rows, r, s);
      }
    }
    RowsAbove(after, rows + batch.events, s);
  }

  lemma RollbackDips(db: Db, block: nat, after: Db)
    requires Above(db) && db.state.source.Some? && RollbackTo(db, block) == Ok(after) && KeyedBlocks(db.blocks)
    ensures forall chain :: Above(after) <==> !DipsBelow(db, RollBack(block, chain))
  {
    hide RollbackTo;
    RolledBack(db, block, after);
  }

  /** Every move but a rollback that dips below the source keeps it so, and such a rollback never does. */
  lemma OnlyDipsLeave(db: Db, move: Move, after: Db, cfg: Config)
    requires ValidConfig(cfg) && Anchored(db, cfg) && Takes(db, move, after, cfg) && Above(db)
    ensures Above(after) <==> !DipsBelow(db, move)
  {
    hide CommitBatch, RollbackTo, BatchOf, ValidConfig, IndexedFrom, SourceSound;
    BlocksAreKeyed(db, cfg);
    match move
    case CommitNext(batch, chain) => CommitStaysAbove(db, batch, after, cfg, chain);
    case RollBack(block, _) => RollbackDips(db, block, after);
    case RetainOnHistory(_) =>
    case Choose(_, _, _, _) =>
    case MarkStatus(_, _) =>
    case Publish(_) =>
    case Reset(_) =>
  }

  // ----- runs

  /** Each move leads from one state of the tables to the next. */
  ghost predicate IsRun(dbs: seq<Db>, moves: seq<Move>, cfg: Config) {
    && |dbs| == |moves| + 1
    && forall i :: 0 <= i < |moves| ==> Takes(dbs[i], moves[i], dbs[i + 1], cfg)
  }

  lemma {:induction false} RunKeepsAnchored(dbs: seq<Db>, moves: seq<Move>, cfg: Config, k: nat)
    requires ValidConfig(cfg) && IsRun(dbs, moves, cfg) && Anchored(dbs[0], cfg) && k < |dbs|
    ensures Anchored(dbs[k], cfg)
  {
    hide Anchored, Takes, ValidConfig;
    if k > 0 {
      RunKeepsAnchored(dbs, moves, cfg, k - 1);
      MovesKeepAnchored(dbs[k - 1], moves[k - 1], dbs[k], cfg);
    }
  }

  /** As long as no rollback dips below the source, no event below it is ever stored. */
  lemma {:induction false} RunStaysAbove(dbs: seq<Db>, moves: seq<Move>, cfg: Config, k: nat)
    requires ValidConfig(cfg) && IsRun(dbs, moves, cfg) && Anchored(dbs[0], cfg) && Above(dbs[0]) && k < |dbs|
    requires forall i :: 0 <= i < k ==> !DipsBelow(dbs[i], moves[i])
    ensures Above(dbs[k])
  {
    hide Anchored, Takes, ValidConfig, Above, DipsBelow;
    if k > 0 {
      RunStaysAbove(dbs, moves, cfg, k - 1);
      RunKeepsAnchored(dbs, moves, cfg, k - 1);
      OnlyDipsLeave(dbs[k - 1], moves[k - 1], dbs[k], cfg);
    }
  }

  /** Some run leads from one state of the tables to the other; a quiet one makes no reset. */
  ghost predicate Reaches(db: Db, after: Db, cfg: Config, quiet: bool) {
    exists dbs, moves :: IsRun(dbs, moves, cfg) && Joins(dbs, db, after) && (quiet ==> NoReset(moves))
  }

  ghost predicate Joins(dbs: seq<Db>, first: Db, last: Db) {
    dbs != [] && dbs[0] == first && dbs[|dbs| - 1] == last
  }

  predicate NoReset(moves: seq<Move>) {
    forall i :: 0 <= i < |moves| ==> !moves[i].Reset?
  }

  lemma ReachesItself(db: Db, cfg: Config)
    ensures Reaches(db, db, cfg, true)
  {
    assert IsRun([db], [], cfg) && Joins([db], db, db);
  }

  lemma ReachesByMove(db: Db, move: Move, after: Db, cfg: Config)
    requires Takes(db, move, after, cfg)
    ensures Reaches(db, after, cfg, !move.Reset?)
  {
    hide Takes;
    assert IsRun([db, after], [move], cfg) && Joins([db, after], db, after);
  }

  lemma ReachesOn(a: Db, b: Db, c: Db, cfg: Config, first: bool, second: bool)
    requires Reaches(a, b, cfg, first) && Reaches(b, c, cfg, second)
    ensures Reaches(a, c, cfg, first && second)
  {
    hide Takes;
    var dbs, moves :| IsRun(dbs, moves, cfg) && Joins(dbs, a, b) && (first ==> NoReset(moves));
    var dbs', moves' :| IsRun(dbs', moves', cfg) && Joins(dbs', b, c) && (second ==> NoReset(moves'));
    var all, both := dbs + dbs'[1..], moves + moves';
    forall i | 0 <= i < |both| ensures Takes(all[i], both[i], all[i + 1], cfg) {
      if i < |moves| {
        assert all[i] == dbs[i] && all[i + 1] == dbs[i + 1] && both[i] == moves[i];
      } else {
        assert all[i] == dbs'[i - |moves|] && all[i + 1] == dbs'[i - |moves| + 1] && both[i] == moves'[i - |moves|];
      }
    }
    assert IsRun(all, both, cfg) && Joins(all, a, c);
  }

  lemma ReachesAnchored(db: Db, after: Db, cfg: Config)
    requires ValidConfig(cfg) && Anchored(db, cfg) && Reaches(db, after, cfg, false)
    ensures Anchored(after, cfg)
  {
    hide Takes, Anchored, ValidConfig;
    var dbs, moves :| IsRun(dbs, moves, cfg) && Joins(dbs, db, after);
    RunKeepsAnchored(dbs, moves, cfg, |dbs| - 1);
  }

  /** Runs joined by their reset counts: quiet altogether exactly when the count has not moved. */
  lemma ReachesCounted(a: Db, b: Db, c: Db, cfg: Config, n: nat, m: nat, k: nat)
    requires n <= m <= k && Reaches(a, b, cfg, m == n) && Reaches(b, c, cfg, k == m)
    ensures Reaches(a, c, cfg, k == n)
  {
    hide Reaches;
    ReachesOn(a, b, c, cfg, m == n, k == m);
  }

  lemma ReachesByReset(db: Db, model: ModelVersion, after: Db, cfg: Config)
    requires after == ResetForReplay(db, model)
    ensures Reaches(db, after, cfg, false)
  {
    hide Reaches;
    ReachesByMove(db, Reset(model), after, cfg);
  }

  lemma ReachesByCommit(start: Db, db: Db, batch: Batch, chain: seq<Body>, after: Db, cfg: Config)
    requires Reaches(start, db, cfg, true) && db.state.source.Some? && CursorOn(db, chain)
    requires BatchOf(batch, cfg, db.state.model, chain, StartOf(db)) && CommitBatch(db, batch) == Ok(after)
    ensures Reaches(start, after, cfg, true)
  {
    hide Reaches, BatchOf, CommitBatch, CursorOn;
    ReachesByMove(db, CommitNext(batch, chain), after, cfg);
    ReachesOn(start, db, after, cfg, true, true);
  }

  // ----- how long events below the source stay

  /** The source's own history has an event in block r below the source, and the index starts no later than there. */
  ghost predicate Stuck(db: Db, cfg: Config, r: nat) {
    && db.state.source.Some? && db.state.cursor.Some?
    && var at := db.state.source.value.at;
    && r < at.block < |at.hash| && IndexOf(cfg, db.state.model, at.hash, r, r + 1) != []
    && exists from: nat :: IndexedFrom(db, cfg, from) && from <= r
  }

  lemma StuckFrom(db: Db, after: Db, cfg: Config, r: nat, from: nat)
    requires Stuck(db, cfg, r) && from <= r
    requires after.state.source == db.state.source && after.state.model == db.state.model
    requires after.state.cursor.Some? && IndexedFrom(after, cfg, from)
    ensures Stuck(after, cfg, r)
  {
    hide IndexedFrom, IndexOf;
  }

  lemma IndexedElsewhere(db: Db, after: Db, cfg: Config, from: nat)
    requires db.state.cursor.Some? && db.state.source.Some? && IndexedFrom(db, cfg, from)
    requires after.blocks == db.blocks && after.events == db.events && after.withdrawals == db.withdrawals
    requires after.state.source == db.state.source && after.state.cursor == db.state.cursor
    requires after.state.model == db.state.model
    ensures IndexedFrom(after, cfg, from)
  {
  }

  /** Only a reset frees a stuck index. */
  lemma StuckUntilReset(db: Db, move: Move, after: Db, cfg: Config, r: nat)
    requires ValidConfig(cfg) && Anchored(db, cfg) && Takes(db, move, after, cfg) && Stuck(db, cfg, r)
    ensures Stuck(after, cfg, r) <==> !move.Reset?
  {
    hide Anchored, IndexedFrom, CommitBatch, RollbackTo, RetainHeaders, BatchOf, ValidConfig, IndexOf;
    var from: nat :| IndexedFrom(db, cfg, from) && from <= r;
    match move
    case CommitNext(batch, chain) =>
      LaterCommit(db, batch, after, cfg, chain, StartOf(db), from);
      StuckFrom(db, after, cfg, r, from);
    case RetainOnHistory(headers) =>
      RetainKeepsFrom(db, headers, after, cfg, from);
      StuckFrom(db, after, cfg, r, from);
    case RollBack(block, _) =>
      var start := RollbackFrom(db, cfg, from, block, after);
      RolledBack(db, block, after);
      StuckFrom(db, after, cfg, r, start);
    case MarkStatus(_, _) =>
      IndexedElsewhere(db, after, cfg, from);
      StuckFrom(db, after, cfg, r, from);
    case Publish(_) =>
      IndexedElsewhere(db, after, cfg, from);
      StuckFrom(db, after, cfg, r, from);
    case Choose(_, _, _, _) =>
    case Reset(_) =>
  }

  lemma SourceOnHistory(db: Db, cfg: Config)
    requires Anchored(db, cfg) && db.state.cursor.Some? && SourceRetained(db)
    ensures var at, c := db.state.source.value.at, db.state.cursor.value;
            at.block < |c.hash| == c.block + 1 && at.hash == c.hash[..at.block + 1]
  {
  }

  /** The index of a history up to its tip, cut around one block. */
  lemma CutAround(cfg: Config, model: ModelVersion, history: seq<Body>, from: nat, r: nat)
    requires ValidConfig(cfg) && from <= r < |history|
    ensures IndexOf(cfg, model, history, from, |history|)
            == IndexOf(cfg, model, history, from, r) + IndexOf(cfg, model, history, r, r + 1)
               + IndexOf(cfg, model, history, r + 1, |history|)
  {
    hide IndexOf, Clean, ValidConfig;
    IndexSplit(cfg, model, history, from, r, |history|);
    IndexSplit(cfg, model, history, r, r + 1, |history|);
    Associate(IndexOf(cfg, model, history, from, r), IndexOf(cfg, model, history, r, r + 1),
              IndexOf(cfg, model, history, r + 1, |history|));
  }

  lemma Associate<T>(a: seq<T>, b: seq<T>, c: seq<T>)
    ensures a + (b + c) == a + b + c
  {
  }

  /** Whenever the source lies on the indexed history, a stuck index has an event below it. */
  lemma StuckHasRowBelow(db: Db, cfg: Config, r: nat)
    requires ValidConfig(cfg) && Anchored(db, cfg) && Stuck(db, cfg, r) && SourceRetained(db)
    ensures !NoRowBelow(db, db.state.source.value.at.block)
  {
    hide Anchored, Holds, Referenced, OnHistory, Clean, IndexOf, NoRowBelow, ValidConfig, SourceRetained;
    SourceOnHistory(db, cfg);
    var at, c, model := db.state.source.value.at, db.state.cursor.value, db.state.model;
    var from: nat :| IndexedFrom(db, cfg, from) && from <= r;
    IndexOfPrefix(cfg, model, c.hash, at.block + 1, r, r + 1);
    var rows := IndexOf(cfg, model, c.hash, r, r + 1);
    var e := rows[0];
    assert e in rows;
    CutAround(cfg, model, c.hash, from, r);
    IndexRow(cfg, model, c.hash, r, r + 1, e);
    if NoRowBelow(db, at.block) {
      RowIsStored(db, IndexOf(cfg, model, c.hash, from, |c.hash|), e, at.block);
    }
  }

  /** An event below the source, stored while the source lies on the indexed history, means a stuck index. */
  lemma RowBelowMeansStuck(db: Db, cfg: Config) returns (r: nat)
    requires ValidConfig(cfg) && Anchored(db, cfg) && db.state.cursor.Some? && SourceRetained(db)
    requires !NoRowBelow(db, db.state.source.value.at.block)
    ensures Stuck(db, cfg, r)
  {
    hide Referenced, OnHistory, Clean, IndexOf, ValidConfig, SourceRetained;
    SourceOnHistory(db, cfg);
    var at, c, model := db.state.source.value.at, db.state.cursor.value, db.state.model;
    var from: nat :| IndexedFrom(db, cfg, from);
    var rows := IndexOf(cfg, model, c.hash, from, |c.hash|);
    var e := SomeRowBelow(db, rows, at.block);
    r := e.block;
    IndexRow(cfg, model, c.hash, from, |c.hash|, e);
    CutAround(cfg, model, c.hash, from, r);
    RowsBetween(cfg, model, c.hash, from, r);
    RowsBetween(cfg, model, c.hash, r + 1, |c.hash|);
    assert e in IndexOf(cfg, model, c.hash, r, r + 1);
    IndexOfPrefix(cfg, model, c.hash, at.block + 1, r, r + 1);
  }

  lemma SomeRowBelow(db: Db, rows: seq<PoolEvent>, block: nat) returns (e: PoolEvent)
    requires Holds(db, rows) && !NoRowBelow(db, block)
    ensures e in rows && e.block < block
  {
    if id :| id in db.events && db.events[id].block < block {
      e := db.events[id];
    } else {
      var id :| id in db.withdrawals && db.withdrawals[id].block < block;
      e := db.withdrawals[id];
    }
  }

  /**
   Once an index has an event below its source, then after any moves but a reset, whenever the source lies on the
   indexed history again, it still has one, so that its snapshot is refused.
   */
  lemma {:induction false} RefusedUntilReset(dbs: seq<Db>, moves: seq<Move>, cfg: Config, r: nat, k: nat)
    requires ValidConfig(cfg) && IsRun(dbs, moves, cfg) && Anchored(dbs[0], cfg) && Stuck(dbs[0], cfg, r)
    requires k < |dbs| && forall i :: 0 <= i < k ==> !moves[i].Reset?
    ensures Stuck(dbs[k], cfg, r)
    ensures SourceRetained(dbs[k]) ==> !NoRowBelow(dbs[k], dbs[k].state.source.value.at.block)
  {
    hide Anchored, Takes, ValidConfig, Stuck, NoRowBelow;
    if k > 0 {
      RefusedUntilReset(dbs, moves, cfg, r, k - 1);
      RunKeepsAnchored(dbs, moves, cfg, k - 1);
      StuckUntilReset(dbs[k - 1], moves[k - 1], dbs[k], cfg, r);
    }
    RunKeepsAnchored(dbs, moves, cfg, k);
    if SourceRetained(dbs[k]) {
      StuckHasRowBelow(dbs[k], cfg, r);
    }
  }

  /** A stuck index that is published has been reset on the way. */
  lemma QuietlyStuck(db: Db, after: Db, cfg: Config, r: nat)
    requires ValidConfig(cfg) && Anchored(db, cfg) && Stuck(db, cfg, r) && Reaches(db, after, cfg, true)
    ensures Stuck(after, cfg, r)
    ensures SourceRetained(after) ==> !NoRowBelow(after, after.state.source.value.at.block)
  {
    hide Takes, Anchored, ValidConfig, Stuck, NoRowBelow;
    var dbs, moves :| IsRun(dbs, moves, cfg) && Joins(dbs, db, after) && NoReset(moves);
    RefusedUntilReset(dbs, moves, cfg, r, |dbs| - 1);
  }
}
