/**
 When a batch is refused. Before the first commit nothing is rolled back, so a source block that has been replaced by
 a fork stays, and with it the disagreement with every batch of the new chain.
 */
module ForkedSource {

  import opened Chain
  import opened PoolEvents
  import opened Index
  import opened Store
  import opened IndexedStore
  import opened Refinement
  import opened BelowSource

  lemma {:induction false} AgreeingHeaders(blocks: map<nat, Header>, headers: seq<Header>, chain: seq<Body>)
    requires forall n :: n in blocks ==> n < |chain| && blocks[n] == HeaderAt(chain, n)
    requires forall h :: h in headers ==> h.number < |chain| && h == HeaderAt(chain, h.number)
    ensures UpsertAll(blocks, headers).Ok?
    ensures forall n :: n in UpsertAll(blocks, headers).value ==>
              n < |chain| && UpsertAll(blocks, headers).value[n] == HeaderAt(chain, n)
  {
    if headers != [] {
      AgreeingHeaders(blocks, headers[..|headers| - 1], chain);
    }
  }

  lemma {:induction false} NewRowsCommit(db: Db, known: seq<PoolEvent>, rows: seq<PoolEvent>)
    requires KnowsOnly(db, known) && DistinctIds(known + rows)
    requires forall r :: r in rows ==> r.block in db.blocks
    ensures InsertAll(db, rows).Ok? && InsertAll(db, rows).value.blocks == db.blocks
    ensures KnowsOnly(InsertAll(db, rows).value, known + rows)
  {
    if rows == [] {
      assert known + [] == known;
    } else {
      hide InsertEvent, KnowsOnly;
      var init, last := rows[..|rows| - 1], rows[|rows| - 1];
      assert known + rows == (known + init) + [last];
      DistinctPrefix(known + init, last);
      NewRowsCommit(db, known, init);
      KnowsOneMore(InsertAll(db, init).value, known + init, last);
    }
  }

  lemma DistinctPrefix(init: seq<PoolEvent>, last: PoolEvent)
    requires DistinctIds(init + [last])
    ensures DistinctIds(init) && forall r :: r in init ==> r.eventId != last.eventId
  {
    forall i, j | 0 <= i < j < |init| ensures init[i].eventId != init[j].eventId {
      assert (init + [last])[i].eventId != (init + [last])[j].eventId;
    }
    forall r | r in init ensures r.eventId != last.eventId {
      var i :| 0 <= i < |init| && init[i] == r;
      assert (init + [last])[i].eventId != (init + [last])[|init|].eventId;
    }
  }

  /** Everything retained and everything stored agrees with the batch's chain. */
  lemma AgreeingCommit(db: Db, batch: Batch, cfg: Config, chain: seq<Body>, from: nat, start: nat)
    requires ValidConfig(cfg) && BatchOf(batch, cfg, db.state.model, chain, start) && from <= start
    requires forall n :: n in db.blocks ==> n < |chain| && db.blocks[n] == HeaderAt(chain, n)
    requires Clean(cfg, db.state.model, chain, from, start)
    requires KnowsOnly(db, IndexOf(cfg, db.state.model, chain, from, start))
    ensures CommitBatch(db, batch).Ok?
  {
    hide Clean, IndexOf, KnowsOnly, UpsertAll, InsertAll;
    var model, end := db.state.model, batch.through.number + 1;
    AgreeingHeaders(db.blocks, batch.headers, chain);
    var widened := db.(blocks := UpsertAll(db.blocks, batch.headers).value);
    UpsertAllResult(db.blocks, batch.headers);
    IndexSplit(cfg, model, chain, from, start, end);
    IndexIdentities(cfg, model, chain, from, end);
    KnowsElsewhere(db, widened, IndexOf(cfg, model, chain, from, start));
    forall r | r in batch.events ensures r.block in widened.blocks {
      assert HeaderAt(chain, r.block) in batch.headers;
    }
    NewRowsCommit(widened, IndexOf(cfg, model, chain, from, start), batch.events);
  }

  lemma KnowsElsewhere(db: Db, after: Db, rows: seq<PoolEvent>)
    requires KnowsOnly(db, rows) && after.events == db.events && after.withdrawals == db.withdrawals
    ensures KnowsOnly(after, rows)
  {
  }

  lemma HeldIsKnown(db: Db, rows: seq<PoolEvent>)
    requires Holds(db, rows)
    ensures KnowsOnly(db, rows)
  {
  }

  lemma LaterCommitAccepted(db: Db, batch: Batch, cfg: Config, chain: seq<Body>)
    requires ValidConfig(cfg) && Anchored(db, cfg) && db.state.source.Some? && db.state.cursor.Some?
    requires CursorOn(db, chain) && BatchOf(batch, cfg, db.state.model, chain, StartOf(db))
    ensures CommitBatch(db, batch).Ok?
  {
    hide Clean, IndexOf, CommitBatch, BatchOf, Holds, Referenced, KnowsOnly, ValidConfig;
    var c, model, start := db.state.cursor.value, db.state.model, StartOf(db);
    var from: nat :| IndexedFrom(db, cfg, from);
    forall n | n in db.blocks ensures n < |chain| && db.blocks[n] == HeaderAt(chain, n) {
      HeaderOfPrefix(chain, |c.hash|, n);
    }
    IndexOfPrefix(cfg, model, chain, |c.hash|, from, start);
    HeldIsKnown(db, IndexOf(cfg, model, c.hash, from, start));
    AgreeingCommit(db, batch, cfg, chain, from, start);
  }

  /**
   The next batch of a chain that the cursor lies on always commits, except that before the first commit the source
   block must still be on that chain.
   */
  lemma CommitsUnlessForked(db: Db, batch: Batch, cfg: Config, chain: seq<Body>)
    requires ValidConfig(cfg) && Anchored(db, cfg) && db.state.source.Some? && CursorOn(db, chain)
    requires BatchOf(batch, cfg, db.state.model, chain, StartOf(db))
    ensures CommitBatch(db, batch).Ok?
            <==> (db.state.cursor.None? && StartOf(db) in db.blocks ==>
                    db.blocks[StartOf(db)] == HeaderAt(chain, StartOf(db)))
  {
    hide Clean, IndexOf, IndexedFrom, UpsertAll, InsertAll, ValidConfig;
    var start := StartOf(db);
    if db.state.cursor.Some? {
      LaterCommitAccepted(db, batch, cfg, chain);
    } else if start in db.blocks && db.blocks[start] != HeaderAt(chain, start) {
      if CommitBatch(db, batch).Ok? {
        UpsertAllResult(db.blocks, batch.headers);
        assert false;
      }
    } else {
      EventsInEmpty(cfg, db.state.model, chain, start);
      AgreeingCommit(db, batch, cfg, chain, start, start);
    }
  }

  /** A source has been chosen and retained, and nothing committed yet. */
  predicate Waiting(db: Db) {
    db.state.source.Some? && db.state.cursor.None? && db.state.source.value.at.block in db.blocks
  }

  lemma WaitingMove(db: Db, move: Move, after: Db, cfg: Config)
    requires ValidConfig(cfg) && Anchored(db, cfg) && Waiting(db) && Takes(db, move, after, cfg) && !move.Reset?
    ensures if move.CommitNext? then OnChain(db.blocks[StartOf(db)].hash, move.chain)
            else Waiting(after) && after.state.source == db.state.source && after.blocks == db.blocks
  {
    hide Anchored, Clean, IndexOf, CommitBatch, ValidConfig;
    if move.CommitNext? {
      CommitsUnlessForked(db, move.batch, cfg, move.chain);
    }
  }

  /** Until a reset, nothing is committed from chains that do not have the source block. */
  lemma {:induction false} ForkedUntilReset(dbs: seq<Db>, moves: seq<Move>, cfg: Config, k: nat)
    requires ValidConfig(cfg) && IsRun(dbs, moves, cfg) && Anchored(dbs[0], cfg) && Waiting(dbs[0]) && k < |dbs|
    requires forall i :: 0 <= i < k ==> !moves[i].Reset?
    requires forall i :: 0 <= i < k && moves[i].CommitNext? ==>
               !OnChain(dbs[0].blocks[StartOf(dbs[0])].hash, moves[i].chain)
    ensures Waiting(dbs[k]) && dbs[k].state.source == dbs[0].state.source && dbs[k].blocks == dbs[0].blocks
  {
    hide Anchored, Takes, ValidConfig;
    if k > 0 {
      ForkedUntilReset(dbs, moves, cfg, k - 1);
      RunKeepsAnchored(dbs, moves, cfg, k - 1);
      WaitingMove(dbs[k - 1], moves[k - 1], dbs[k], cfg);
    }
  }
}
