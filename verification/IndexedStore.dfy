/**
 What the tables mean. Up to the cursor they hold the index of one history, the one the cursor hash
 names; every operation of the indexer keeps this, whatever chain the next attempt meets.
 */
module IndexedStore {

  import opened Wrappers
  import opened EngineTypes
  import opened Chain
  import opened PoolEvents
  import opened Index
  import opened Snapshots
  import opened Store

  ghost predicate TableHolds(table: EventTable, rows: seq<PoolEvent>, withdrawals: bool) {
    && (forall id :: id in table ==>
          table[id] in rows && table[id].eventId == id && table[id].detail.Withdrawal? == withdrawals)
    && (forall r :: r in rows && r.detail.Withdrawal? == withdrawals ==> r.eventId in table && table[r.eventId] == r)
  }

  /** The two event tables hold exactly these observations. */
  ghost predicate Holds(db: Db, rows: seq<PoolEvent>) {
    TableHolds(db.events, rows, false) && TableHolds(db.withdrawals, rows, true)
  }

  /** Every retained header is the history's own. */
  ghost predicate OnHistory(blocks: map<nat, Header>, history: seq<Body>) {
    forall n :: n in blocks ==> n < |history| && blocks[n] == HeaderAt(history, n)
  }

  /** Foreign keys: an event row refers to a retained header. */
  ghost predicate Referenced(blocks: map<nat, Header>, table: EventTable) {
    forall id :: id in table ==> table[id].block in blocks
  }

  ghost predicate IsTip(p: Point) {
    |p.hash| == p.block + 1 && p.timestamp == p.hash[p.block].timestamp
  }

  /**
   Blocks from, ..., cursor of the cursor's history are indexed. Normally from is the source block; it is
   lower only after a rollback below the source, which no snapshot survives.
   */
  ghost predicate IndexedFrom(db: Db, cfg: Config, from: nat)
    requires db.state.cursor.Some? && db.state.source.Some?
  {
    var c := db.state.cursor.value;
    && IsTip(c)
    && from <= db.state.source.value.at.block && from <= c.block + 1
    && c.block in db.blocks && OnHistory(db.blocks, c.hash)
    && Referenced(db.blocks, db.events) && Referenced(db.blocks, db.withdrawals)
    && Clean(cfg, db.state.model, c.hash, from, c.block + 1)
    && Holds(db, IndexOf(cfg, db.state.model, c.hash, from, c.block + 1))
  }

  ghost predicate SourceSound(db: Db, cfg: Config) {
    db.state.source.Some? ==>
      var s := db.state.source.value;
      IsTip(s.at) && cfg.deploymentBlock <= s.at.block && s.at.timestamp <= s.required
  }

  ghost predicate Anchored(db: Db, cfg: Config) {
    && SourceSound(db, cfg)
    && (db.state.cursor.None? ==>
          && db.events == map[] && db.withdrawals == map[]
          && forall n :: n in db.blocks ==>
               db.state.source.Some? && n == db.state.source.value.at.block
               && db.blocks[n] == HeaderAt(db.state.source.value.at.hash, n))
    && (db.state.cursor.Some? ==> db.state.source.Some? && exists from :: IndexedFrom(db, cfg, from))
  }

  /** Block numbers and event identities are keys. */
  lemma BlocksAreKeyed(db: Db, cfg: Config)
    requires Anchored(db, cfg)
    ensures KeyedBlocks(db.blocks) && Keyed(db.events) && Keyed(db.withdrawals)
  {
  }

  // ----- upserts and inserts

  /** Nothing retained has changed, every header is there, and nothing else is. */
  ghost predicate Upserted(blocks: map<nat, Header>, headers: seq<Header>, after: map<nat, Header>) {
    && (forall n :: n in blocks ==> n in after && after[n] == blocks[n])
    && (forall h :: h in headers ==> h.number in after && after[h.number] == h)
    && (forall n :: n in after ==> n in blocks || (after[n] in headers && after[n].number == n))
  }

  lemma UpsertedSnoc(blocks: map<nat, Header>, init: seq<Header>, before: map<nat, Header>, last: Header,
                     after: map<nat, Header>)
    requires Upserted(blocks, init, before) && UpsertHeader(before, last) == Ok(after)
    ensures Upserted(blocks, init + [last], after)
  {
    assert forall h :: h in init + [last] <==> h in init || h == last;
    assert forall n :: n in before ==> n in after && after[n] == before[n];
    assert forall n :: n in after ==> n in before || n == last.number;
  }

  lemma {:induction false} UpsertAllResult(blocks: map<nat, Header>, headers: seq<Header>)
    requires UpsertAll(blocks, headers).Ok?
    ensures Upserted(blocks, headers, UpsertAll(blocks, headers).value)
  {
    if headers != [] {
      hide Upserted, UpsertHeader;
      var init, last := headers[..|headers| - 1], headers[|headers| - 1];
      UpsertAllResult(blocks, init);
      assert headers == init + [last];
      UpsertedSnoc(blocks, init, UpsertAll(blocks, init).value, last, UpsertAll(blocks, headers).value);
    }
  }

  lemma UpsertOnHistory(blocks: map<nat, Header>, headers: seq<Header>, history: seq<Body>)
    requires UpsertAll(blocks, headers).Ok? && OnHistory(blocks, history)
    requires forall h :: h in headers ==> h.number < |history| && h == HeaderAt(history, h.number)
    ensures OnHistory(UpsertAll(blocks, headers).value, history)
  {
    UpsertAllResult(blocks, headers);
  }

  lemma InsertRowHolds(blocks: map<nat, Header>, table: EventTable, rows: seq<PoolEvent>, e: PoolEvent)
    requires InsertRow(blocks, table, e).Ok?
    requires TableHolds(table, rows, e.detail.Withdrawal?) && Referenced(blocks, table)
    ensures TableHolds(InsertRow(blocks, table, e).value, rows + [e], e.detail.Withdrawal?)
    ensures Referenced(blocks, InsertRow(blocks, table, e).value)
  {
  }

  lemma OtherTableHolds(table: EventTable, rows: seq<PoolEvent>, e: PoolEvent, withdrawals: bool)
    requires TableHolds(table, rows, withdrawals) && e.detail.Withdrawal? != withdrawals
    ensures TableHolds(table, rows + [e], withdrawals)
  {
  }

  lemma InsertEventHolds(db: Db, rows: seq<PoolEvent>, e: PoolEvent, after: Db)
    requires InsertEvent(db, e) == Ok(after) && Holds(db, rows)
    requires Referenced(db.blocks, db.events) && Referenced(db.blocks, db.withdrawals)
    ensures Holds(after, rows + [e])
    ensures Referenced(db.blocks, after.events) && Referenced(db.blocks, after.withdrawals)
  {
    hide TableHolds, Referenced, InsertRow;
    if e.detail.Withdrawal? {
      InsertRowHolds(db.blocks, db.withdrawals, rows, e);
      OtherTableHolds(db.events, rows, e, false);
    } else {
      InsertRowHolds(db.blocks, db.events, rows, e);
      OtherTableHolds(db.withdrawals, rows, e, true);
    }
  }

  lemma {:induction false} InsertAllHolds(db: Db, rows: seq<PoolEvent>, events: seq<PoolEvent>)
    requires InsertAll(db, events).Ok? && Holds(db, rows)
    requires Referenced(db.blocks, db.events) && Referenced(db.blocks, db.withdrawals)
    ensures var after := InsertAll(db, events).value;
            Holds(after, rows + events) && Referenced(db.blocks, after.events)
                    && Referenced(db.blocks, after.withdrawals)
  {
    if events == [] {
      assert rows + events == rows;
    } else {
      hide Holds, Referenced, InsertEvent;
      var init, last := events[..|events| - 1], events[|events| - 1];
      InsertAllHolds(db, rows, init);
      InsertKeepsRest(db, init);
      assert rows + events == (rows + init) + [last];
      InsertEventHolds(InsertAll(db, init).value, rows + init, last, InsertAll(db, events).value);
    }
  }

  // ----- committing a batch

  /** The batch covers blocks start, ..., through of this chain. */
  ghost predicate BatchOf(batch: Batch, cfg: Config, model: ModelVersion, chain: seq<Body>, start: nat)
  {
    && start <= batch.through.number < |chain|
    && batch.through == HeaderAt(chain, batch.through.number)
    && batch.through in batch.headers && HeaderAt(chain, start) in batch.headers
    && (forall h :: h in batch.headers ==> h.number <= batch.through.number && h == HeaderAt(chain, h.number))
    && (forall e :: e in batch.events ==> e.block < |chain| && HeaderAt(chain, e.block) in batch.headers)
    && Clean(cfg, model, chain, start, batch.through.number + 1)
    && batch.events == IndexOf(cfg, model, chain, start, batch.through.number + 1)
  }

  /** Where the next batch has to start. */
  ghost predicate NextStart(db: Db, start: nat) {
    db.state.source.Some?
    && start == if db.state.cursor.None? then db.state.source.value.at.block else db.state.cursor.value.block + 1
  }

  /** The cursor, when there is one, lies on this chain. */
  ghost predicate CursorOn(db: Db, chain: seq<Body>) {
    db.state.cursor.Some? ==> OnChain(db.state.cursor.value.hash, chain)
  }

  lemma HistoryOf(chain: seq<Body>, m: nat, h: Header)
    requires m <= |chain| && h.number < m && h == HeaderAt(chain, h.number)
    ensures h == HeaderAt(chain[..m], h.number)
  {
    HeaderOfPrefix(chain, m, h.number);
  }

  /** The tables before the commit already hold an index of this chain that the batch continues. */
  lemma CommitExtends(db: Db, batch: Batch, after: Db, cfg: Config, chain: seq<Body>, from: nat, start: nat)
    requires ValidConfig(cfg) && db.state.source.Some? && from <= start && from <= db.state.source.value.at.block
    requires CommitBatch(db, batch) == Ok(after) && BatchOf(batch, cfg, db.state.model, chain, start)
    requires OnHistory(db.blocks, chain[..batch.through.number + 1])
    requires Referenced(db.blocks, db.events) && Referenced(db.blocks, db.withdrawals)
    requires Clean(cfg, db.state.model, chain, from, start)
    requires Holds(db, IndexOf(cfg, db.state.model, chain, from, start))
    ensures after.state == db.state.(status := Syncing, cursor := Some(PointOf(batch.through)))
    ensures IndexedFrom(after, cfg, from)
  {
    hide Holds, OnHistory, Referenced, Clean, IndexOf;
    var end, model := batch.through.number + 1, db.state.model;
    CommittedBlocks(db, batch, after, cfg, chain, start);
    CommittedRows(db, batch, after, IndexOf(cfg, model, chain, from, start));
    IndexSplit(cfg, model, chain, from, start, end);
    IndexOfPrefix(cfg, model, chain, end, from, end);
  }

  lemma CommittedRows(db: Db, batch: Batch, after: Db, rows: seq<PoolEvent>)
    requires CommitBatch(db, batch) == Ok(after) && Holds(db, rows)
    requires Referenced(db.blocks, db.events) && Referenced(db.blocks, db.withdrawals)
    ensures after.blocks == UpsertAll(db.blocks, batch.headers).value
    ensures after.state == db.state.(status := Syncing, cursor := Some(PointOf(batch.through)))
    ensures Holds(after, rows + batch.events)
    ensures Referenced(after.blocks, after.events) && Referenced(after.blocks, after.withdrawals)
  {
    var widened := db.(blocks := UpsertAll(db.blocks, batch.headers).value);
    UpsertAllResult(db.blocks, batch.headers);
    InsertAllHolds(widened, rows, batch.events);
    InsertKeepsRest(widened, batch.events);
  }

  lemma CommittedBlocks(db: Db, batch: Batch, after: Db, cfg: Config, chain: seq<Body>, start: nat)
    requires CommitBatch(db, batch) == Ok(after) && BatchOf(batch, cfg, db.state.model, chain, start)
    requires OnHistory(db.blocks, chain[..batch.through.number + 1])
    ensures OnHistory(after.blocks, chain[..batch.through.number + 1]) && batch.through.number in after.blocks
  {
    var end := batch.through.number + 1;
    forall h | h in batch.headers ensures h.number < end && h == HeaderAt(chain[..end], h.number) {
      HistoryOf(chain, end, h);
    }
    UpsertOnHistory(db.blocks, batch.headers, chain[..end]);
    UpsertAllResult(db.blocks, batch.headers);
    InsertKeepsRest(db.(blocks := UpsertAll(db.blocks, batch.headers).value), batch.events);
  }

  lemma EventsInEmpty(cfg: Config, model: ModelVersion, chain: seq<Body>, n: nat)
    requires n <= |chain|
    ensures IndexOf(cfg, model, chain, n, n) == [] && Clean(cfg, model, chain, n, n)
  {
    assert EventsIn(QueryOf(cfg, model), chain, n, n) == [];
  }

  lemma FirstCommit(db: Db, batch: Batch, after: Db, cfg: Config, chain: seq<Body>, start: nat)
    requires ValidConfig(cfg) && Anchored(db, cfg) && db.state.cursor.None? && NextStart(db, start)
    requires CommitBatch(db, batch) == Ok(after) && BatchOf(batch, cfg, db.state.model, chain, start)
    ensures after.state == db.state.(status := Syncing, cursor := Some(PointOf(batch.through)))
    ensures IndexedFrom(after, cfg, start)
  {
    hide Clean, IndexOf, IndexedFrom, OnHistory, CommitBatch;
    BoundaryAgrees(db, batch, after, cfg, chain, start);
    EventsInEmpty(cfg, db.state.model, chain, start);
    CommitExtends(db, batch, after, cfg, chain, start, start);
  }

  /** All that may be retained before the first commit is the source header, and the batch confirms it. */
  lemma BoundaryAgrees(db: Db, batch: Batch, after: Db, cfg: Config, chain: seq<Body>, start: nat)
    requires Anchored(db, cfg) && db.state.cursor.None? && NextStart(db, start)
    requires CommitBatch(db, batch) == Ok(after) && BatchOf(batch, cfg, db.state.model, chain, start)
    ensures OnHistory(db.blocks, chain[..batch.through.number + 1])
  {
    hide Clean, IndexOf, SourceSound;
    UpsertAllResult(db.blocks, batch.headers);
    HistoryOf(chain, batch.through.number + 1, HeaderAt(chain, start));
  }

  /** Headers retained under a cursor on this chain are headers of this chain. */
  lemma RetainedOnChain(blocks: map<nat, Header>, hash: BlockHash, chain: seq<Body>, end: nat)
    requires OnHistory(blocks, hash) && OnChain(hash, chain) && |hash| <= end <= |chain|
    ensures OnHistory(blocks, chain[..end])
  {
    forall n | n in blocks ensures blocks[n] == HeaderAt(chain[..end], n) {
      HeaderOfPrefix(chain, |hash|, n);
      HeaderOfPrefix(chain, end, n);
    }
  }

  lemma LaterCommit(db: Db, batch: Batch, after: Db, cfg: Config, chain: seq<Body>, start: nat, from: nat)
    requires ValidConfig(cfg) && db.state.cursor.Some? && NextStart(db, start) && CursorOn(db, chain)
    requires IndexedFrom(db, cfg, from)
    requires CommitBatch(db, batch) == Ok(after) && BatchOf(batch, cfg, db.state.model, chain, start)
    ensures after.state == db.state.(status := Syncing, cursor := Some(PointOf(batch.through)))
    ensures IndexedFrom(after, cfg, from)
  {
    hide Clean, IndexOf, TableHolds, Referenced, CommitBatch, ValidConfig;
    var c := db.state.cursor.value;
    RetainedOnChain(db.blocks, c.hash, chain, batch.through.number + 1);
    IndexOfPrefix(cfg, db.state.model, chain, |c.hash|, from, start);
    CommitExtends(db, batch, after, cfg, chain, from, start);
  }

  lemma AnchoredFrom(db: Db, after: Db, cfg: Config, from: nat)
    requires SourceSound(db, cfg) && after.state.source == db.state.source && after.state.source.Some?
    requires after.state.cursor.Some? && IndexedFrom(after, cfg, from)
    ensures Anchored(after, cfg)
  {
  }

  /** Committing the next batch of the chain the cursor lies on keeps the tables anchored. */
  lemma CommitAnchored(db: Db, batch: Batch, after: Db, cfg: Config, chain: seq<Body>, start: nat)
    requires ValidConfig(cfg) && Anchored(db, cfg) && NextStart(db, start) && CursorOn(db, chain)
    requires CommitBatch(db, batch) == Ok(after) && BatchOf(batch, cfg, db.state.model, chain, start)
    ensures after.state == db.state.(status := Syncing, cursor := Some(PointOf(batch.through)))
    ensures CursorOn(after, chain)
    ensures Anchored(after, cfg)
  {
    hide IndexedFrom, CommitBatch;
    if db.state.cursor.None? {
      FirstCommit(db, batch, after, cfg, chain, start);
      AnchoredFrom(db, after, cfg, start);
    } else {
      var from: nat :| IndexedFrom(db, cfg, from);
      LaterCommit(db, batch, after, cfg, chain, start, from);
      AnchoredFrom(db, after, cfg, from);
    }
  }

  // ----- rolling back

  lemma CascadeHolds(table: EventTable, kept: map<nat, Header>, block: nat, blocks: map<nat, Header>,
                     early: seq<PoolEvent>, late: seq<PoolEvent>, withdrawals: bool)
    requires TableHolds(table, early + late, withdrawals) && Referenced(blocks, table)
    requires forall n :: n in kept <==> n in blocks && n <= block
    requires forall r :: r in early ==> r.block <= block
    requires forall r :: r in late ==> r.block > block
    ensures TableHolds(Cascade(table, kept), early, withdrawals) && Referenced(kept, Cascade(table, kept))
  {
  }

  lemma RowsBetween(cfg: Config, model: ModelVersion, history: seq<Body>, from: nat, end: nat)
    requires end <= |history|
    ensures forall r :: r in IndexOf(cfg, model, history, from, end) ==> from <= r.block < end
  {
    forall r | r in IndexOf(cfg, model, history, from, end) ensures from <= r.block < end {
      IndexRow(cfg, model, history, from, end, r);
    }
  }

  /** How a rollback cuts the indexed segment in two. */
  ghost predicate CutAt(cfg: Config, model: ModelVersion, history: seq<Body>, from: nat, block: nat, start: nat,
                        early: seq<PoolEvent>, late: seq<PoolEvent>)
    requires block < |history|
  {
    && IndexOf(cfg, model, history, from, |history|) == early + late
    && early == IndexOf(cfg, model, history[..block + 1], start, block + 1)
    && Clean(cfg, model, history[..block + 1], start, block + 1)
    && (forall r :: r in early ==> r.block <= block)
    && (forall r :: r in late ==> r.block > block)
  }

  lemma RollbackInside(cfg: Config, model: ModelVersion, history: seq<Body>, from: nat, block: nat)
    requires ValidConfig(cfg) && from <= block + 1 <= |history|
    requires Clean(cfg, model, history, from, |history|)
    ensures CutAt(cfg, model, history, from, block, from, IndexOf(cfg, model, history, from, block + 1),
                  IndexOf(cfg, model, history, block + 1, |history|))
  {
    IndexOfPrefix(cfg, model, history, block + 1, from, block + 1);
    IndexSplit(cfg, model, history, from, block + 1, |history|);
    RowsBetween(cfg, model, history, from, block + 1);
    RowsBetween(cfg, model, history, block + 1, |history|);
  }

  lemma RollbackBelow(cfg: Config, model: ModelVersion, history: seq<Body>, from: nat, block: nat)
    requires block + 1 < from <= |history|
    ensures CutAt(cfg, model, history, from, block, block + 1, [], IndexOf(cfg, model, history, from, |history|))
  {
    EventsInEmpty(cfg, model, history[..block + 1], block + 1);
    RowsBetween(cfg, model, history, from, |history|);
    assert [] + IndexOf(cfg, model, history, from, |history|) == IndexOf(cfg, model, history, from, |history|);
  }

  /**
   A rollback keeps exactly the headers and events of the blocks up to the ancestor, all of which the
   ancestor's own hash names, so they are shared with every chain that contains the ancestor.
   */
  lemma RollbackAnchored(db: Db, cfg: Config, block: nat)
    requires ValidConfig(cfg) && Anchored(db, cfg) && db.state.cursor.Some?
    requires RollbackTo(db, block).Ok?
    ensures var after := RollbackTo(db, block).value;
            && Anchored(after, cfg)
            && after.state.cursor == Some(PointOf(db.blocks[block]))
            && after.state.source == db.state.source && after.state.model == db.state.model
  {
    hide RollbackTo, IndexedFrom, CutAt, IndexOf, Clean, ValidConfig, SourceSound;
    var after := RollbackTo(db, block).value;
    RolledBack(db, block, after);
    var from: nat :| IndexedFrom(db, cfg, from);
    var start := RollbackFrom(db, cfg, from, block, after);
    AnchoredFrom(db, after, cfg, start);
  }

  /** Where the index starts after a rollback. */
  lemma RollbackFrom(db: Db, cfg: Config, from: nat, block: nat, after: Db) returns (start: nat)
    requires ValidConfig(cfg) && db.state.cursor.Some? && db.state.source.Some? && IndexedFrom(db, cfg, from)
    requires RollbackTo(db, block) == Ok(after)
    ensures after.state.source.Some? && after.state.cursor.Some? && IndexedFrom(after, cfg, start) && start <= from
  {
    hide RollbackTo, CutAt, IndexOf, Clean, ValidConfig, Holds, Referenced;
    RolledBack(db, block, after);
    var c, model := db.state.cursor.value, db.state.model;
    if from <= block + 1 {
      start := from;
      RollbackInside(cfg, model, c.hash, from, block);
      RollbackCuts(db, cfg, from, block, start, after, IndexOf(cfg, model, c.hash, from, block + 1),
                   IndexOf(cfg, model, c.hash, block + 1, |c.hash|));
    } else {
      start := block + 1;
      RollbackBelow(cfg, model, c.hash, from, block);
      RollbackCuts(db, cfg, from, block, start, after, [], IndexOf(cfg, model, c.hash, from, |c.hash|));
    }
  }

  lemma RolledBack(db: Db, block: nat, after: Db)
    requires RollbackTo(db, block) == Ok(after)
    ensures block in db.blocks
    ensures forall n :: n in after.blocks <==> n in db.blocks && n <= block
    ensures forall n :: n in after.blocks ==> after.blocks[n] == db.blocks[n]
    ensures after.events == Cascade(db.events, after.blocks)
    ensures after.withdrawals == Cascade(db.withdrawals, after.blocks)
    ensures after.state == db.state.(status := Syncing, cursor := Some(PointOf(db.blocks[block])), active := None)
  {
  }

  lemma KeptOnHistory(db: Db, block: nat, after: Db, history: seq<Body>)
    requires RollbackTo(db, block) == Ok(after) && OnHistory(db.blocks, history)
    ensures block < |history| && OnHistory(after.blocks, history[..block + 1])
    ensures PointOf(db.blocks[block]) == Point(block, history[..block + 1], history[block].timestamp)
  {
    hide RollbackTo;
    RolledBack(db, block, after);
    forall n | n in after.blocks ensures n < block + 1 && after.blocks[n] == HeaderAt(history[..block + 1], n) {
      HeaderOfPrefix(history, block + 1, n);
    }
  }

  lemma RollbackCuts(db: Db, cfg: Config, from: nat, block: nat, start: nat, after: Db,
                     early: seq<PoolEvent>, late: seq<PoolEvent>)
    requires db.state.cursor.Some? && db.state.source.Some? && IndexedFrom(db, cfg, from)
    requires RollbackTo(db, block) == Ok(after) && start <= from && start <= block + 1
    requires block < |db.state.cursor.value.hash|
    requires CutAt(cfg, db.state.model, db.state.cursor.value.hash, from, block, start, early, late)
    ensures after.state.source.Some? && after.state.cursor.Some? && IndexedFrom(after, cfg, start)
  {
    hide RollbackTo, Clean, IndexOf, TableHolds, Cascade, OnHistory, Referenced;
    RolledBack(db, block, after);
    KeptOnHistory(db, block, after, db.state.cursor.value.hash);
    CascadeHolds(db.events, after.blocks, block, db.blocks, early, late, false);
    CascadeHolds(db.withdrawals, after.blocks, block, db.blocks, early, late, true);
  }

  // ----- the remaining operations

  lemma RetainKeepsFrom(db: Db, headers: seq<Header>, after: Db, cfg: Config, from: nat)
    requires db.state.cursor.Some? && db.state.source.Some? && IndexedFrom(db, cfg, from)
    requires RetainHeaders(db, headers) == Ok(after)
    requires var c := db.state.cursor.value;
             forall h :: h in headers ==> h.number < |c.hash| && h == HeaderAt(c.hash, h.number)
    ensures after == db.(blocks := after.blocks) && IndexedFrom(after, cfg, from)
  {
    hide Clean, IndexOf, TableHolds;
    UpsertOnHistory(db.blocks, headers, db.state.cursor.value.hash);
    UpsertAllResult(db.blocks, headers);
  }

  lemma RetainAnchored(db: Db, headers: seq<Header>, cfg: Config)
    requires Anchored(db, cfg) && db.state.cursor.Some? && RetainHeaders(db, headers).Ok?
    requires var c := db.state.cursor.value;
             forall h :: h in headers ==> h.number < |c.hash| && h == HeaderAt(c.hash, h.number)
    ensures Anchored(RetainHeaders(db, headers).value, cfg)
    ensures RetainHeaders(db, headers).value == db.(blocks := RetainHeaders(db, headers).value.blocks)
  {
    hide IndexedFrom, RetainHeaders;
    var from: nat :| IndexedFrom(db, cfg, from);
    RetainKeepsFrom(db, headers, RetainHeaders(db, headers).value, cfg, from);
  }

  /** Choosing a source boundary on an empty index. */
  lemma SourceAnchored(db: Db, cfg: Config, chain: seq<Body>, n: nat, required: nat)
    requires Anchored(db, cfg) && db.state.source.None? && n < |chain|
    requires cfg.deploymentBlock <= n && chain[n].timestamp <= required
    requires RetainHeaders(db, [HeaderAt(chain, n)]).Ok?
    ensures var h := HeaderAt(chain, n);
            var after := InitializeSource(RetainHeaders(db, [h]).value, Source(PointOf(h), required));
            Anchored(after, cfg) && after.state.cursor.None?
  {
    var h := HeaderAt(chain, n);
    UpsertAllResult(db.blocks, [h]);
    assert h == HeaderAt(h.hash, n) by {
      HeaderOfPrefix(chain, n + 1, n);
    }
  }

  /** Operations that touch neither headers, events, source nor cursor. */
  lemma AnchoredElsewhere(db: Db, after: Db, cfg: Config)
    requires Anchored(db, cfg)
    requires after.blocks == db.blocks && after.events == db.events && after.withdrawals == db.withdrawals
    requires after.state.source == db.state.source && after.state.cursor == db.state.cursor
    requires after.state.model == db.state.model
    ensures Anchored(after, cfg)
  {
    if db.state.cursor.Some? {
      var from: nat :| IndexedFrom(db, cfg, from);
      assert IndexedFrom(after, cfg, from);
    }
  }

  lemma ResetAnchored(db: Db, cfg: Config, model: ModelVersion)
    ensures Anchored(ResetForReplay(db, model), cfg) && Anchored(Fresh(model), cfg)
  {
  }

  // ----- what the tables hold once no row lies below the source

  ghost predicate NoRowBelow(db: Db, block: nat) {
    && (forall id :: id in db.events ==> block <= db.events[id].block)
    && (forall id :: id in db.withdrawals ==> block <= db.withdrawals[id].block)
  }

  lemma RowIsStored(db: Db, rows: seq<PoolEvent>, r: PoolEvent, block: nat)
    requires Holds(db, rows) && r in rows && NoRowBelow(db, block)
    ensures block <= r.block
  {
    assert if r.detail.Withdrawal? then db.withdrawals[r.eventId] == r else db.events[r.eventId] == r;
  }

  /** Then they hold exactly what a from-scratch index of the chain from the source to the cursor holds. */
  lemma FromScratch(db: Db, cfg: Config, chain: seq<Body>)
    requires ValidConfig(cfg) && Anchored(db, cfg) && db.state.cursor.Some? && CursorOn(db, chain)
    requires db.state.source.value.at.block <= db.state.cursor.value.block
    requires NoRowBelow(db, db.state.source.value.at.block)
    ensures var s, end := db.state.source.value.at.block, db.state.cursor.value.block + 1;
            && end <= |chain|
            && Clean(cfg, db.state.model, chain, s, end)
            && Holds(db, IndexOf(cfg, db.state.model, chain, s, end))
  {
    hide Holds, OnHistory, Referenced, Clean, IndexOf, NoRowBelow, SourceSound;
    var c, s, model := db.state.cursor.value, db.state.source.value.at.block, db.state.model;
    var end := c.block + 1;
    var from: nat :| IndexedFrom(db, cfg, from);
    IndexSplit(cfg, model, c.hash, from, s, end);
    NothingBelow(db, cfg, model, c.hash, from, s, end);
    assert [] + IndexOf(cfg, model, c.hash, s, end) == IndexOf(cfg, model, c.hash, s, end);
    IndexOfPrefix(cfg, model, chain, end, s, end);
  }

  lemma NothingBelow(db: Db, cfg: Config, model: ModelVersion, history: seq<Body>, from: nat, s: nat, end: nat)
    requires ValidConfig(cfg) && from <= s <= end <= |history| && NoRowBelow(db, s)
    requires Holds(db, IndexOf(cfg, model, history, from, end))
    ensures IndexOf(cfg, model, history, from, s) == []
  {
    var below := IndexOf(cfg, model, history, from, s);
    IndexSplit(cfg, model, history, from, s, end);
    if below != [] {
      var r := below[0];
      assert r in below && r in IndexOf(cfg, model, history, from, end);
      IndexRow(cfg, model, history, from, s, r);
      RowIsStored(db, IndexOf(cfg, model, history, from, end), r, s);
      assert false;
    }
  }
}
