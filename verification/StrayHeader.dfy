/**
 Retaining the source header and naming the source are two transactions. A process stopped between them leaves a
 header that the next source need not have anything to do with. What such headers can do to the tables.
 */
module StrayHeader {

  import opened Wrappers
  import opened EngineTypes
  import opened Sequences
  import opened Chain
  import opened PoolEvents
  import opened Index
  import opened Store
  import opened IndexedStore
  import opened Publication
  import opened BoundarySearch
  import opened BelowSource

  /** A move of the indexer, or one of the two transactions that make up the choice of a source. */
  datatype Step =
    | Whole(move: Move)
    | KeepHeader(chain: seq<Body>, head: nat, n: nat, required: nat)
    | NameSource(chain: seq<Body>, head: nat, n: nat, required: nat)

  ghost predicate Makes(db: Db, step: Step, after: Db, cfg: Config) {
    match step
    case Whole(move) => !move.Choose? && Takes(db, move, after, cfg)
    case KeepHeader(chain, head, n, required) =>
      && db.state.source.None? && Searched(cfg, chain, head, n, required)
      && RetainHeaders(db, [HeaderAt(chain, n)]) == Ok(after)
    case NameSource(chain, head, n, required) =>
      && db.state.source.None? && Searched(cfg, chain, head, n, required)
      && n in db.blocks && db.blocks[n] == HeaderAt(chain, n)
      && after == InitializeSource(db, Source(PointOf(HeaderAt(chain, n)), required))
  }

  /** The choice of a source is its two transactions, one after the other. */
  lemma ChoiceIsBoth(db: Db, after: Db, cfg: Config, chain: seq<Body>, head: nat, n: nat, required: nat)
    ensures Takes(db, Choose(chain, head, n, required), after, cfg)
            <==> exists kept :: Makes(db, KeepHeader(chain, head, n, required), kept, cfg)
                                && Makes(kept, NameSource(chain, head, n, required), after, cfg)
  {
    hide IsBoundary, Monotone, UpsertAll;
    if n < |chain| && RetainHeaders(db, [HeaderAt(chain, n)]).Ok? {
      var kept := RetainHeaders(db, [HeaderAt(chain, n)]).value;
      UpsertAllResult(db.blocks, [HeaderAt(chain, n)]);
      assert HeaderAt(chain, n) in [HeaderAt(chain, n)];
      if Takes(db, Choose(chain, head, n, required), after, cfg) {
        assert Makes(db, KeepHeader(chain, head, n, required), kept, cfg);
      }
    }
  }

  // ----- stray headers

  /** The header belongs where the tables are: to the cursor's history, or to the source before the first commit. */
  predicate Belongs(db: Db, n: nat)
    requires n in db.blocks
  {
    if db.state.cursor.Some? then
      var hash := db.state.cursor.value.hash;
      n < |hash| && db.blocks[n] == HeaderAt(hash, n)
    else
      && db.state.source.Some?
      && var at := db.state.source.value.at;
         n == at.block < |at.hash| && db.blocks[n] == HeaderAt(at.hash, n)
  }

  predicate Stray(db: Db, n: nat) {
    n in db.blocks && !Belongs(db, n)
  }

  /** The tables without their stray headers. */
  function Trimmed(db: Db): Db {
    db.(blocks := map n | n in db.blocks && Belongs(db, n) :: db.blocks[n])
  }

  predicate IsHeader(n: nat, h: Header) {
    h.number == n < |h.hash| && h == HeaderAt(h.hash, n) && |h.hash| == n + 1
  }

  /** Apart from stray headers the tables are the index of one history. */
  ghost predicate Loose(db: Db, cfg: Config) {
    && Anchored(Trimmed(db), cfg)
    && forall n :: n in db.blocks ==> IsHeader(n, db.blocks[n])
  }

  /** Tables that only whole moves have made have no stray header. */
  lemma AnchoredIsLoose(db: Db, cfg: Config)
    requires Anchored(db, cfg)
    ensures Loose(db, cfg) && forall n :: !Stray(db, n)
  {
    hide Clean, IndexOf, Holds, Referenced;
    if db.state.cursor.Some? {
      var from: nat :| IndexedFrom(db, cfg, from);
      forall n | n in db.blocks ensures IsHeader(n, db.blocks[n]) && Belongs(db, n) {
        HeaderIsHeader(db.state.cursor.value.hash, n);
      }
    }
    assert Trimmed(db).blocks == db.blocks;
  }

  /** A rollback onto a header that the tables have nothing to do with; to be seen before it is made. */
  predicate LandsOnStray(db: Db, step: Step) {
    step.Whole? && step.move.RollBack? && Stray(db, step.move.block)
  }

  // ----- what the other steps keep

  lemma TrimmedOnHistory(db: Db)
    requires db.state.cursor.Some?
    ensures OnHistory(Trimmed(db).blocks, db.state.cursor.value.hash)
  {
  }

  /** Retaining more headers of the same history. */
  lemma WidenAnchored(db: Db, after: Db, cfg: Config)
    requires Anchored(db, cfg) && db.state.cursor.Some?
    requires forall n :: n in db.blocks ==> n in after.blocks && after.blocks[n] == db.blocks[n]
    requires OnHistory(after.blocks, db.state.cursor.value.hash)
    requires after.events == db.events && after.withdrawals == db.withdrawals
    requires after.state.source == db.state.source && after.state.cursor == db.state.cursor
    requires after.state.model == db.state.model
    ensures Anchored(after, cfg)
  {
    hide Clean, IndexOf, TableHolds;
    var from: nat :| IndexedFrom(db, cfg, from);
    assert IndexedFrom(after, cfg, from);
  }

  lemma HeaderIsHeader(chain: seq<Body>, n: nat)
    requires n < |chain|
    ensures IsHeader(n, HeaderAt(chain, n))
  {
    HeaderOfPrefix(chain, n + 1, n);
  }

  lemma UpsertedHeaders(blocks: map<nat, Header>, headers: seq<Header>, chain: seq<Body>)
    requires UpsertAll(blocks, headers).Ok? && forall n :: n in blocks ==> IsHeader(n, blocks[n])
    requires forall h :: h in headers ==> h.number < |chain| && h == HeaderAt(chain, h.number)
    ensures forall n :: n in UpsertAll(blocks, headers).value ==> IsHeader(n, UpsertAll(blocks, headers).value[n])
  {
    hide UpsertAll, IsHeader;
    UpsertAllResult(blocks, headers);
    forall h | h in headers ensures IsHeader(h.number, h) {
      HeaderIsHeader(chain, h.number);
    }
  }

  /** Fewer headers to disagree with. */
  lemma {:induction false} UpsertFewer(blocks: map<nat, Header>, fewer: map<nat, Header>, headers: seq<Header>)
    requires UpsertAll(blocks, headers).Ok?
    requires forall n :: n in fewer ==> n in blocks && fewer[n] == blocks[n]
    ensures UpsertAll(fewer, headers).Ok?
    ensures var all, some := UpsertAll(blocks, headers).value, UpsertAll(fewer, headers).value;
            forall n :: n in some ==> n in all && some[n] == all[n]
  {
    if headers != [] {
      UpsertFewer(blocks, fewer, headers[..|headers| - 1]);
    }
  }

  /** Insertion asks of the headers only that those of the events are there. */
  lemma {:induction false} InsertFewer(db: Db, fewer: map<nat, Header>, events: seq<PoolEvent>)
    requires InsertAll(db, events).Ok? && forall e :: e in events ==> e.block in fewer
    ensures InsertAll(db.(blocks := fewer), events) == Ok(InsertAll(db, events).value.(blocks := fewer))
  {
    if events != [] {
      var init := events[..|events| - 1];
      InsertFewer(db, fewer, init);
      InsertKeepsRest(db, init);
      InsertKeepsRest(db, events);
    }
  }

  lemma CommitKeepsLoose(db: Db, batch: Batch, after: Db, cfg: Config, chain: seq<Body>)
    requires ValidConfig(cfg) && Loose(db, cfg) && db.state.source.Some? && CursorOn(db, chain)
    requires BatchOf(batch, cfg, db.state.model, chain, StartOf(db)) && CommitBatch(db, batch) == Ok(after)
    ensures Loose(after, cfg)
  {
    hide Anchored, CommitBatch, IsHeader, Belongs, Clean, IndexOf, ValidConfig;
    var trimmed := Trimmed(db);
    TrimmedCommits(db, batch, after, chain);
    var committed := CommitBatch(trimmed, batch).value;
    CommitAnchored(trimmed, batch, committed, cfg, chain, StartOf(db));
    CommitHeaders(db, batch, after, chain);
    HistoryBelongs(committed, after, cfg);
    TrimmedOnHistory(after);
    WidenAnchored(committed, Trimmed(after), cfg);
  }

  /** The batch commits to the trimmed tables as well, with the same events and no other headers. */
  lemma TrimmedCommits(db: Db, batch: Batch, after: Db, chain: seq<Body>)
    requires CommitBatch(db, batch) == Ok(after)
    requires forall e :: e in batch.events ==> e.block < |chain| && HeaderAt(chain, e.block) in batch.headers
    ensures CommitBatch(Trimmed(db), batch).Ok?
    ensures var committed := CommitBatch(Trimmed(db), batch).value;
            && committed == after.(blocks := committed.blocks)
            && forall n :: n in committed.blocks ==> n in after.blocks && after.blocks[n] == committed.blocks[n]
  {
    hide UpsertAll, InsertAll, Belongs;
    var trimmed := Trimmed(db).blocks;
    UpsertFewer(db.blocks, trimmed, batch.headers);
    UpsertAllResult(trimmed, batch.headers);
    var all, some := UpsertAll(db.blocks, batch.headers).value, UpsertAll(trimmed, batch.headers).value;
    InsertFewer(db.(blocks := all), some, batch.events);
    InsertKeepsRest(db.(blocks := all), batch.events);
    assert db.(blocks := all).(blocks := some) == Trimmed(db).(blocks := some);
  }

  lemma CommitHeaders(db: Db, batch: Batch, after: Db, chain: seq<Body>)
    requires CommitBatch(db, batch) == Ok(after) && forall n :: n in db.blocks ==> IsHeader(n, db.blocks[n])
    requires forall h :: h in batch.headers ==> h.number < |chain| && h == HeaderAt(chain, h.number)
    ensures forall n :: n in after.blocks ==> IsHeader(n, after.blocks[n])
  {
    hide UpsertAll, InsertAll, IsHeader;
    UpsertedHeaders(db.blocks, batch.headers, chain);
    InsertKeepsRest(db.(blocks := UpsertAll(db.blocks, batch.headers).value), batch.events);
  }

  /** Headers of anchored tables with a cursor belong. */
  lemma HistoryBelongs(db: Db, after: Db, cfg: Config)
    requires Anchored(db, cfg) && db.state.cursor.Some? && after.state.cursor == db.state.cursor
    requires forall n :: n in db.blocks ==> n in after.blocks && after.blocks[n] == db.blocks[n]
    ensures forall n :: n in db.blocks ==> n in Trimmed(after).blocks && Trimmed(after).blocks[n] == db.blocks[n]
  {
    hide Clean, IndexOf, Holds, Referenced, SourceSound;
    var from: nat :| IndexedFrom(db, cfg, from);
  }

  lemma RetainKeepsLoose(db: Db, headers: seq<Header>, after: Db, cfg: Config)
    requires Loose(db, cfg) && db.state.cursor.Some? && RetainHeaders(db, headers) == Ok(after)
    requires var hash := db.state.cursor.value.hash;
             forall h :: h in headers ==> h.number < |hash| && h == HeaderAt(hash, h.number)
    ensures Loose(after, cfg)
  {
    hide Anchored, IsHeader, UpsertAll;
    UpsertedHeaders(db.blocks, headers, db.state.cursor.value.hash);
    UpsertAllResult(db.blocks, headers);
    TrimmedOnHistory(after);
    WidenAnchored(Trimmed(db), Trimmed(after), cfg);
  }

  lemma RollbackKeepsLoose(db: Db, block: nat, after: Db, cfg: Config)
    requires ValidConfig(cfg) && Loose(db, cfg) && db.state.cursor.Some? && RollbackTo(db, block) == Ok(after)
    requires !Stray(db, block)
    ensures Loose(after, cfg)
  {
    hide Anchored, IsHeader, ValidConfig;
    TrimmedRollsBack(db, block, after, cfg);
    RollbackAnchored(Trimmed(db), cfg, block);
  }

  lemma SameCascade(table: EventTable, some: map<nat, Header>, all: map<nat, Header>, referred: map<nat, Header>)
    requires Referenced(referred, table) && forall n :: n in referred ==> (n in some <==> n in all)
    ensures Cascade(table, some) == Cascade(table, all)
  {
  }

  lemma RollbackBelongs(db: Db, block: nat, after: Db)
    requires db.state.cursor.Some? && RollbackTo(db, block) == Ok(after) && !Stray(db, block)
    ensures forall n :: n in after.blocks ==> (Belongs(after, n) <==> Belongs(db, n))
  {
    hide RollbackTo;
    RolledBack(db, block, after);
    forall n | n in after.blocks ensures Belongs(after, n) <==> Belongs(db, n) {
      var hash := db.state.cursor.value.hash;
      HeaderOfPrefix(hash, block + 1, n);
    }
  }

  lemma TrimmedRollsBack(db: Db, block: nat, after: Db, cfg: Config)
    requires Loose(db, cfg) && db.state.cursor.Some? && RollbackTo(db, block) == Ok(after) && !Stray(db, block)
    ensures RollbackTo(Trimmed(db), block) == Ok(Trimmed(after))
  {
    hide Anchored, IsHeader, Belongs, Cascade, Referenced, Filter;
    RollbackBelongs(db, block, after);
    RowsAreReferenced(Trimmed(db), cfg);
    var some, all := map n | n in Trimmed(db).blocks && n <= block :: db.blocks[n], after.blocks;
    assert some == Trimmed(after).blocks;
    SameCascade(db.events, some, all, Trimmed(db).blocks);
    SameCascade(db.withdrawals, some, all, Trimmed(db).blocks);
  }

  lemma KeptHeaderLoose(db: Db, after: Db, cfg: Config, chain: seq<Body>, n: nat)
    requires Loose(db, cfg) && db.state.source.None? && n < |chain|
    requires RetainHeaders(db, [HeaderAt(chain, n)]) == Ok(after)
    ensures Loose(after, cfg)
  {
    hide IndexedFrom, IsHeader, UpsertAll;
    UpsertedHeaders(db.blocks, [HeaderAt(chain, n)], chain);
    UpsertAllResult(db.blocks, [HeaderAt(chain, n)]);
    assert Trimmed(after).blocks == map[] == Trimmed(db).blocks;
  }

  lemma NamedSourceLoose(db: Db, after: Db, cfg: Config, chain: seq<Body>, head: nat, n: nat, required: nat)
    requires Loose(db, cfg) && Makes(db, NameSource(chain, head, n, required), after, cfg)
    ensures Loose(after, cfg)
  {
    hide IndexedFrom, IsHeader;
    HeaderOfPrefix(chain, n + 1, n);
  }

  /** Every step but a rollback onto a stray header keeps the events the index of one history. */
  lemma StepsKeepLoose(db: Db, step: Step, after: Db, cfg: Config)
    requires ValidConfig(cfg) && Loose(db, cfg) && Makes(db, step, after, cfg) && !LandsOnStray(db, step)
    ensures Loose(after, cfg)
  {
    match step
    case KeepHeader(chain, head, n, required) => KeptHeaderLoose(db, after, cfg, chain, n);
    case NameSource(chain, head, n, required) => NamedSourceLoose(db, after, cfg, chain, head, n, required);
    case Whole(move) => MovesKeepLoose(db, move, after, cfg);
  }

  lemma MovesKeepLoose(db: Db, move: Move, after: Db, cfg: Config)
    requires ValidConfig(cfg) && Loose(db, cfg) && Makes(db, Whole(move), after, cfg)
    requires !LandsOnStray(db, Whole(move))
    ensures Loose(after, cfg)
  {
    hide Anchored, CommitBatch, RollbackTo, RetainHeaders, BatchOf, ValidConfig, IsHeader, Belongs;
    match move
    case CommitNext(batch, chain) => CommitKeepsLoose(db, batch, after, cfg, chain);
    case RetainOnHistory(headers) => RetainKeepsLoose(db, headers, after, cfg);
    case RollBack(block, _) => RollbackKeepsLoose(db, block, after, cfg);
    case MarkStatus(_, _) => SameBlocksLoose(db, after, cfg);
    case Publish(_) => SameBlocksLoose(db, after, cfg);
    case Reset(model) => ResetAnchored(Trimmed(db), cfg, model);
  }

  lemma SameBlocksLoose(db: Db, after: Db, cfg: Config)
    requires Loose(db, cfg) && after.blocks == db.blocks
    requires after.events == db.events && after.withdrawals == db.withdrawals
    requires after.state.source == db.state.source && after.state.cursor == db.state.cursor
    requires after.state.model == db.state.model
    ensures Loose(after, cfg)
  {
    hide Anchored, IsHeader;
    assert Trimmed(after).blocks == Trimmed(db).blocks;
    AnchoredElsewhere(Trimmed(db), Trimmed(after), cfg);
  }

  // ----- runs

  ghost predicate IsStepRun(dbs: seq<Db>, steps: seq<Step>, cfg: Config) {
    && |dbs| == |steps| + 1
    && forall i :: 0 <= i < |steps| ==> Makes(dbs[i], steps[i], dbs[i + 1], cfg)
  }

  /** Stopped anywhere at all, until a rollback lands on a stray header. */
  lemma {:induction false} RunStaysLoose(dbs: seq<Db>, steps: seq<Step>, cfg: Config, k: nat)
    requires ValidConfig(cfg) && IsStepRun(dbs, steps, cfg) && Loose(dbs[0], cfg) && k < |dbs|
    requires forall i :: 0 <= i < k ==> !LandsOnStray(dbs[i], steps[i])
    ensures Loose(dbs[k], cfg)
  {
    hide Loose, Makes, ValidConfig, LandsOnStray;
    if k > 0 {
      RunStaysLoose(dbs, steps, cfg, k - 1);
      StepsKeepLoose(dbs[k - 1], steps[k - 1], dbs[k], cfg);
    }
  }

  /** Stray headers alone do no harm: the events are those of a from-scratch index all the same. */
  lemma LooseFromScratch(db: Db, cfg: Config, chain: seq<Body>)
    requires ValidConfig(cfg) && Loose(db, cfg) && db.state.cursor.Some? && CursorOn(db, chain)
    requires db.state.source.Some? && db.state.source.value.at.block <= db.state.cursor.value.block
    requires NoRowBelow(db, db.state.source.value.at.block)
    ensures var s, end := db.state.source.value.at.block, db.state.cursor.value.block + 1;
            && end <= |chain|
            && Clean(cfg, db.state.model, chain, s, end)
            && Holds(db, IndexOf(cfg, db.state.model, chain, s, end))
  {
    hide Anchored, Clean, IndexOf, IsHeader, TableHolds;
    FromScratch(Trimmed(db), cfg, chain);
  }

  // ----- landing on a stray header

  /** How many blocks two histories share. */
  function Fork(a: BlockHash, b: BlockHash): (k: nat)
    ensures k <= |a| && k <= |b| && a[..k] == b[..k]
    ensures k < |a| && k < |b| ==> a[k] != b[k]
  {
    if a != [] && b != [] && a[0] == b[0] then 1 + Fork(a[1..], b[1..]) else 0
  }

  predicate Stored(db: Db, r: PoolEvent) {
    || (r.eventId in db.events && db.events[r.eventId] == r)
    || (r.eventId in db.withdrawals && db.withdrawals[r.eventId] == r)
  }

  /** Some event survives a rollback to this block. */
  ghost predicate SomeRemain(db: Db, block: nat) {
    exists r :: Stored(db, r) && r.block <= block
  }

  /** The first block in which the stray header's history may hold an event that the tables would miss. */
  ghost function QuietFrom(db: Db, block: nat): nat
    requires db.state.cursor.Some? && db.state.source.Some? && block in db.blocks
  {
    var fork := Fork(db.state.cursor.value.hash, db.blocks[block].hash);
    var source := db.state.source.value.at.block;
    if SomeRemain(db, block) then fork else Max(fork, Min(source, block + 1))
  }

  function Max(a: nat, b: nat): nat {
    if a >= b then a else b
  }

  function Min(a: nat, b: nat): nat {
    if a <= b then a else b
  }

  /**
   Since the fork neither history has an event up to the block of the stray header, as far as the tables are
   concerned; to be seen before the rollback.
   */
  ghost predicate QuietSinceFork(db: Db, cfg: Config, block: nat)
    requires db.state.cursor.Some? && db.state.source.Some? && block in db.blocks && IsHeader(block, db.blocks[block])
  {
    var ours, theirs := db.state.cursor.value.hash, db.blocks[block].hash;
    && (forall r :: Stored(db, r) && r.block <= block ==> r.block < Fork(ours, theirs))
    && EventsIn(QueryOf(cfg, db.state.model), theirs, QuietFrom(db, block), block + 1) == []
  }

  lemma ForksBelow(db: Db, block: nat, chain: seq<Body>)
    requires db.state.cursor.Some? && !CursorOn(db, chain) && Stray(db, block) && IsHeader(block, db.blocks[block])
    requires block < |chain| && db.blocks[block].hash == HeaderAt(chain, block).hash
    ensures var fork := Fork(db.state.cursor.value.hash, db.blocks[block].hash);
            fork < |db.state.cursor.value.hash| && fork <= block
  {
  }

  lemma BeforeFork(a: BlockHash, b: BlockHash, n: nat)
    requires n < |a| && n < |b| && a[..n + 1] == b[..n + 1]
    ensures n < Fork(a, b)
  {
    var k := Fork(a, b);
    if k <= n {
      assert a[..n + 1][k] == b[..n + 1][k];
    }
  }

  lemma NoEvents(cfg: Config, model: ModelVersion, chain: seq<Body>, from: nat, end: nat)
    requires end <= |chain|
    ensures EventsIn(QueryOf(cfg, model), chain, from, end) == []
            <==> Clean(cfg, model, chain, from, end) && IndexOf(cfg, model, chain, from, end) == []
  {
    var events := EventsIn(QueryOf(cfg, model), chain, from, end);
    if Clean(cfg, model, chain, from, end) {
      OkValuesAll(DecodeAll(cfg, chain, SortedEvents(cfg, model, chain, from, end)));
    }
  }

  /** A landing keeps these events and nothing else. */
  lemma LandedRows(db: Db, block: nat, after: Db)
    requires RollbackTo(db, block) == Ok(after)
    requires Referenced(db.blocks, db.events) && Referenced(db.blocks, db.withdrawals)
    ensures forall r :: Stored(after, r) <==> Stored(db, r) && r.block <= block
  {
    hide RollbackTo;
    RolledBack(db, block, after);
  }

  lemma RowIsHeld(db: Db, rows: seq<PoolEvent>, r: PoolEvent)
    requires Holds(db, rows)
    ensures Stored(db, r) <==> r in rows
  {
  }

  /** An event of two histories lies before their fork. */
  lemma SharedRow(cfg: Config, model: ModelVersion, ours: BlockHash, theirs: BlockHash, from: nat, other: nat,
                  r: PoolEvent)
    requires r in IndexOf(cfg, model, ours, from, |ours|) && r in IndexOf(cfg, model, theirs, other, |theirs|)
    ensures from <= r.block && other <= r.block < Fork(ours, theirs)
  {
    hide IndexOf;
    IndexRow(cfg, model, ours, from, |ours|, r);
    IndexRow(cfg, model, theirs, other, |theirs|, r);
    BeforeFork(ours, theirs, r.block);
  }

  /** When the tables are loose after the landing, neither history has moved on since the fork. */
  lemma LandedLoose(db: Db, block: nat, after: Db, cfg: Config, from: nat, other: nat)
    requires ValidConfig(cfg) && db.state.cursor.Some? && db.state.source.Some?
    requires RollbackTo(db, block) == Ok(after) && block in db.blocks && IsHeader(block, db.blocks[block])
    requires IndexedFrom(Trimmed(db), cfg, from)
    requires after.state.source == db.state.source && after.state.cursor == Some(PointOf(db.blocks[block]))
    requires after.state.model == db.state.model && IndexedFrom(Trimmed(after), cfg, other)
    ensures QuietSinceFork(db, cfg, block)
  {
    hide RollbackTo, IndexOf, Clean, Belongs, OnHistory, Referenced, Holds, EventsIn;
    var ours, theirs, model := db.state.cursor.value.hash, db.blocks[block].hash, db.state.model;
    var fork, start := Fork(ours, theirs), QuietFrom(db, block);
    var old', new' := IndexOf(cfg, model, ours, from, |ours|), IndexOf(cfg, model, theirs, other, |theirs|);
    RowsReferred(db, cfg, from);
    LandedRows(db, block, after);
    forall r ensures Stored(db, r) <==> r in old' {
      RowIsHeld(Trimmed(db), old', r);
    }
    forall r ensures Stored(after, r) <==> r in new' {
      RowIsHeld(Trimmed(after), new', r);
    }
    forall r | Stored(db, r) && r.block <= block ensures other <= r.block < fork {
      SharedRow(cfg, model, ours, theirs, from, other, r);
    }
    assert other <= start;
    IndexSplit(cfg, model, theirs, other, start, block + 1);
    if IndexOf(cfg, model, theirs, start, block + 1) != [] {
      var e := IndexOf(cfg, model, theirs, start, block + 1)[0];
      assert e in IndexOf(cfg, model, theirs, start, block + 1) && e in new';
      IndexRow(cfg, model, theirs, start, block + 1, e);
      assert false;
    }
    NoEvents(cfg, model, theirs, start, block + 1);
  }

  lemma RowsReferred(db: Db, cfg: Config, from: nat)
    requires db.state.cursor.Some? && db.state.source.Some? && IndexedFrom(Trimmed(db), cfg, from)
    ensures Referenced(db.blocks, db.events) && Referenced(db.blocks, db.withdrawals)
  {
    hide Holds, IndexOf, Clean, OnHistory, Belongs;
  }

  /** Where the index starts after such a landing. */
  ghost function LandingStart(db: Db, block: nat, from: nat): nat
    requires db.state.source.Some?
  {
    if SomeRemain(db, block) then from else Min(db.state.source.value.at.block, block + 1)
  }

  /** The stray header's history has the same events up to the fork, and none after it. */
  lemma QuietlyLanded(db: Db, block: nat, cfg: Config, from: nat) returns (early: seq<PoolEvent>, late: seq<PoolEvent>)
    requires ValidConfig(cfg) && db.state.cursor.Some? && db.state.source.Some?
    requires block in db.blocks && IsHeader(block, db.blocks[block]) && QuietSinceFork(db, cfg, block)
    requires Fork(db.state.cursor.value.hash, db.blocks[block].hash) < |db.state.cursor.value.hash|
    requires Fork(db.state.cursor.value.hash, db.blocks[block].hash) <= block
    requires IndexedFrom(Trimmed(db), cfg, from)
    ensures var ours, theirs, start := db.state.cursor.value.hash, db.blocks[block].hash, LandingStart(db, block, from);
            && start <= db.state.source.value.at.block && start <= block + 1
            && IndexOf(cfg, db.state.model, ours, from, |ours|) == early + late
            && IndexOf(cfg, db.state.model, theirs, start, block + 1) == early
            && Clean(cfg, db.state.model, theirs, start, block + 1)
    ensures (forall r :: r in early ==> r.block <= block) && forall r :: r in late ==> r.block > block
  {
    hide IndexOf, Clean, Belongs, OnHistory, Referenced, Holds, EventsIn;
    var ours, theirs, model := db.state.cursor.value.hash, db.blocks[block].hash, db.state.model;
    var fork, quiet, start := Fork(ours, theirs), QuietFrom(db, block), LandingStart(db, block, from);
    var all := IndexOf(cfg, model, ours, from, |ours|);
    forall r ensures Stored(db, r) <==> r in all {
      RowIsHeld(Trimmed(db), all, r);
    }
    RowsBetween(cfg, model, ours, from, |ours|);
    NoEvents(cfg, model, theirs, quiet, block + 1);
    if SomeRemain(db, block) {
      early, late := IndexOf(cfg, model, ours, from, fork), IndexOf(cfg, model, ours, fork, |ours|);
      IndexSplit(cfg, model, ours, from, fork, |ours|);
      RowsBetween(cfg, model, ours, from, fork);
      RowsBetween(cfg, model, ours, fork, |ours|);
      SameUpToFork(cfg, model, ours, theirs, from);
      IndexSplit(cfg, model, theirs, from, fork, block + 1);
      assert early + [] == early;
    } else {
      early, late := [], all;
      assert [] + all == all;
      if start < fork {
        NoneRemainsBefore(db, block, cfg, from, start, all);
      }
    }
  }

  lemma SameUpToFork(cfg: Config, model: ModelVersion, ours: BlockHash, theirs: BlockHash, from: nat)
    ensures IndexOf(cfg, model, theirs, from, Fork(ours, theirs)) == IndexOf(cfg, model, ours, from, Fork(ours, theirs))
    ensures Clean(cfg, model, theirs, from, Fork(ours, theirs)) == Clean(cfg, model, ours, from, Fork(ours, theirs))
  {
    hide IndexOf, Clean;
    var fork := Fork(ours, theirs);
    IndexOfPrefix(cfg, model, ours, fork, from, fork);
    IndexOfPrefix(cfg, model, theirs, fork, from, fork);
  }

  lemma NoneRemainsBefore(db: Db, block: nat, cfg: Config, from: nat, start: nat, all: seq<PoolEvent>)
    requires ValidConfig(cfg) && db.state.cursor.Some? && block in db.blocks && IsHeader(block, db.blocks[block])
    requires from <= start < Fork(db.state.cursor.value.hash, db.blocks[block].hash) <= block
    requires all == IndexOf(cfg, db.state.model, db.state.cursor.value.hash, from, |db.state.cursor.value.hash|)
    requires Clean(cfg, db.state.model, db.state.cursor.value.hash, from, |db.state.cursor.value.hash|)
    requires forall r :: r in all ==> r.block > block
    requires EventsIn(QueryOf(cfg, db.state.model), db.blocks[block].hash,
                      Fork(db.state.cursor.value.hash, db.blocks[block].hash), block + 1) == []
    ensures IndexOf(cfg, db.state.model, db.blocks[block].hash, start, block + 1) == []
    ensures Clean(cfg, db.state.model, db.blocks[block].hash, start, block + 1)
  {
    hide IndexOf, Clean, EventsIn;
    var ours, theirs, model := db.state.cursor.value.hash, db.blocks[block].hash, db.state.model;
    var fork := Fork(ours, theirs);
    IndexSplit(cfg, model, ours, from, start, |ours|);
    IndexSplit(cfg, model, ours, start, fork, |ours|);
    var between := IndexOf(cfg, model, ours, start, fork);
    if between != [] {
      assert between[0] in between && between[0] in all;
      IndexRow(cfg, model, ours, start, fork, between[0]);
      assert false;
    }
    SameUpToFork(cfg, model, ours, theirs, start);
    IndexSplit(cfg, model, theirs, start, fork, block + 1);
    NoEvents(cfg, model, theirs, fork, block + 1);
  }

  /** Events from before the fork are on headers that both histories have. */
  lemma LandedReferences(db: Db, block: nat, after: Db, table: EventTable)
    requires db.state.cursor.Some? && RollbackTo(db, block) == Ok(after) && block in db.blocks
    requires IsHeader(block, db.blocks[block]) && Referenced(Trimmed(db).blocks, table)
    requires forall id :: id in table && table[id].block <= block ==>
               table[id].block < Fork(db.state.cursor.value.hash, db.blocks[block].hash)
    ensures Referenced(Trimmed(after).blocks, Cascade(table, after.blocks))
  {
    hide RollbackTo;
    RolledBack(db, block, after);
    var ours, theirs := db.state.cursor.value.hash, db.blocks[block].hash;
    forall id | id in table && table[id].block in after.blocks ensures table[id].block in Trimmed(after).blocks {
      var n, fork := table[id].block, Fork(ours, theirs);
      HeaderOfPrefix(ours, fork, n);
      HeaderOfPrefix(theirs, fork, n);
    }
  }

  lemma RowsBeforeFork(db: Db, rows: seq<PoolEvent>, block: nat, fork: nat)
    requires Holds(Trimmed(db), rows) && forall r :: Stored(db, r) && r.block <= block ==> r.block < fork
    ensures forall id :: id in db.events && db.events[id].block <= block ==> db.events[id].block < fork
    ensures forall id :: id in db.withdrawals && db.withdrawals[id].block <= block ==> db.withdrawals[id].block < fork
  {
  }

  lemma LandedTip(db: Db, block: nat, after: Db)
    requires RollbackTo(db, block) == Ok(after) && block in db.blocks && IsHeader(block, db.blocks[block])
    ensures after.state.cursor.Some? && IsTip(after.state.cursor.value) && block in Trimmed(after).blocks
    ensures after.state.cursor.value.block == block && after.state.cursor.value.hash == db.blocks[block].hash
    ensures OnHistory(Trimmed(after).blocks, db.blocks[block].hash)
  {
    hide RollbackTo;
    RolledBack(db, block, after);
  }

  lemma QuietLandingLoose(db: Db, block: nat, after: Db, cfg: Config, from: nat)
    requires ValidConfig(cfg) && db.state.cursor.Some? && db.state.source.Some?
    requires RollbackTo(db, block) == Ok(after)
    requires block in db.blocks && IsHeader(block, db.blocks[block]) && QuietSinceFork(db, cfg, block)
    requires Fork(db.state.cursor.value.hash, db.blocks[block].hash) < |db.state.cursor.value.hash|
    requires Fork(db.state.cursor.value.hash, db.blocks[block].hash) <= block
    requires IndexedFrom(Trimmed(db), cfg, from)
    ensures after.state.source.Some? && after.state.cursor.Some?
    ensures IndexedFrom(Trimmed(after), cfg, LandingStart(db, block, from))
  {
    hide RollbackTo, IndexOf, Clean, Belongs, OnHistory, Referenced, TableHolds, EventsIn, LandingStart, IsHeader;
    RolledBack(db, block, after);
    LandedTip(db, block, after);
    var early, late := QuietlyLanded(db, block, cfg, from);
    RowsReferred(db, cfg, from);
    CascadeHolds(db.events, after.blocks, block, db.blocks, early, late, false);
    CascadeHolds(db.withdrawals, after.blocks, block, db.blocks, early, late, true);
    RowsBeforeFork(db, early + late, block, Fork(db.state.cursor.value.hash, db.blocks[block].hash));
    LandedReferences(db, block, after, db.events);
    LandedReferences(db, block, after, db.withdrawals);
  }

  /**
   A rollback onto a stray header keeps the events the index of one history exactly when neither history has had an
   event since the fork.
   */
  lemma QuietLandings(db: Db, step: Step, after: Db, cfg: Config)
    requires ValidConfig(cfg) && Loose(db, cfg) && Makes(db, step, after, cfg) && LandsOnStray(db, step)
    ensures db.state.cursor.Some? && db.state.source.Some? && IsHeader(step.move.block, db.blocks[step.move.block])
    ensures Loose(after, cfg) <==> QuietSinceFork(db, cfg, step.move.block)
  {
    hide RollbackTo, IndexedFrom, QuietSinceFork, Belongs, SourceSound, IsHeader;
    var block := step.move.block;
    RolledBack(db, block, after);
    ForksBelow(db, block, step.move.chain);
    var from: nat :| IndexedFrom(Trimmed(db), cfg, from);
    if QuietSinceFork(db, cfg, block) {
      QuietLandingLoose(db, block, after, cfg, from);
      AnchoredFrom(Trimmed(db), Trimmed(after), cfg, LandingStart(db, block, from));
    }
    if Loose(after, cfg) {
      var other: nat :| IndexedFrom(Trimmed(after), cfg, other);
      LandedLoose(db, block, after, cfg, from, other);
    }
  }
}
