/**
 The persistent index: what its tables hold, what each operation makes of them, and the store object
 that carries the operations out. A transaction either takes effect as a whole or leaves no trace.
 */
module Store {

  import opened Wrappers
  import opened EngineTypes
  import opened Sequences
  import opened Sorting
  import opened Chain
  import opened PoolEvents
  import opened Index
  import opened Snapshots
  import opened SnapshotJson
  import opened Headers

  datatype Status = Empty | Syncing | Reorging | Complete | Failed

  datatype Code =
    | UnknownPool | RpcUnavailable | StaleRpc | IndexLag | IndexCorrupt | InconsistentBlockData
    | InsufficientHistory | ModelVersionMismatch | PoolSchemaMismatch | SnapshotUnavailable

  datatype Source = Source(at: Point, required: nat)

  /** The singleton state row. Columns that are only ever written together are one optional value. */
  datatype State = State(
    status: Status,
    model: ModelVersion,
    source: Option<Source>,
    cursor: Option<Point>,
    active: Option<nat>,
    lastError: Option<Code>)

  datatype SnapshotRow = SnapshotRow(hash: nat, observedBlock: nat, text: Tree, createdAt: int)

  type EventTable = map<EventId, PoolEvent>

  datatype Db = Db(
    blocks: map<nat, Header>,
    events: EventTable,
    withdrawals: EventTable,
    snapshots: seq<SnapshotRow>,
    state: State)

  datatype Batch = Batch(through: Header, headers: seq<Header>, events: seq<PoolEvent>)

  const MAX_SNAPSHOT_HISTORY := 3

  function PointOf(h: Header): Point {
    Point(h.number, h.hash, h.timestamp)
  }

  function Fresh(model: ModelVersion): Db {
    Db(map[], map[], map[], [], State(Empty, model, None, None, None, None))
  }

  // ----- what each operation makes of the tables

  function UpsertHeader(blocks: map<nat, Header>, h: Header): Result<map<nat, Header>, Code> {
    if h.number !in blocks then Ok(blocks[h.number := h])
    else if blocks[h.number] == h then Ok(blocks)
    else Err(InconsistentBlockData)
  }

  function UpsertAll(blocks: map<nat, Header>, headers: seq<Header>): Result<map<nat, Header>, Code> {
    if headers == [] then Ok(blocks)
    else
      var before :- UpsertAll(blocks, headers[..|headers| - 1]);
      UpsertHeader(before, headers[|headers| - 1])
  }

  /** A known identity must come back unchanged, and an event needs the header of its block. */
  function InsertRow(blocks: map<nat, Header>, table: EventTable, e: PoolEvent): Result<EventTable, Code> {
    if e.eventId in table then
      if table[e.eventId] == e then Ok(table) else Err(IndexCorrupt)
    else if e.block !in blocks then Err(IndexCorrupt)
    else Ok(table[e.eventId := e])
  }

  function InsertEvent(db: Db, e: PoolEvent): Result<Db, Code> {
    if e.detail.Withdrawal? then
      var table :- InsertRow(db.blocks, db.withdrawals, e);
      Ok(db.(withdrawals := table))
    else
      var table :- InsertRow(db.blocks, db.events, e);
      Ok(db.(events := table))
  }

  function InsertAll(db: Db, events: seq<PoolEvent>): Result<Db, Code> {
    if events == [] then Ok(db)
    else
      var before :- InsertAll(db, events[..|events| - 1]);
      InsertEvent(before, events[|events| - 1])
  }

  function CommitBatch(db: Db, batch: Batch): Result<Db, Code> {
    var blocks :- UpsertAll(db.blocks, batch.headers);
    var filled :- InsertAll(db.(blocks := blocks), batch.events);
    Ok(filled.(state := db.state.(status := Syncing, cursor := Some(PointOf(batch.through)))))
  }

  function RetainHeaders(db: Db, headers: seq<Header>): Result<Db, Code> {
    var blocks :- UpsertAll(db.blocks, headers);
    Ok(db.(blocks := blocks))
  }

  function InitializeSource(db: Db, source: Source): Db {
    db.(state := db.state.(source := Some(source)))
  }

  function ObservedBy(block: nat): SnapshotRow -> bool {
    (row: SnapshotRow) => row.observedBlock <= block
  }

  /** Deleting a header deletes the rows that refer to it. */
  function Cascade(table: EventTable, blocks: map<nat, Header>): EventTable {
    map id | id in table && table[id].block in blocks :: table[id]
  }

  function RollbackTo(db: Db, block: nat): Result<Db, Code> {
    if block !in db.blocks then Err(IndexCorrupt)
    else
      var kept := map n | n in db.blocks && n <= block :: db.blocks[n];
      Ok(Db(kept, Cascade(db.events, kept), Cascade(db.withdrawals, kept),
            Filter(db.snapshots, ObservedBy(block)),
            db.state.(status := Syncing, cursor := Some(PointOf(db.blocks[block])), active := None)))
  }

  function ResetForReplay(db: Db, model: ModelVersion): Db {
    Db(map[], map[], map[], [], State(Empty, model, None, None, None, db.state.lastError))
  }

  function EnsureModelVersion(db: Db, model: ModelVersion): Db {
    if db.state.model == model then db else ResetForReplay(db, model)
  }

  predicate IsTransient(code: Option<Code>) {
    code == Some(RpcUnavailable)
  }

  /** Whether an active snapshot may still be served under this status. */
  predicate Servable(status: Status, code: Option<Code>) {
    status == Complete || status == Syncing || (status == Failed && IsTransient(code))
  }

  function SetStatus(db: Db, status: Status, code: Option<Code>): Db {
    db.(state := db.state.(
          status := status,
          active := if Servable(status, code) then db.state.active else None,
          lastError := if code.None? then db.state.lastError else code))
  }

  /** Newest first; ties by observed block, then by hash. */
  function NewestFirst(): (SnapshotRow, SnapshotRow) -> bool {
    (x: SnapshotRow, y: SnapshotRow) =>
      if x.createdAt != y.createdAt then x.createdAt > y.createdAt
      else if x.observedBlock != y.observedBlock then x.observedBlock > y.observedBlock
      else x.hash >= y.hash
  }

  function OtherThan(hash: nat): SnapshotRow -> bool {
    (row: SnapshotRow) => row.hash != hash
  }

  /** The new row, and the most recent of the others. */
  function PersistSnapshot(db: Db, row: SnapshotRow): Db {
    var others := Sort(NewestFirst(), Filter(db.snapshots, OtherThan(row.hash)));
    db.(snapshots := [row] + Take(others, MAX_SNAPSHOT_HISTORY - 1),
        state := db.state.(status := Complete, active := Some(row.hash)))
  }

  function RowFor(cfg: Config, digest: Tree -> nat, s: PublicSnapshot, now: int): SnapshotRow {
    var text := CanonicalJson(cfg, s);
    SnapshotRow(digest(text), s.facts.observed.block, text, now)
  }

  function FindRow(rows: seq<SnapshotRow>, hash: nat): Option<SnapshotRow> {
    if rows == [] then None
    else if rows[0].hash == hash then Some(rows[0])
    else FindRow(rows[1..], hash)
  }

  /** The active snapshot, re-hashed before it is served. */
  function LoadComplete(db: Db, cfg: Config, digest: Tree -> nat): Result<PublicSnapshot, Code> {
    var state := db.state;
    if state.active.None? || !Servable(state.status, state.lastError) then
      Err(if state.status == Failed && state.lastError.Some? then state.lastError.value else SnapshotUnavailable)
    else
      var row := FindRow(db.snapshots, state.active.value);
      if row.None? then Err(IndexCorrupt)
      else
        var parsed := ParseSnapshot(row.value.text);
        if parsed.None? then Err(IndexCorrupt)
        else if digest(CanonicalJson(cfg, parsed.value)) != state.active.value then Err(IndexCorrupt)
        else Ok(parsed.value)
  }

  // ----- what is read back

  /** Event identities are primary keys, block numbers likewise. */
  predicate Keyed(table: EventTable) {
    forall id :: id in table ==> table[id].eventId == id
  }

  predicate KeyedBlocks(blocks: map<nat, Header>) {
    forall n :: n in blocks ==> blocks[n].number == n
  }

  /** The rows of a table, each once, in no particular order. */
  predicate Lists(rows: seq<PoolEvent>, table: EventTable) {
    && (forall e :: e in rows ==> e.eventId in table && table[e.eventId] == e)
    && (forall id :: id in table ==> table[id] in rows)
    && DistinctIds(rows)
  }

  predicate ListsBlocks(headers: seq<Header>, blocks: map<nat, Header>) {
    && (forall h :: h in headers ==> h.number in blocks && blocks[h.number] == h)
    && (forall n :: n in blocks ==> blocks[n] in headers)
  }

  /** Blocks a snapshot refers to: those of its events, the source, the cursor and the cursor's parent. */
  predicate Mentioned(db: Db, n: nat) {
    || (exists id :: id in db.events && db.events[id].block == n)
    || (exists id :: id in db.withdrawals && db.withdrawals[id].block == n)
    || (db.state.source.Some? && n == db.state.source.value.at.block)
    || (db.state.cursor.Some? && (n == db.state.cursor.value.block || n + 1 == db.state.cursor.value.block))
  }

  function NewestBlockFirst(): (Header, Header) -> bool {
    (x: Header, y: Header) => x.number >= y.number
  }

  function IsDeposit(): PoolEvent -> bool {
    (e: PoolEvent) => e.detail.Deposit?
  }

  function IsWithdrawal(): PoolEvent -> bool {
    (e: PoolEvent) => e.detail.Withdrawal?
  }

  function IsRegistration(): PoolEvent -> bool {
    (e: PoolEvent) => e.detail.Registration?
  }

  function NotDeposit(): PoolEvent -> bool {
    (e: PoolEvent) => !e.detail.Deposit?
  }

  /** At most so many retained headers, from the highest block down; none left out is higher than any of them. */
  ghost predicate Highest(recent: seq<Header>, blocks: map<nat, Header>, maximum: nat) {
    && |recent| <= maximum
    && (forall h :: h in recent ==> h.number in blocks && blocks[h.number] == h)
    && (forall i, j :: 0 <= i < j < |recent| ==> recent[i].number >= recent[j].number)
    && (forall n :: n in blocks && blocks[n] !in recent ==>
          |recent| == maximum && forall h :: h in recent ==> h.number >= n)
  }

  lemma HighestFacts(recent: seq<Header>, blocks: map<nat, Header>, maximum: nat)
    requires Highest(recent, blocks, maximum)
    ensures forall h :: h in recent ==> h.number in blocks && blocks[h.number] == h
    ensures forall i, j :: 0 <= i < j < |recent| ==> recent[i].number >= recent[j].number
  {
  }

  method ListRows(table: EventTable) returns (rows: seq<PoolEvent>)
    requires Keyed(table)
    ensures Lists(rows, table)
  {
    rows := [];
    var pending := table.Keys;
    while pending != {}
      invariant pending <= table.Keys
      invariant forall e :: e in rows ==> e.eventId in table && e.eventId !in pending && table[e.eventId] == e
      invariant forall id :: id in table && id !in pending ==> table[id] in rows
      invariant forall i, j :: 0 <= i < j < |rows| ==> rows[i].eventId != rows[j].eventId
      decreases |pending|
    {
      var id :| id in pending;
      rows := rows + [table[id]];
      pending := pending - {id};
    }
  }

  method ListBlocks(blocks: map<nat, Header>) returns (headers: seq<Header>)
    requires KeyedBlocks(blocks)
    ensures ListsBlocks(headers, blocks)
  {
    headers := [];
    var pending := blocks.Keys;
    while pending != {}
      invariant pending <= blocks.Keys
      invariant forall h :: h in headers ==> h.number in blocks && blocks[h.number] == h
      invariant forall n :: n in blocks && n !in pending ==> blocks[n] in headers
      decreases |pending|
    {
      var n :| n in pending;
      headers := headers + [blocks[n]];
      pending := pending - {n};
    }
  }

  // ----- the store

  class CanonicalStore {
    const cfg: Config
    const digest: Tree -> nat
    var modelVersion: ModelVersion
    var blocks: map<nat, Header>
    var events: EventTable
    var withdrawals: EventTable
    var snapshots: seq<SnapshotRow>
    var state: State
    // How often the tables have been cleared for a replay.
    ghost var resets: nat

    function Tables(): Db
      reads this
    {
      Db(blocks, events, withdrawals, snapshots, state)
    }

    /** Opens a database, replaying it from scratch when it was written under another model. */
    constructor (cfg: Config, digest: Tree -> nat, persisted: Option<Db>, model: ModelVersion)
      ensures this.cfg == cfg && this.digest == digest && modelVersion == model
      ensures Tables() == if persisted.None? then Fresh(model) else EnsureModelVersion(persisted.value, model)
    {
      this.cfg, this.digest, modelVersion := cfg, digest, model;
      resets := 0;
      var db := if persisted.None? then Fresh(model) else persisted.value;
      blocks, events, withdrawals, snapshots, state := db.blocks, db.events, db.withdrawals, db.snapshots, db.state;
      new;
      if state.model != model {
        Reset();
      }
    }

    method Reset()
      modifies this
      ensures Tables() == ResetForReplay(old(Tables()), modelVersion)
      ensures modelVersion == old(modelVersion) && resets == old(resets) + 1
    {
      resets := resets + 1;
      blocks, events, withdrawals, snapshots := map[], map[], map[], [];
      state := State(Empty, modelVersion, None, None, None, state.lastError);
    }

    method EnsureModel(model: ModelVersion)
      modifies this
      ensures Tables() == EnsureModelVersion(old(Tables()), model) && modelVersion == model
      ensures resets == old(resets) + if old(state.model) == model then 0 else 1
    {
      modelVersion := model;
      if state.model != model {
        Reset();
      }
    }

    method SetState(status: Status, code: Option<Code>)
      modifies this
      ensures Tables() == SetStatus(old(Tables()), status, code)
      ensures modelVersion == old(modelVersion) && resets == old(resets)
    {
      var retain := status == Complete || status == Syncing || (status == Failed && IsTransient(code));
      if code.None? {
        state := state.(status := status, active := if retain then state.active else None);
      } else {
        state := state.(status := status, active := if retain then state.active else None, lastError := code);
      }
    }

    method UpsertHeaders(headers: seq<Header>) returns (r: Result<map<nat, Header>, Code>)
      ensures r == UpsertAll(blocks, headers)
    {
      var upserted := blocks;
      for k := 0 to |headers|
        invariant UpsertAll(blocks, headers[..k]) == Ok(upserted)
      {
        var h := headers[k];
        assert headers[..k + 1][..k] == headers[..k];
        if h.number in upserted {
          if upserted[h.number] != h {
            UpsertFails(blocks, headers, k);
            return Err(InconsistentBlockData);
          }
        } else {
          upserted := upserted[h.number := h];
        }
      }
      assert headers[..|headers|] == headers;
      return Ok(upserted);
    }

    method Retain(headers: seq<Header>) returns (o: Outcome<Code>)
      modifies this
      ensures RetainHeaders(old(Tables()), headers) == if o.Pass? then Ok(Tables()) else Err(o.error)
      ensures o.Fail? ==> Tables() == old(Tables())
      ensures modelVersion == old(modelVersion) && resets == old(resets)
    {
      var upserted := UpsertHeaders(headers);
      if upserted.Err? {
        return Fail(upserted.error);
      }
      blocks := upserted.value;
      return Pass;
    }

    method Commit(batch: Batch) returns (o: Outcome<Code>)
      modifies this
      ensures CommitBatch(old(Tables()), batch) == if o.Pass? then Ok(Tables()) else Err(o.error)
      ensures o.Fail? ==> Tables() == old(Tables())
      ensures modelVersion == old(modelVersion) && resets == old(resets)
    {
      var upserted := UpsertHeaders(batch.headers);
      if upserted.Err? {
        return Fail(upserted.error);
      }
      var start := Tables().(blocks := upserted.value);
      var filled := start;
      for k := 0 to |batch.events|
        invariant InsertAll(start, batch.events[..k]) == Ok(filled)
      {
        assert batch.events[..k + 1][..k] == batch.events[..k];
        var inserted := InsertEvent(filled, batch.events[k]);
        if inserted.Err? {
          InsertFails(start, batch.events, k);
          return Fail(inserted.error);
        }
        filled := inserted.value;
      }
      assert batch.events[..|batch.events|] == batch.events;
      blocks, events, withdrawals := filled.blocks, filled.events, filled.withdrawals;
      state := state.(status := Syncing, cursor := Some(PointOf(batch.through)));
      InsertKeepsRest(start, batch.events);
      return Pass;
    }

    method SetSource(source: Source)
      modifies this
      ensures Tables() == InitializeSource(old(Tables()), source)
      ensures modelVersion == old(modelVersion) && resets == old(resets)
    {
      state := state.(source := Some(source));
    }

    method Rollback(block: nat) returns (o: Outcome<Code>)
      modifies this
      ensures RollbackTo(old(Tables()), block) == if o.Pass? then Ok(Tables()) else Err(o.error)
      ensures o.Fail? ==> Tables() == old(Tables())
      ensures modelVersion == old(modelVersion) && resets == old(resets)
    {
      if block !in blocks {
        return Fail(IndexCorrupt);
      }
      var header := blocks[block];
      snapshots := Filter(snapshots, ObservedBy(block));
      blocks := map n | n in blocks && n <= block :: blocks[n];
      events, withdrawals := Cascade(events, blocks), Cascade(withdrawals, blocks);
      state := state.(status := Syncing, cursor := Some(PointOf(header)), active := None);
      return Pass;
    }

    /** Retained headers from the highest block down, at most so many. */
    method RecentHeadersDescending(maximum: nat) returns (recent: seq<Header>)
      requires KeyedBlocks(blocks)
      ensures Highest(recent, blocks, maximum)
    {
      var headers := ListBlocks(blocks);
      var sorted := Sort(NewestBlockFirst(), headers);
      recent := Take(sorted, maximum);
      SortSorted(NewestBlockFirst(), headers);
      SortMembers(NewestBlockFirst(), headers);
      TakeIsTop(sorted, maximum);
      forall i, j | 0 <= i < j < |recent| ensures recent[i].number >= recent[j].number {
        assert NewestBlockFirst()(sorted[i], sorted[j]);
      }
    }

    method LoadObservations()
      returns (deposits: seq<PoolEvent>, withdrawn: seq<PoolEvent>, registrations: seq<PoolEvent>)
      requires Keyed(events) && Keyed(withdrawals)
      ensures Lists(deposits + registrations, events) && Lists(withdrawn, withdrawals)
      ensures forall e :: e in deposits ==> e.detail.Deposit?
      ensures forall e :: e in registrations ==> !e.detail.Deposit?
    {
      var rows := ListRows(events);
      deposits, registrations := Filter(rows, IsDeposit()), Filter(rows, NotDeposit());
      SplitLists(rows, events);
      withdrawn := ListRows(withdrawals);
    }

    method BlockReferences(extra: seq<Header>) returns (r: Result<seq<Header>, Code>)
      requires KeyedBlocks(blocks)
      ensures r.Ok? ==> DistinctBlocks(r.value) && Ascending(r.value)
      ensures r.Ok? ==> forall h :: h in r.value <==>
                h in extra || (h.number in blocks && blocks[h.number] == h && Mentioned(Tables(), h.number))
      ensures r.Err? ==> r.error == InconsistentBlockData
    {
      var mentioned := map n | n in blocks && Mentioned(Tables(), n) :: blocks[n];
      var stored := ListBlocks(mentioned);
      forall h ensures h in stored <==> h.number in blocks && blocks[h.number] == h && Mentioned(Tables(), h.number) {
        assert h.number in mentioned ==> mentioned[h.number] in stored;
      }
      var ok, table, ordered := UniqueHeaders(stored + extra);
      if !ok {
        return Err(InconsistentBlockData);
      }
      return Ok(ordered);
    }

    method Persist(s: PublicSnapshot, now: int) returns (hash: nat)
      modifies this
      ensures hash == RowFor(cfg, digest, s, now).hash
      ensures Tables() == PersistSnapshot(old(Tables()), RowFor(cfg, digest, s, now))
      ensures modelVersion == old(modelVersion) && resets == old(resets)
    {
      hide Filter, Sort, Take, RowFor;
      var row := RowFor(cfg, digest, s, now);
      var others := Sort(NewestFirst(), Filter(snapshots, OtherThan(row.hash)));
      snapshots := [row] + Take(others, MAX_SNAPSHOT_HISTORY - 1);
      state := state.(status := Complete, active := Some(row.hash));
      hash := row.hash;
    }
  }

  lemma TakeIsTop(sorted: seq<Header>, maximum: nat)
    requires Sorted(NewestBlockFirst(), sorted)
    ensures forall h :: h in sorted && h !in Take(sorted, maximum) ==>
              |Take(sorted, maximum)| == maximum && forall k :: k in Take(sorted, maximum) ==> k.number >= h.number
  {
    var top := Take(sorted, maximum);
    forall h | h in sorted && h !in top
      ensures |top| == maximum && forall k :: k in top ==> k.number >= h.number
    {
      var j :| 0 <= j < |sorted| && sorted[j] == h;
      assert j >= |top|;
      forall k | k in top ensures k.number >= h.number {
        var i :| 0 <= i < |top| && top[i] == k;
        assert NewestBlockFirst()(sorted[i], sorted[j]);
      }
    }
  }

  lemma {:induction false} FilterDistinctIds(rows: seq<PoolEvent>, p: PoolEvent -> bool)
    requires DistinctIds(rows)
    ensures DistinctIds(Filter(rows, p))
  {
    if rows != [] {
      FilterDistinctIds(rows[1..], p);
      assert forall e :: e in Filter(rows[1..], p) ==> e in rows[1..];
      assert forall e :: e in rows[1..] ==> e.eventId != rows[0].eventId;
    }
  }

  lemma SplitLists(rows: seq<PoolEvent>, table: EventTable)
    requires Lists(rows, table)
    ensures Lists(Filter(rows, IsDeposit()) + Filter(rows, NotDeposit()), table)
  {
    var deposits, others := Filter(rows, IsDeposit()), Filter(rows, NotDeposit());
    assert DistinctIds(rows);
    FilterDistinctIds(rows, IsDeposit());
    FilterDistinctIds(rows, NotDeposit());
    forall i, j | 0 <= i < |deposits| && 0 <= j < |others| ensures deposits[i].eventId != others[j].eventId {
      assert deposits[i] in deposits && others[j] in others;
    }
  }

  lemma {:induction false} UpsertFails(blocks: map<nat, Header>, headers: seq<Header>, k: nat)
    requires k < |headers| && UpsertAll(blocks, headers[..k + 1]).Err?
    ensures UpsertAll(blocks, headers) == Err(InconsistentBlockData)
    decreases |headers|
  {
    if k + 1 < |headers| {
      assert headers[..|headers| - 1][..k + 1] == headers[..k + 1];
      UpsertFails(blocks, headers[..|headers| - 1], k);
    } else {
      assert headers[..k + 1] == headers;
      UpsertErrorCode(blocks, headers);
    }
  }

  lemma {:induction false} UpsertErrorCode(blocks: map<nat, Header>, headers: seq<Header>)
    ensures UpsertAll(blocks, headers).Err? ==> UpsertAll(blocks, headers).error == InconsistentBlockData
  {
    if headers != [] {
      UpsertErrorCode(blocks, headers[..|headers| - 1]);
    }
  }

  lemma {:induction false} InsertFails(db: Db, events: seq<PoolEvent>, k: nat)
    requires k < |events| && InsertAll(db, events[..k + 1]).Err?
    ensures InsertAll(db, events) == InsertAll(db, events[..k + 1])
    decreases |events|
  {
    if k + 1 < |events| {
      assert events[..|events| - 1][..k + 1] == events[..k + 1];
      InsertFails(db, events[..|events| - 1], k);
    } else {
      assert events[..k + 1] == events;
    }
  }

  lemma {:induction false} InsertKeepsRest(db: Db, events: seq<PoolEvent>)
    requires InsertAll(db, events).Ok?
    ensures var filled := InsertAll(db, events).value;
            filled.blocks == db.blocks && filled.snapshots == db.snapshots && filled.state == db.state
  {
    if events != [] {
      InsertKeepsRest(db, events[..|events| - 1]);
    }
  }
}
