/** A published index is the from-scratch index of the live chain, and its snapshot shows exactly that. */
module Refinement {

  import opened Wrappers
  import opened EngineTypes
  import opened Sequences
  import opened Chain
  import opened PoolEvents
  import opened Index
  import opened Snapshots
  import opened Freshness
  import opened Store
  import opened IndexedStore
  import opened Publication

  /** Rows leave no freedom to the table that holds them. */
  lemma TableDetermined(a: EventTable, b: EventTable, rows: seq<PoolEvent>, withdrawals: bool)
    requires TableHolds(a, rows, withdrawals) && TableHolds(b, rows, withdrawals)
    ensures a == b
  {
    assert forall id :: id in a ==> id in b && b[id] == a[id];
    assert forall id :: id in b ==> id in a;
  }

  // ----- the from-scratch index

  /** An empty index under a chosen source, as a reset followed by the choice of a source leaves it. */
  function Blank(model: ModelVersion, source: Source): Db {
    Db(map[], map[], map[], [], State(Syncing, model, Some(source), None, None, None))
  }

  /** All of the range in one batch. */
  function WholeBatch(cfg: Config, model: ModelVersion, chain: seq<Body>, from: nat, through: nat): Batch
    requires through < |chain|
  {
    Batch(HeaderAt(chain, through), HeadersOf(chain, from, through + 1), IndexOf(cfg, model, chain, from, through + 1))
  }

  function HeadersOf(chain: seq<Body>, from: nat, end: nat): (headers: seq<Header>)
    requires end <= |chain|
    ensures forall h :: h in headers <==> from <= h.number < end && h == HeaderAt(chain, h.number)
  {
    if end <= from then [] else HeadersOf(chain, from, end - 1) + [HeaderAt(chain, end - 1)]
  }

  function HeaderTable(chain: seq<Body>, from: nat, end: nat): map<nat, Header>
    requires end <= |chain|
  {
    map n | from <= n < end :: HeaderAt(chain, n)
  }

  lemma HeaderTableSnoc(chain: seq<Body>, from: nat, end: nat)
    requires from < end <= |chain|
    ensures UpsertHeader(HeaderTable(chain, from, end - 1), HeaderAt(chain, end - 1))
            == Ok(HeaderTable(chain, from, end))
  {
    var before, last := HeaderTable(chain, from, end - 1), HeaderAt(chain, end - 1);
    assert last.number == end - 1 && end - 1 !in before;
    assert before[end - 1 := last] == HeaderTable(chain, from, end);
  }

  lemma {:induction false} HeadersCommit(chain: seq<Body>, from: nat, end: nat)
    requires end <= |chain|
    ensures UpsertAll(map[], HeadersOf(chain, from, end)) == Ok(HeaderTable(chain, from, end))
  {
    if from < end {
      hide HeaderTable, UpsertHeader;
      var headers := HeadersOf(chain, from, end);
      HeadersCommit(chain, from, end - 1);
      HeaderTableSnoc(chain, from, end);
      assert headers[..|headers| - 1] == HeadersOf(chain, from, end - 1);
    }
  }

  predicate KnowsOnly(db: Db, rows: seq<PoolEvent>) {
    && (forall id :: id in db.events ==> db.events[id] in rows && db.events[id].eventId == id)
    && (forall id :: id in db.withdrawals ==> db.withdrawals[id] in rows && db.withdrawals[id].eventId == id)
  }

  lemma KnowsOneMore(db: Db, rows: seq<PoolEvent>, e: PoolEvent)
    requires KnowsOnly(db, rows) && e.block in db.blocks
    requires forall r :: r in rows ==> r.eventId != e.eventId
    ensures InsertEvent(db, e).Ok? && InsertEvent(db, e).value.blocks == db.blocks
    ensures KnowsOnly(InsertEvent(db, e).value, rows + [e])
  {
    assert forall r :: r in rows + [e] <==> r in rows || r == e;
  }

  lemma {:induction false} RowsCommit(db: Db, rows: seq<PoolEvent>)
    requires db.events == map[] && db.withdrawals == map[] && DistinctIds(rows)
    requires forall r :: r in rows ==> r.block in db.blocks
    ensures InsertAll(db, rows).Ok? && InsertAll(db, rows).value.blocks == db.blocks
    ensures KnowsOnly(InsertAll(db, rows).value, rows)
  {
    if rows != [] {
      hide InsertEvent, KnowsOnly;
      var init, last := rows[..|rows| - 1], rows[|rows| - 1];
      assert rows == init + [last];
      RowsCommit(db, init);
      KnowsOneMore(InsertAll(db, init).value, init, last);
    }
  }

  /** A clean range always commits: the from-scratch index exists. */
  lemma ScratchCommits(cfg: Config, model: ModelVersion, chain: seq<Body>, source: Source, through: nat)
    requires through < |chain| && Clean(cfg, model, chain, source.at.block, through + 1)
    ensures CommitBatch(Blank(model, source), WholeBatch(cfg, model, chain, source.at.block, through)).Ok?
  {
    hide Clean, IndexOf;
    var from, end := source.at.block, through + 1;
    var rows := IndexOf(cfg, model, chain, from, end);
    HeadersCommit(chain, from, end);
    IndexIdentities(cfg, model, chain, from, end);
    var blocks := HeaderTable(chain, from, end);
    forall r | r in rows ensures r.block in blocks {
      IndexRow(cfg, model, chain, from, end, r);
    }
    RowsCommit(Blank(model, source).(blocks := blocks), rows);
  }

  function FromScratchIndex(cfg: Config, model: ModelVersion, chain: seq<Body>, source: Source, through: nat): (db: Db)
    requires through < |chain| && Clean(cfg, model, chain, source.at.block, through + 1)
  {
    ScratchCommits(cfg, model, chain, source, through);
    CommitBatch(Blank(model, source), WholeBatch(cfg, model, chain, source.at.block, through)).value
  }

  lemma WholeBatchCovers(cfg: Config, model: ModelVersion, chain: seq<Body>, from: nat, through: nat)
    requires from <= through < |chain| && Clean(cfg, model, chain, from, through + 1)
    ensures BatchOf(WholeBatch(cfg, model, chain, from, through), cfg, model, chain, from)
  {
    hide Clean, IndexOf, HeadersOf;
    RowsBetween(cfg, model, chain, from, through + 1);
  }

  lemma ScratchHolds(cfg: Config, model: ModelVersion, chain: seq<Body>, source: Source, through: nat)
    requires source.at.block <= through < |chain| && Clean(cfg, model, chain, source.at.block, through + 1)
    ensures var db := FromScratchIndex(cfg, model, chain, source, through);
            && Holds(db, IndexOf(cfg, model, chain, source.at.block, through + 1))
            && db.state == State(Syncing, model, Some(source), Some(PointOf(HeaderAt(chain, through))), None, None)
            && db.blocks == HeaderTable(chain, source.at.block, through + 1)
  {
    hide Clean, IndexOf, CommitBatch, HeadersOf, HeaderTable;
    HeadersCommit(chain, source.at.block, through + 1);
    ScratchCommits(cfg, model, chain, source, through);
    var batch := WholeBatch(cfg, model, chain, source.at.block, through);
    CommittedRows(Blank(model, source), batch, FromScratchIndex(cfg, model, chain, source, through), []);
    assert [] + batch.events == batch.events;
  }

  /** The events, the ordinals in them and the cursor are those of the from-scratch index over the same range. */
  ghost predicate IsFromScratch(db: Db, cfg: Config, chain: seq<Body>) {
    && db.state.cursor.Some? && db.state.source.Some?
    && var source, through := db.state.source.value, db.state.cursor.value.block;
    && source.at.block <= through < |chain| && Clean(cfg, db.state.model, chain, source.at.block, through + 1)
    && var scratch := FromScratchIndex(cfg, db.state.model, chain, source, through);
    && scratch.events == db.events && scratch.withdrawals == db.withdrawals && scratch.state.cursor == db.state.cursor
  }

  /**
   Whatever syncs, failures, forks and replays produced these tables, one single batch over the same range of
   the live chain, committed to an empty index, gives the same events, the same ordinals and the same cursor.
   */
  lemma IncrementalEqualsFromScratch(db: Db, cfg: Config, chain: seq<Body>)
    requires ValidConfig(cfg) && Anchored(db, cfg) && db.state.cursor.Some? && CursorOn(db, chain)
    requires SourceRetained(db) && NoRowBelow(db, db.state.source.value.at.block)
    ensures IsFromScratch(db, cfg, chain)
  {
    hide TableHolds, Anchored, NoRowBelow, IndexOf, Clean, FromScratchIndex, ValidConfig, HeaderTable;
    SourceHeader(db, cfg, chain);
    CursorHeader(db, cfg, chain);
    FromScratch(db, cfg, chain);
    var source, through, model := db.state.source.value, db.state.cursor.value.block, db.state.model;
    ScratchHolds(cfg, model, chain, source, through);
    var rows := IndexOf(cfg, model, chain, source.at.block, through + 1);
    var scratch := FromScratchIndex(cfg, model, chain, source, through);
    TableDetermined(scratch.events, db.events, rows, false);
    TableDetermined(scratch.withdrawals, db.withdrawals, rows, true);
  }

  // ----- the snapshot shows the index

  /** The lists of the snapshot are the index, kind by kind, in some order. */
  ghost predicate Shows(s: PublicSnapshot, rows: seq<PoolEvent>) {
    && multiset(s.depositObservations) == multiset(Filter(rows, IsDeposit()))
    && multiset(OrEmpty(s.withdrawalObservations)) == multiset(Filter(rows, IsWithdrawal()))
    && multiset(s.registrationObservations) == multiset(Filter(rows, IsRegistration()))
  }

  lemma ListIsFiltered(list: seq<PoolEvent>, rows: seq<PoolEvent>, kind: PoolEvent -> bool)
    requires DistinctIds(list) && DistinctIds(rows)
    requires forall e :: e in list <==> e in rows && kind(e)
    ensures multiset(list) == multiset(Filter(rows, kind))
  {
    FilterDistinctIds(rows, kind);
    DistinctSame(list, Filter(rows, kind));
  }

  lemma HeldRows(db: Db, rows: seq<PoolEvent>, e: PoolEvent)
    requires Holds(db, rows)
    ensures e in rows <==> if e.detail.Withdrawal? then e.eventId in db.withdrawals && db.withdrawals[e.eventId] == e
                           else e.eventId in db.events && db.events[e.eventId] == e
  {
  }

  lemma CarriedIsHeld(s: PublicSnapshot, db: Db, cfg: Config, rows: seq<PoolEvent>)
    requires ValidConfig(cfg) && Anchored(db, cfg) && Carries(s, db) && Holds(db, rows)
    ensures forall e :: e in AllObservations(s) <==> e in rows
  {
    hide Holds, Anchored, Carries, ValidConfig;
    CarriedRows(s, db, cfg);
    forall e ensures e in AllObservations(s) <==> e in rows {
      HeldRows(db, rows, e);
    }
  }

  lemma KindsOfAll(s: PublicSnapshot)
    requires WellKinded(s)
    ensures forall e :: e in s.depositObservations <==> e in AllObservations(s) && e.detail.Deposit?
    ensures forall e :: e in s.registrationObservations <==> e in AllObservations(s) && e.detail.Registration?
    ensures forall e :: e in OrEmpty(s.withdrawalObservations) <==> e in AllObservations(s) && e.detail.Withdrawal?
  {
  }

  lemma DistinctParts(s: PublicSnapshot)
    requires DistinctIds(AllObservations(s))
    ensures DistinctIds(s.depositObservations) && DistinctIds(s.registrationObservations)
    ensures DistinctIds(OrEmpty(s.withdrawalObservations))
  {
    var d, r, w := s.depositObservations, s.registrationObservations, OrEmpty(s.withdrawalObservations);
    assert forall i :: 0 <= i < |d| ==> AllObservations(s)[i] == d[i];
    assert forall i :: 0 <= i < |r| ==> AllObservations(s)[|d| + i] == r[i];
    assert forall i :: 0 <= i < |w| ==> AllObservations(s)[|d| + |r| + i] == w[i];
  }

  /** The assembled snapshot shows the from-scratch index of the live chain, from its source to its cursor. */
  lemma SnapshotShowsIndex(s: PublicSnapshot, db: Db, cfg: Config, chain: seq<Body>, head: nat)
    requires ValidConfig(cfg) && Anchored(db, cfg) && Assembled(s, db, cfg, chain, head)
    requires NoRowBelow(db, db.state.source.value.at.block)
    ensures var from, end := s.facts.sourceFrom.block, s.facts.observed.block + 1;
            end <= |chain| && Shows(s, IndexOf(cfg, db.state.model, chain, from, end))
  {
    hide Holds, Anchored, NoRowBelow, ValidConfig, Carries, Refers, SourceRetained;
    SourceHeader(db, cfg, chain);
    FromScratch(db, cfg, chain);
    var from, end := s.facts.sourceFrom.block, s.facts.observed.block + 1;
    IndexIdentities(cfg, db.state.model, chain, from, end);
    RowsShown(s, db, cfg, IndexOf(cfg, db.state.model, chain, from, end));
  }

  lemma RowsShown(s: PublicSnapshot, db: Db, cfg: Config, rows: seq<PoolEvent>)
    requires ValidConfig(cfg) && Anchored(db, cfg) && Carries(s, db) && Holds(db, rows) && DistinctIds(rows)
    ensures Shows(s, rows)
  {
    hide Holds, Anchored, ValidConfig;
    AssembledDistinct(s, db, rows);
    CarriedIsHeld(s, db, cfg, rows);
    KindsOfAll(s);
    DistinctParts(s);
    ListIsFiltered(s.depositObservations, rows, IsDeposit());
    ListIsFiltered(s.registrationObservations, rows, IsRegistration());
    ListIsFiltered(OrEmpty(s.withdrawalObservations), rows, IsWithdrawal());
  }

  /** Reading the snapshot back in canonical form shows the same rows. */
  lemma CanonicalShows(cfg: Config, s: PublicSnapshot, rows: seq<PoolEvent>)
    requires Shows(s, rows)
    ensures Shows(Canonical(cfg, s), rows)
  {
  }

  // ----- a from-scratch index can always be published

  function Referring(db: Db, chain: seq<Body>, head: nat): Header -> bool
    requires db.state.cursor.Some? && 0 < db.state.cursor.value.block < |chain| && 0 < head < |chain|
  {
    (h: Header) => IsReference(h, db, chain, head)
  }

  /** The snapshot of a from-scratch index, each list in index order. */
  function SnapshotOf(db: Db, cfg: Config, chain: seq<Body>, head: nat, rows: seq<PoolEvent>): PublicSnapshot
    requires db.state.cursor.Some? && db.state.source.Some?
    requires 0 < db.state.cursor.value.block < |chain| && 0 < head < |chain|
  {
    PublicSnapshot(
      FactsFrom(db, cfg, chain, head), ExpectedSelectors(cfg, db.state.model),
      Filter(HeadersOf(chain, 0, head + 1), Referring(db, chain, head)),
      Filter(rows, IsDeposit()), if db.state.model == V14 then Some(Filter(rows, IsWithdrawal())) else None,
      Filter(rows, IsRegistration()))
  }

  lemma FilteredLists(rows: seq<PoolEvent>, table: EventTable, list: seq<PoolEvent>, withdrawals: bool)
    requires TableHolds(table, rows, withdrawals) && DistinctIds(rows) && DistinctIds(list)
    requires forall e :: e in list <==> e in rows && e.detail.Withdrawal? == withdrawals
    ensures Lists(list, table)
  {
  }

  lemma KindsListed(rows: seq<PoolEvent>)
    requires DistinctIds(rows)
    ensures DistinctIds(Filter(rows, IsDeposit()) + Filter(rows, IsRegistration()))
    ensures DistinctIds(Filter(rows, IsWithdrawal()))
  {
    var deposits, registrations := Filter(rows, IsDeposit()), Filter(rows, IsRegistration());
    FilterDistinctIds(rows, IsDeposit());
    FilterDistinctIds(rows, IsRegistration());
    FilterDistinctIds(rows, IsWithdrawal());
    forall i, j | 0 <= i < |deposits| && 0 <= j < |registrations|
      ensures deposits[i].eventId != registrations[j].eventId
    {
      assert deposits[i] in deposits && registrations[j] in registrations;
      assert deposits[i] in rows && registrations[j] in rows && deposits[i] != registrations[j];
    }
  }

  lemma {:induction false} HeadersAreDistinct(chain: seq<Body>, from: nat, end: nat)
    requires end <= |chain|
    ensures forall i, j :: 0 <= i < j < |HeadersOf(chain, from, end)| ==>
              HeadersOf(chain, from, end)[i] != HeadersOf(chain, from, end)[j]
  {
    if from < end {
      HeadersAreDistinct(chain, from, end - 1);
      var init := HeadersOf(chain, from, end - 1);
      forall i | 0 <= i < |init| ensures init[i] != HeaderAt(chain, end - 1) {
        assert init[i] in init;
      }
    }
  }

  /** Every reference is a header of the chain up to the head. */
  lemma ReferencesOnChain(db: Db, cfg: Config, chain: seq<Body>, head: nat)
    requires Anchored(db, cfg) && db.state.cursor.Some? && CursorOn(db, chain)
    requires 0 < db.state.cursor.value.block <= head < |chain|
    ensures forall h :: IsReference(h, db, chain, head) ==> h in HeadersOf(chain, 0, head + 1)
  {
    hide Anchored, Mentioned, HeadersOf;
    CursorHeader(db, cfg, chain);
  }

  lemma ScratchRefers(db: Db, cfg: Config, chain: seq<Body>, head: nat)
    requires Anchored(db, cfg) && db.state.cursor.Some? && CursorOn(db, chain)
    requires 0 < db.state.cursor.value.block <= head < |chain|
    ensures Refers(Filter(HeadersOf(chain, 0, head + 1), Referring(db, chain, head)), db, chain, head)
  {
    hide Anchored, IsReference, HeadersOf, Filter, CursorOn;
    ReferencesOnChain(db, cfg, chain, head);
    HeadersAreDistinct(chain, 0, head + 1);
    FilterDistinct(HeadersOf(chain, 0, head + 1), Referring(db, chain, head));
  }

  lemma ScratchCarries(db: Db, cfg: Config, chain: seq<Body>, head: nat, rows: seq<PoolEvent>)
    requires db.state.cursor.Some? && db.state.source.Some?
    requires 0 < db.state.cursor.value.block < |chain| && 0 < head < |chain|
    requires Holds(db, rows) && DistinctIds(rows)
    ensures Carries(SnapshotOf(db, cfg, chain, head, rows), db)
  {
    hide Lists, TableHolds, Filter;
    KindsListed(rows);
    var shown := Filter(rows, IsDeposit()) + Filter(rows, IsRegistration());
    assert forall e :: e in shown <==> e in Filter(rows, IsDeposit()) || e in Filter(rows, IsRegistration());
    FilteredLists(rows, db.events, shown, false);
    FilteredLists(rows, db.withdrawals, Filter(rows, IsWithdrawal()), true);
  }

  /** The boundary the from-scratch index starts at: a block of the chain, early enough and not before deployment. */
  predicate GoodSource(source: Source, cfg: Config, chain: seq<Body>) {
    && source.at.block < |chain| && source.at == PointOf(HeaderAt(chain, source.at.block))
    && cfg.deploymentBlock <= source.at.block && source.at.timestamp <= source.required
  }

  /** The from-scratch index is anchored and shows nothing below its source. */
  lemma ScratchAnchored(cfg: Config, model: ModelVersion, chain: seq<Body>, source: Source, through: nat)
    requires ValidConfig(cfg) && GoodSource(source, cfg, chain) && source.at.block <= through < |chain|
    requires Clean(cfg, model, chain, source.at.block, through + 1)
    ensures var db := FromScratchIndex(cfg, model, chain, source, through);
            && Anchored(db, cfg) && CursorOn(db, chain) && SourceRetained(db) && NoRowBelow(db, source.at.block)
  {
    hide Clean, IndexOf, CommitBatch, HeadersOf, IndexedFrom;
    var blank, batch := Blank(model, source), WholeBatch(cfg, model, chain, source.at.block, through);
    ScratchCommits(cfg, model, chain, source, through);
    ScratchHolds(cfg, model, chain, source, through);
    WholeBatchCovers(cfg, model, chain, source.at.block, through);
    var db := FromScratchIndex(cfg, model, chain, source, through);
    CommitAnchored(blank, batch, db, cfg, chain, source.at.block);
    HeadersCommit(chain, source.at.block, through + 1);
    RowsBetween(cfg, model, chain, source.at.block, through + 1);
  }

  lemma ScratchAssembled(db: Db, cfg: Config, chain: seq<Body>, head: nat, rows: seq<PoolEvent>)
    requires Anchored(db, cfg) && db.state.cursor.Some? && CursorOn(db, chain) && SourceRetained(db)
    requires 0 < db.state.cursor.value.block <= head < |chain| && Holds(db, rows) && DistinctIds(rows)
    ensures Assembled(SnapshotOf(db, cfg, chain, head, rows), db, cfg, chain, head)
  {
    hide Anchored, Holds, DistinctIds, Carries, Refers, HeadersOf, Filter;
    ScratchCarries(db, cfg, chain, head, rows);
    ScratchRefers(db, cfg, chain, head);
  }

  /**
   For every monotone chain, every clean range of it and every good source, the from-scratch index has a snapshot
   that the validator finds sound at any time that the horizon allows.
   */
  lemma ScratchPublishes(cfg: Config, model: ModelVersion, chain: seq<Body>, source: Source, through: nat, head: nat,
                         time: int)
    requires ValidConfig(cfg) && Monotone(chain) && GoodSource(source, cfg, chain)
    requires source.at.block <= through <= head < |chain| && 0 < through
    requires Clean(cfg, model, chain, source.at.block, through + 1) && source.required <= time - OBSERVATION_SECONDS
    ensures var db := FromScratchIndex(cfg, model, chain, source, through);
            exists s :: Assembled(s, db, cfg, chain, head) && Structural(s, Evaluation(through, time), cfg)
  {
    hide Clean, IndexOf, FromScratchIndex, Anchored, NoRowBelow, Structural, Assembled, Holds, SourceRetained;
    ScratchHolds(cfg, model, chain, source, through);
    ScratchAnchored(cfg, model, chain, source, through);
    var db := FromScratchIndex(cfg, model, chain, source, through);
    var rows := IndexOf(cfg, model, chain, source.at.block, through + 1);
    IndexIdentities(cfg, model, chain, source.at.block, through + 1);
    var s := SnapshotOf(db, cfg, chain, head, rows);
    ScratchAssembled(db, cfg, chain, head, rows);
    ProducerMeetsValidator(s, db, cfg, chain, head, time);
  }

  // ----- the published text is fixed by the chain

  /** Two indexes over the same range of one chain, neither with an event below the source. */
  ghost predicate SameRange(a: Db, b: Db, cfg: Config, chain: seq<Body>) {
    && Anchored(a, cfg) && Anchored(b, cfg) && a.state.model == b.state.model
    && a.state.source == b.state.source && a.state.cursor == b.state.cursor && a.state.cursor.Some?
    && CursorOn(a, chain) && SourceRetained(a) && SourceRetained(b)
    && NoRowBelow(a, a.state.source.value.at.block) && NoRowBelow(b, b.state.source.value.at.block)
  }

  lemma SameTables(a: Db, b: Db, cfg: Config, chain: seq<Body>)
    requires ValidConfig(cfg) && SameRange(a, b, cfg, chain)
    ensures a.events == b.events && a.withdrawals == b.withdrawals
  {
    hide ValidConfig, Anchored, NoRowBelow, SourceRetained, FromScratchIndex, Clean;
    IncrementalEqualsFromScratch(a, cfg, chain);
    IncrementalEqualsFromScratch(b, cfg, chain);
  }

  lemma SameReference(a: Db, b: Db, cfg: Config, chain: seq<Body>, head: nat, h: Header)
    requires ValidConfig(cfg) && SameRange(a, b, cfg, chain)
    requires 0 < a.state.cursor.value.block <= head < |chain| && IsReference(h, a, chain, head)
    ensures IsReference(h, b, chain, head)
  {
    hide Anchored, NoRowBelow;
    SameTables(a, b, cfg, chain);
    CursorHeader(a, cfg, chain);
    CursorHeader(b, cfg, chain);
    RowsAreReferenced(b, cfg);
    var c := a.state.cursor.value.block;
    if h !in BoundaryOf(a, chain, head) {
      assert h.number + 1 == c ==> h == BoundaryOf(a, chain, head)[0];
    }
  }

  lemma SameReferences(a: Db, b: Db, cfg: Config, chain: seq<Body>, head: nat, x: seq<Header>, y: seq<Header>)
    requires ValidConfig(cfg) && SameRange(a, b, cfg, chain) && 0 < a.state.cursor.value.block <= head < |chain|
    requires Refers(x, a, chain, head) && Refers(y, b, chain, head)
    ensures multiset(x) == multiset(y)
  {
    hide Anchored, NoRowBelow, SourceRetained, ValidConfig, IsReference;
    forall h ensures h in x <==> h in y {
      if IsReference(h, a, chain, head) {
        SameReference(a, b, cfg, chain, head, h);
      }
      if IsReference(h, b, chain, head) {
        SameReference(b, a, cfg, chain, head, h);
      }
    }
    DistinctSame(x, y);
  }

  lemma ShownAreDistinct(s: PublicSnapshot, db: Db, cfg: Config, chain: seq<Body>, head: nat)
    requires ValidConfig(cfg) && Anchored(db, cfg) && Assembled(s, db, cfg, chain, head)
    requires NoRowBelow(db, db.state.source.value.at.block)
    ensures DistinctEvents(s.depositObservations) && DistinctEvents(s.registrationObservations)
    ensures DistinctEvents(OrEmpty(s.withdrawalObservations))
  {
    hide Holds, Anchored, NoRowBelow, ValidConfig, Carries, Refers;
    AssembledObservations(s, db, cfg, chain, head);
    DistinctParts(s);
  }

  /**
   Whatever led to them, two indexes over the same range of one chain publish the same text, hence the same hash, when
   they see the same head. In particular an incremental index publishes what the from-scratch index publishes.
   */
  lemma SamePublication(a: Db, b: Db, cfg: Config, chain: seq<Body>, head: nat, x: PublicSnapshot, y: PublicSnapshot)
    requires ValidConfig(cfg) && Monotone(chain) && SameRange(a, b, cfg, chain)
    requires Assembled(x, a, cfg, chain, head) && Assembled(y, b, cfg, chain, head)
    ensures Canonical(cfg, x) == Canonical(cfg, y)
    ensures SnapshotJson.CanonicalJson(cfg, x) == SnapshotJson.CanonicalJson(cfg, y)
  {
    hide ValidConfig, Anchored, NoRowBelow, SourceRetained, Refers, IndexOf, Canonical;
    SnapshotShowsIndex(x, a, cfg, chain, head);
    SnapshotShowsIndex(y, b, cfg, chain, head);
    SameReferences(a, b, cfg, chain, head, x.blockReferences, y.blockReferences);
    ShownAreDistinct(x, a, cfg, chain, head);
    RefersToAll(x.blockReferences, a, cfg, chain, head);
    ChainReferences(x.blockReferences, chain);
    CanonicalForgetsOrder(cfg, x, y);
  }
}
