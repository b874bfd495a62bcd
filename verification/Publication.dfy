/** What the indexer publishes, and when its own validator accepts it. */
module Publication {

  import opened Wrappers
  import opened EngineTypes
  import opened Chain
  import opened PoolEvents
  import opened Index
  import opened Snapshots
  import opened SnapshotJson
  import opened Headers
  import opened Freshness
  import opened Store
  import opened IndexedStore

  function FactsFrom(db: Db, cfg: Config, chain: seq<Body>, head: nat): SnapshotFacts
    requires db.state.cursor.Some? && db.state.source.Some?
    requires 0 < db.state.cursor.value.block < |chain| && head < |chain|
  {
    var c, source := db.state.cursor.value, db.state.source.value;
    var parent, indexed := HeaderAt(chain, c.block - 1), HeaderAt(chain, c.block);
    SnapshotFacts(
      cfg.chainId, cfg.pool, cfg.classHash, cfg.abiVersion,
      PointOf(indexed), PointOf(indexed), PointOf(HeaderAt(chain, head)), source.at,
      source.required, source.at.timestamp <= source.required, true,
      parent.number, parent.hash, indexed.parent,
      db.state.model, POLICY_VERSION)
  }

  predicate OnChainHeader(h: Header, chain: seq<Body>) {
    h.number < |chain| && h == HeaderAt(chain, h.number)
  }

  /** The cursor, its parent, the visible head and its parent. */
  function BoundaryOf(db: Db, chain: seq<Body>, head: nat): seq<Header>
    requires db.state.cursor.Some? && 0 < db.state.cursor.value.block < |chain| && 0 < head < |chain|
  {
    var c := db.state.cursor.value.block;
    [HeaderAt(chain, c - 1), HeaderAt(chain, c), HeaderAt(chain, head - 1), HeaderAt(chain, head)]
  }

  predicate IsReference(h: Header, db: Db, chain: seq<Body>, head: nat)
    requires db.state.cursor.Some? && 0 < db.state.cursor.value.block < |chain| && 0 < head < |chain|
  {
    || h in BoundaryOf(db, chain, head)
    || (h.number in db.blocks && db.blocks[h.number] == h && Mentioned(db, h.number))
  }

  /** The references are the boundary and the retained headers that are mentioned, each once, and no others. */
  ghost predicate Refers(references: seq<Header>, db: Db, chain: seq<Body>, head: nat)
    requires db.state.cursor.Some? && 0 < db.state.cursor.value.block < |chain| && 0 < head < |chain|
  {
    && (forall h :: h in references <==> IsReference(h, db, chain, head))
    && (forall i, j :: 0 <= i < j < |references| ==> references[i] != references[j])
  }

  predicate Carries(s: PublicSnapshot, db: Db) {
    && WellKinded(s)
    && Lists(s.depositObservations + s.registrationObservations, db.events)
    && (db.state.model == V13 ==> s.withdrawalObservations == None)
    && (db.state.model == V14 ==>
          s.withdrawalObservations.Some? && Lists(s.withdrawalObservations.value, db.withdrawals))
  }

  /** The source boundary is retained and lies at or below the cursor. */
  predicate SourceRetained(db: Db) {
    db.state.source.Some? &&
    var at := db.state.source.value.at;
    at.block in db.blocks && db.blocks[at.block].hash == at.hash
  }

  ghost predicate Assembled(s: PublicSnapshot, db: Db, cfg: Config, chain: seq<Body>, head: nat) {
    && db.state.cursor.Some? && CursorOn(db, chain) && SourceRetained(db)
    && 0 < db.state.cursor.value.block <= head < |chain|
    && s.facts == FactsFrom(db, cfg, chain, head)
    && s.queriedSelectors == ExpectedSelectors(cfg, db.state.model)
    && Refers(s.blockReferences, db, chain, head)
    && Carries(s, db)
  }

  // ----- references

  lemma ChainReferences(references: seq<Header>, chain: seq<Body>)
    requires Monotone(chain) && forall h :: h in references ==> OnChainHeader(h, chain)
    ensures DistinctBlocks(references) && LinkedReferences(references)
  {
    forall x, y | x in references && y in references && y.number == x.number + 1
      ensures y.parent == x.hash && x.timestamp <= y.timestamp
    {
      assert OnChainHeader(x, chain) && OnChainHeader(y, chain);
      Linked(chain, y.number);
      assert chain[x.number].timestamp <= chain[y.number].timestamp;
    }
  }

  /** The tip of the cursor's history, seen from the chain it lies on. */
  lemma CursorHeader(db: Db, cfg: Config, chain: seq<Body>)
    requires Anchored(db, cfg) && db.state.cursor.Some? && CursorOn(db, chain)
    ensures var c := db.state.cursor.value; c.block < |chain| && c == PointOf(HeaderAt(chain, c.block))
    ensures forall n :: n in db.blocks ==> n < |chain| && db.blocks[n] == HeaderAt(chain, n)
    ensures forall n :: n in db.blocks ==> n <= db.state.cursor.value.block
    ensures db.state.cursor.value.block in db.blocks
  {
    var c := db.state.cursor.value;
    var from: nat :| IndexedFrom(db, cfg, from);
    assert c.hash == chain[..c.block + 1];
    forall n | n in db.blocks ensures n < |chain| && db.blocks[n] == HeaderAt(chain, n) {
      HeaderOfPrefix(chain, |c.hash|, n);
    }
  }

  lemma SourceHeader(db: Db, cfg: Config, chain: seq<Body>)
    requires Anchored(db, cfg) && db.state.cursor.Some? && CursorOn(db, chain) && SourceRetained(db)
    ensures var at := db.state.source.value.at;
            at.block < |chain| && at == PointOf(HeaderAt(chain, at.block)) && at.block <= db.state.cursor.value.block
  {
    CursorHeader(db, cfg, chain);
    var at := db.state.source.value.at;
    assert at.hash == HeaderAt(chain, at.block).hash;
  }

  /** All references are headers of the chain, and every block that the snapshot speaks about has one. */
  lemma RefersToAll(references: seq<Header>, db: Db, cfg: Config, chain: seq<Body>, head: nat)
    requires Anchored(db, cfg) && db.state.cursor.Some? && CursorOn(db, chain)
    requires 0 < db.state.cursor.value.block <= head < |chain| && Refers(references, db, chain, head)
    ensures forall h :: h in references ==> OnChainHeader(h, chain)
    ensures forall n :: n in db.blocks && Mentioned(db, n) ==> db.blocks[n] in references
    ensures var c := db.state.cursor.value.block;
            && HeaderAt(chain, c - 1) in references && HeaderAt(chain, c) in references
            && HeaderAt(chain, head) in references
  {
    hide Anchored, Mentioned;
    CursorHeader(db, cfg, chain);
    var boundary := BoundaryOf(db, chain, head);
    forall h | h in boundary ensures OnChainHeader(h, chain) && h in references {
      assert IsReference(h, db, chain, head);
    }
    assert boundary[0] in boundary && boundary[1] in boundary && boundary[3] in boundary;
    forall n | n in db.blocks && Mentioned(db, n) ensures db.blocks[n] in references {
      assert IsReference(db.blocks[n], db, chain, head);
    }
    forall h | h in references ensures OnChainHeader(h, chain) {
      assert IsReference(h, db, chain, head);
    }
  }

  lemma SourceIsMentioned(references: seq<Header>, db: Db, cfg: Config, chain: seq<Body>, head: nat)
    requires Anchored(db, cfg) && db.state.cursor.Some? && CursorOn(db, chain) && SourceRetained(db)
    requires 0 < db.state.cursor.value.block <= head < |chain| && Refers(references, db, chain, head)
    ensures var at := db.state.source.value.at;
            && cfg.deploymentBlock <= at.block <= db.state.cursor.value.block
            && at == PointOf(HeaderAt(chain, at.block)) && HeaderAt(chain, at.block) in references
  {
    hide Refers, OnHistory, Referenced, Clean, IndexOf, Holds;
    var at := db.state.source.value.at;
    RefersToAll(references, db, cfg, chain, head);
    CursorHeader(db, cfg, chain);
    SourceHeader(db, cfg, chain);
    assert db.blocks[at.block] in references;
  }

  lemma ReferenceRetains(references: seq<Header>, h: Header)
    requires h in references
    ensures Retains(references, PointOf(h))
  {
  }

  lemma AssembledReferences(s: PublicSnapshot, db: Db, cfg: Config, chain: seq<Body>, head: nat)
    requires Monotone(chain) && Anchored(db, cfg) && Assembled(s, db, cfg, chain, head)
    ensures WellReferenced(s, cfg) && Ordered(s.facts, cfg)
  {
    hide Refers, Anchored, Carries, Retains, CursorOn, DistinctBlocks, LinkedReferences;
    var c, at := db.state.cursor.value, db.state.source.value.at;
    RefersToAll(s.blockReferences, db, cfg, chain, head);
    ChainReferences(s.blockReferences, chain);
    SourceIsMentioned(s.blockReferences, db, cfg, chain, head);
    Linked(chain, c.block);
    ReferenceRetains(s.blockReferences, HeaderAt(chain, at.block));
    ReferenceRetains(s.blockReferences, HeaderAt(chain, c.block));
    ReferenceRetains(s.blockReferences, HeaderAt(chain, head));
    assert chain[at.block].timestamp <= chain[c.block].timestamp <= chain[head].timestamp;
  }

  // ----- observations

  lemma NoWithdrawalTable(db: Db, cfg: Config)
    requires ValidConfig(cfg) && Anchored(db, cfg) && db.state.model == V13
    ensures db.withdrawals == map[]
  {
    hide IndexOf, Clean, OnHistory, Referenced, ValidConfig, SourceSound;
    if db.state.cursor.Some? {
      var c := db.state.cursor.value;
      var from: nat :| IndexedFrom(db, cfg, from);
      NoWithdrawalsInV13(cfg, c.hash, from, c.block + 1);
      NothingHeld(db.withdrawals, IndexOf(cfg, V13, c.hash, from, c.block + 1));
    }
  }

  lemma NothingHeld(table: EventTable, rows: seq<PoolEvent>)
    requires TableHolds(table, rows, true) && forall row :: row in rows ==> !row.detail.Withdrawal?
    ensures table == map[]
  {
    assert forall id :: id !in table;
  }

  /** A snapshot observation is a stored row, and the other way round. */
  lemma CarriedRows(s: PublicSnapshot, db: Db, cfg: Config)
    requires ValidConfig(cfg) && Anchored(db, cfg) && Carries(s, db)
    ensures forall e :: e in AllObservations(s) ==>
              if e.detail.Withdrawal? then e.eventId in db.withdrawals && db.withdrawals[e.eventId] == e
              else e.eventId in db.events && db.events[e.eventId] == e
    ensures forall id :: id in db.events ==> db.events[id] in AllObservations(s)
    ensures forall id :: id in db.withdrawals ==> db.withdrawals[id] in AllObservations(s)
  {
    hide Anchored, ValidConfig, Lists;
    if db.state.model == V13 {
      NoWithdrawalTable(db, cfg);
    } else {
      ListMembers(s.withdrawalObservations.value, db.withdrawals);
    }
    ListMembers(s.depositObservations + s.registrationObservations, db.events);
    assert forall e :: e in s.depositObservations || e in s.registrationObservations
                       <==> e in s.depositObservations + s.registrationObservations;
  }

  lemma ListMembers(rows: seq<PoolEvent>, table: EventTable)
    requires Lists(rows, table)
    ensures forall e :: e in rows ==> e.eventId in table && table[e.eventId] == e
    ensures forall id :: id in table ==> table[id] in rows
  {
  }

  lemma RowsAreDistinct(rows: seq<PoolEvent>, x: PoolEvent, y: PoolEvent)
    requires DistinctIds(rows) && x in rows && y in rows && x.eventId == y.eventId
    ensures x == y
  {
  }

  lemma AssembledDistinct(s: PublicSnapshot, db: Db, rows: seq<PoolEvent>)
    requires Carries(s, db) && Holds(db, rows) && DistinctIds(rows)
    ensures DistinctIds(AllObservations(s))
  {
    var shown, withdrawn := s.depositObservations + s.registrationObservations, OrEmpty(s.withdrawalObservations);
    assert AllObservations(s) == shown + withdrawn;
    forall i, j | 0 <= i < |shown| && 0 <= j < |withdrawn| ensures shown[i].eventId != withdrawn[j].eventId {
      assert shown[i] in shown && withdrawn[j] in withdrawn;
      assert withdrawn[j].detail.Withdrawal? && !shown[i].detail.Withdrawal?;
      if shown[i].eventId == withdrawn[j].eventId {
        RowsAreDistinct(rows, shown[i], withdrawn[j]);
        assert false;
      }
    }
  }

  lemma RowIsMentioned(db: Db, e: PoolEvent)
    requires Referenced(db.blocks, db.events) && Referenced(db.blocks, db.withdrawals)
    requires if e.detail.Withdrawal? then e.eventId in db.withdrawals && db.withdrawals[e.eventId] == e
             else e.eventId in db.events && db.events[e.eventId] == e
    ensures e.block in db.blocks && Mentioned(db, e.block)
  {
  }

  lemma RowsAreReferenced(db: Db, cfg: Config)
    requires Anchored(db, cfg)
    ensures Referenced(db.blocks, db.events) && Referenced(db.blocks, db.withdrawals)
  {
  }

  /** A snapshot observation is a row of the index, and its block is retained and mentioned. */
  lemma StoredRow(s: PublicSnapshot, db: Db, cfg: Config, rows: seq<PoolEvent>, e: PoolEvent)
    requires ValidConfig(cfg) && Anchored(db, cfg) && Carries(s, db) && Holds(db, rows) && e in AllObservations(s)
    ensures e in rows && e.block in db.blocks && Mentioned(db, e.block)
  {
    hide Anchored, Carries, ValidConfig, Mentioned, Referenced;
    CarriedRows(s, db, cfg);
    RowsAreReferenced(db, cfg);
    RowIsMentioned(db, e);
  }

  lemma AssembledObservation(s: PublicSnapshot, db: Db, cfg: Config, chain: seq<Body>, head: nat,
                             rows: seq<PoolEvent>, e: PoolEvent)
    requires ValidConfig(cfg) && Anchored(db, cfg) && Assembled(s, db, cfg, chain, head)
    requires var at, end := db.state.source.value.at, db.state.cursor.value.block + 1;
             end <= |chain| && rows == IndexOf(cfg, db.state.model, chain, at.block, end)
    requires Holds(db, rows) && e in AllObservations(s)
    ensures ValidObservation(e, s, cfg)
  {
    hide Refers, Anchored, Carries, Clean, IndexOf, Mentioned, IsReference;
    var at, end := db.state.source.value.at, db.state.cursor.value.block + 1;
    StoredRow(s, db, cfg, rows, e);
    IndexRow(cfg, db.state.model, chain, at.block, end, e);
    CursorHeader(db, cfg, chain);
    RefersToAll(s.blockReferences, db, cfg, chain, head);
    assert db.blocks[e.block] in s.blockReferences;
  }

  lemma AssembledObservations(s: PublicSnapshot, db: Db, cfg: Config, chain: seq<Body>, head: nat)
    requires ValidConfig(cfg) && Anchored(db, cfg) && Assembled(s, db, cfg, chain, head)
    requires NoRowBelow(db, db.state.source.value.at.block)
    ensures ValidObservations(s, cfg)
  {
    var at, end, model := db.state.source.value.at, db.state.cursor.value.block + 1, db.state.model;
    SourceHeader(db, cfg, chain);
    FromScratch(db, cfg, chain);
    var rows := IndexOf(cfg, model, chain, at.block, end);
    forall e | e in AllObservations(s) ensures ValidObservation(e, s, cfg) {
      AssembledObservation(s, db, cfg, chain, head, rows, e);
    }
    IndexIdentities(cfg, model, chain, at.block, end);
    AssembledDistinct(s, db, rows);
  }

  lemma ValidMeansNoneBelow(s: PublicSnapshot, db: Db, cfg: Config)
    requires ValidConfig(cfg) && Anchored(db, cfg) && Carries(s, db) && ValidObservations(s, cfg)
    ensures NoRowBelow(db, s.facts.sourceFrom.block)
  {
    CarriedRows(s, db, cfg);
    forall id | id in db.events ensures s.facts.sourceFrom.block <= db.events[id].block {
      assert ValidObservation(db.events[id], s, cfg);
    }
    forall id | id in db.withdrawals ensures s.facts.sourceFrom.block <= db.withdrawals[id].block {
      assert ValidObservation(db.withdrawals[id], s, cfg);
    }
  }

  /**
   The assembled snapshot meets every structural demand of the validator exactly when no stored event lies
   below the source block. Only a rollback past the source can leave such an event behind.
   */
  lemma ProducerMeetsValidator(s: PublicSnapshot, db: Db, cfg: Config, chain: seq<Body>, head: nat, time: int)
    requires ValidConfig(cfg) && Monotone(chain) && Anchored(db, cfg) && Assembled(s, db, cfg, chain, head)
    requires db.state.source.value.required <= time - OBSERVATION_SECONDS
    ensures Structural(s, Evaluation(s.facts.observed.block, time), cfg)
            <==> NoRowBelow(db, db.state.source.value.at.block)
  {
    hide Holds, WellReferenced, ValidObservations, Anchored, NoRowBelow, Refers, Carries;
    AssembledReferences(s, db, cfg, chain, head);
    if NoRowBelow(db, db.state.source.value.at.block) {
      AssembledObservations(s, db, cfg, chain, head);
      AssembledCovers(s, db, cfg, chain, head, time);
    } else if Structural(s, Evaluation(s.facts.observed.block, time), cfg) {
      ValidMeansNoneBelow(s, db, cfg);
      assert false;
    }
  }

  lemma AssembledCovers(s: PublicSnapshot, db: Db, cfg: Config, chain: seq<Body>, head: nat, time: int)
    requires Anchored(db, cfg) && Assembled(s, db, cfg, chain, head)
    requires db.state.source.value.required <= time - OBSERVATION_SECONDS
    ensures Covers(s, time, cfg)
  {
  }

  // ----- assembling and publishing

  /** Some evaluation time at which the validator accepted the snapshot. */
  ghost predicate Accepted(s: PublicSnapshot, cfg: Config) {
    exists time: nat :: Structural(s, Evaluation(s.facts.observed.block, time), cfg) && Timely(s.facts, time)
  }

  lemma SoundMeansNoneBelow(s: PublicSnapshot, db: Db, cfg: Config, chain: seq<Body>, head: nat, time: int)
    requires ValidConfig(cfg) && Anchored(db, cfg) && Assembled(s, db, cfg, chain, head)
    requires Structural(s, Evaluation(s.facts.observed.block, time), cfg)
    ensures db.state.source.Some? && db.state.cursor.Some? && NoRowBelow(db, db.state.source.value.at.block)
  {
    ValidMeansNoneBelow(s, db, cfg);
  }

  /** Publication changes nothing that the snapshot was assembled from. */
  lemma AssembledElsewhere(s: PublicSnapshot, db: Db, after: Db, cfg: Config, chain: seq<Body>, head: nat)
    requires Assembled(s, db, cfg, chain, head)
    requires after.blocks == db.blocks && after.events == db.events && after.withdrawals == db.withdrawals
    requires after.state.source == db.state.source && after.state.cursor == db.state.cursor
    requires after.state.model == db.state.model
    ensures Assembled(s, after, cfg, chain, head)
    ensures forall n :: NoRowBelow(after, n) == NoRowBelow(db, n)
  {
  }

  /** What the store collects for these boundary headers are the references. */
  lemma RefersExactly(references: seq<Header>, boundary: seq<Header>, db: Db, chain: seq<Body>, head: nat)
    requires db.state.cursor.Some? && 0 < db.state.cursor.value.block < |chain| && 0 < head < |chain|
    requires boundary == BoundaryOf(db, chain, head) && Ascending(references)
    requires forall h :: h in references <==>
               h in boundary || (h.number in db.blocks && db.blocks[h.number] == h && Mentioned(db, h.number))
    ensures Refers(references, db, chain, head)
  {
    hide Mentioned;
    forall h ensures h in references <==> IsReference(h, db, chain, head) {
    }
    forall i, j | 0 <= i < j < |references| ensures references[i] != references[j] {
      assert references[i].number < references[j].number;
    }
  }

  lemma StoredSourceHeader(db: Db, cfg: Config, chain: seq<Body>)
    requires Anchored(db, cfg) && db.state.cursor.Some? && CursorOn(db, chain) && SourceRetained(db)
    ensures var at := db.state.source.value.at; PointOf(db.blocks[at.block]) == at
  {
    CursorHeader(db, cfg, chain);
    SourceHeader(db, cfg, chain);
  }

  /** Each of the two kinds an event table may hold is listed under its own name. */
  lemma CarriesAll(s: PublicSnapshot, db: Db, cfg: Config, withdrawn: seq<PoolEvent>)
    requires Anchored(db, cfg)
    requires Lists(s.depositObservations + s.registrationObservations, db.events) && Lists(withdrawn, db.withdrawals)
    requires forall e :: e in s.depositObservations ==> e.detail.Deposit?
    requires forall e :: e in s.registrationObservations ==> !e.detail.Deposit?
    requires s.withdrawalObservations == if db.state.model == V14 then Some(withdrawn) else None
    ensures Carries(s, db)
  {
    forall e | e in s.registrationObservations ensures e.detail.Registration? {
      assert e in s.depositObservations + s.registrationObservations;
    }
  }

  /** The active row is this snapshot of what the tables hold of the live chain. */
  ghost predicate PublishedAs(db: Db, cfg: Config, digest: Tree -> nat, chain: seq<Body>, head: nat,
                              s: PublicSnapshot, hash: nat)
  {
    && Assembled(s, db, cfg, chain, head)
    && db.state.source.Some? && db.state.cursor.Some? && NoRowBelow(db, db.state.source.value.at.block)
    && db.state.status == Complete && db.state.active == Some(hash)
    && hash == digest(CanonicalJson(cfg, s)) && LoadComplete(db, cfg, digest) == Ok(Canonical(cfg, s))
    && Accepted(s, cfg)
  }

  /** What has just been persisted is what a load gives back. */
  lemma PersistedIsLoaded(db: Db, cfg: Config, digest: Tree -> nat, s: PublicSnapshot, now: int)
    requires ValidConfig(cfg)
    ensures LoadComplete(PersistSnapshot(db, RowFor(cfg, digest, s, now)), cfg, digest) == Ok(Canonical(cfg, s))
  {
    hide CanonicalJson, ParseSnapshot, Canonical;
    StoredRoundTrip(cfg, s);
  }
}
