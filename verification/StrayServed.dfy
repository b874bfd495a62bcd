/**
 A stray header that gets an event served which the chain does not have. A process is stopped right after it has
 retained block 2 as a source header. The next one meets a fork that replaces block 1 on, where the search puts the
 source at block 0, and commits a deposit in block 1 of it. Then the first chain is back: the highest retained header
 it contains is the stray one, so the rollback goes there and leaves the deposit standing below.
 */
module StrayServed {

  import opened Wrappers
  import opened EngineTypes
  import opened Sequences
  import opened Preflight
  import opened Chain
  import opened PoolEvents
  import opened Index
  import opened Snapshots
  import opened Freshness
  import opened Store
  import opened IndexedStore
  import opened Publication
  import opened History
  import opened BelowSource
  import opened StrayHeader
  import HorizonEdge

  const LATER: nat := 3 + OBSERVATION_SECONDS

  /** The chain that comes back, and the fork that passes. */
  function Lasting(): seq<Body> {
    [Body(0, []), Body(1, []), Body(2, []), Body(LATER, []), Body(LATER, [])]
  }

  function Passing(cfg: Config, depositor: Address, token: Address): seq<Body> {
    var log := DepositLog(cfg, 7, depositor, token, HorizonEdge.AMOUNT);
    [Body(0, []), Body(3, [log]), Body(3, []), Body(3, []), Body(3, [])]
  }

  function PassingRow(cfg: Config, depositor: Address, token: Address): PoolEvent {
    DepositRow(cfg, Passing(cfg, depositor, token), 1, 7, depositor, token, HorizonEdge.AMOUNT)
  }

  // ----- the run

  function Bare(blocks: map<nat, Header>, model: ModelVersion): Db {
    Fresh(model).(blocks := blocks)
  }

  function Tables(blocks: map<nat, Header>, rows: seq<PoolEvent>, model: ModelVersion, cursor: Header): Db
    requires |rows| == 1
  {
    Db(blocks, map[rows[0].eventId := rows[0]], map[], [],
       State(Syncing, model, Some(Source(PointOf(HeaderAt(Lasting(), 0)), 2)), Some(PointOf(cursor)), None, None))
  }

  function States(cfg: Config, model: ModelVersion, depositor: Address, token: Address): seq<Db> {
    var x, y, rows := Lasting(), Passing(cfg, depositor, token), [PassingRow(cfg, depositor, token)];
    var stray := map[2 := HeaderAt(x, 2)];
    var chosen := Bare(stray[0 := HeaderAt(y, 0)], model);
    var passed := map[0 := HeaderAt(y, 0), 1 := HeaderAt(y, 1), 2 := HeaderAt(x, 2), 3 := HeaderAt(y, 3),
                      4 := HeaderAt(y, 4)];
    var landed := map[0 := HeaderAt(y, 0), 1 := HeaderAt(y, 1), 2 := HeaderAt(x, 2)];
    [ Fresh(model),
      Bare(stray, model),
      chosen,
      InitializeSource(chosen, Source(PointOf(HeaderAt(y, 0)), 2)),
      Tables(passed, rows, model, HeaderAt(y, 4)),
      Tables(landed, rows, model, HeaderAt(x, 2)),
      Tables(landed[3 := HeaderAt(x, 3)][4 := HeaderAt(x, 4)], rows, model, HeaderAt(x, 4)) ]
  }

  function PassingBatch(cfg: Config, depositor: Address, token: Address): Batch {
    var y := Passing(cfg, depositor, token);
    Batch(HeaderAt(y, 4), [HeaderAt(y, 0), HeaderAt(y, 1), HeaderAt(y, 3), HeaderAt(y, 4)],
          [PassingRow(cfg, depositor, token)])
  }

  function LastingBatch(): Batch {
    Batch(HeaderAt(Lasting(), 4), [HeaderAt(Lasting(), 3), HeaderAt(Lasting(), 4)], [])
  }

  function Steps(cfg: Config, depositor: Address, token: Address): seq<Step> {
    var x, y := Lasting(), Passing(cfg, depositor, token);
    [ KeepHeader(x, 4, 2, 2),
      KeepHeader(y, 4, 0, 2),
      NameSource(y, 4, 0, 2),
      Whole(CommitNext(PassingBatch(cfg, depositor, token), y)),
      Whole(RollBack(2, x)),
      Whole(CommitNext(LastingBatch(), x)) ]
  }

  // ----- one step at a time

  lemma UpsertOne(blocks: map<nat, Header>, init: seq<Header>, before: map<nat, Header>, h: Header)
    requires UpsertAll(blocks, init) == Ok(before) && (h.number in before ==> before[h.number] == h)
    ensures UpsertAll(blocks, init + [h]) == Ok(before[h.number := h])
  {
    assert (init + [h])[..|init|] == init;
    assert h.number in before ==> before[h.number := h] == before;
  }

  lemma UpsertSingle(blocks: map<nat, Header>, h: Header)
    requires h.number in blocks ==> blocks[h.number] == h
    ensures UpsertAll(blocks, [h]) == Ok(blocks[h.number := h])
  {
    UpsertOne(blocks, [], blocks, h);
    assert [] + [h] == [h];
  }

  lemma SearchedHere(cfg: Config, depositor: Address, token: Address)
    requires HorizonEdge.EdgeConfig(cfg, depositor, token)
    ensures Searched(cfg, Lasting(), 4, 2, 2) && Searched(cfg, Passing(cfg, depositor, token), 4, 0, 2)
  {
    hide ValidConfig;
  }

  lemma SameStart(cfg: Config, depositor: Address, token: Address)
    ensures HeaderAt(Lasting(), 0) == HeaderAt(Passing(cfg, depositor, token), 0)
  {
    assert Lasting()[..1] == Passing(cfg, depositor, token)[..1];
  }

  lemma MakesChoices(cfg: Config, model: ModelVersion, depositor: Address, token: Address)
    requires HorizonEdge.EdgeConfig(cfg, depositor, token)
    ensures var dbs, steps := States(cfg, model, depositor, token), Steps(cfg, depositor, token);
            && Makes(dbs[0], steps[0], dbs[1], cfg) && Makes(dbs[1], steps[1], dbs[2], cfg)
            && Makes(dbs[2], steps[2], dbs[3], cfg)
  {
    hide Searched, ValidConfig, UpsertAll;
    SearchedHere(cfg, depositor, token);
    UpsertSingle(map[], HeaderAt(Lasting(), 2));
    UpsertSingle(map[2 := HeaderAt(Lasting(), 2)], HeaderAt(Passing(cfg, depositor, token), 0));
  }

  lemma PassingIndex(cfg: Config, model: ModelVersion, depositor: Address, token: Address)
    requires HorizonEdge.EdgeConfig(cfg, depositor, token)
    ensures var y := Passing(cfg, depositor, token);
            Clean(cfg, model, y, 0, 5) && IndexOf(cfg, model, y, 0, 5) == [PassingRow(cfg, depositor, token)]
  {
    hide IndexOf, Clean;
    var y := Passing(cfg, depositor, token);
    QuietIndex(cfg, model, y, 0, 1);
    SingleDeposit(cfg, model, y, 1, 7, depositor, token, HorizonEdge.AMOUNT);
    QuietIndex(cfg, model, y, 2, 5);
    IndexSplit(cfg, model, y, 0, 1, 5);
    IndexSplit(cfg, model, y, 1, 2, 5);
  }

  lemma PassingUpserts(cfg: Config, depositor: Address, token: Address)
    ensures var dbs := States(cfg, V13, depositor, token);
            UpsertAll(dbs[3].blocks, PassingBatch(cfg, depositor, token).headers) == Ok(dbs[4].blocks)
  {
    hide UpsertAll, PassingRow;
    var x, y := Lasting(), Passing(cfg, depositor, token);
    var start := map[2 := HeaderAt(x, 2)][0 := HeaderAt(y, 0)];
    var one := start[1 := HeaderAt(y, 1)];
    var three := one[3 := HeaderAt(y, 3)];
    UpsertSingle(start, HeaderAt(y, 0));
    assert start[0 := HeaderAt(y, 0)] == start;
    UpsertOne(start, [HeaderAt(y, 0)], start, HeaderAt(y, 1));
    assert [HeaderAt(y, 0)] + [HeaderAt(y, 1)] == [HeaderAt(y, 0), HeaderAt(y, 1)];
    UpsertOne(start, [HeaderAt(y, 0), HeaderAt(y, 1)], one, HeaderAt(y, 3));
    assert [HeaderAt(y, 0), HeaderAt(y, 1)] + [HeaderAt(y, 3)] == [HeaderAt(y, 0), HeaderAt(y, 1), HeaderAt(y, 3)];
    UpsertOne(start, [HeaderAt(y, 0), HeaderAt(y, 1), HeaderAt(y, 3)], three, HeaderAt(y, 4));
    assert [HeaderAt(y, 0), HeaderAt(y, 1), HeaderAt(y, 3)] + [HeaderAt(y, 4)]
           == PassingBatch(cfg, depositor, token).headers;
    assert three[4 := HeaderAt(y, 4)] == States(cfg, V13, depositor, token)[4].blocks;
  }

  lemma CommitsOneEvent(db: Db, batch: Batch, row: PoolEvent, after: Db)
    requires batch.events == [row] && !row.detail.Withdrawal? && db.events == map[] && row.block in after.blocks
    requires UpsertAll(db.blocks, batch.headers) == Ok(after.blocks)
    requires after == Db(after.blocks, map[row.eventId := row], db.withdrawals, db.snapshots,
                         db.state.(status := Syncing, cursor := Some(PointOf(batch.through))))
    ensures CommitBatch(db, batch) == Ok(after)
  {
    hide UpsertAll;
    var filled := db.(blocks := after.blocks);
    assert [row][..0] == [];
    assert InsertAll(filled, [row]) == Ok(filled.(events := after.events));
  }

  lemma PassingBatchCovers(cfg: Config, model: ModelVersion, depositor: Address, token: Address)
    requires HorizonEdge.EdgeConfig(cfg, depositor, token)
    ensures BatchOf(PassingBatch(cfg, depositor, token), cfg, model, Passing(cfg, depositor, token), 0)
  {
    hide IndexOf, Clean, ValidConfig;
    PassingIndex(cfg, model, depositor, token);
  }

  lemma MakesPassingCommit(cfg: Config, model: ModelVersion, depositor: Address, token: Address)
    requires HorizonEdge.EdgeConfig(cfg, depositor, token)
    ensures var dbs, steps := States(cfg, model, depositor, token), Steps(cfg, depositor, token);
            Makes(dbs[3], steps[3], dbs[4], cfg)
  {
    hide BatchOf, UpsertAll, CommitBatch, ValidConfig;
    var dbs := States(cfg, model, depositor, token);
    SameStart(cfg, depositor, token);
    PassingUpserts(cfg, depositor, token);
    PassingBatchCovers(cfg, model, depositor, token);
    CommitsOneEvent(dbs[3], PassingBatch(cfg, depositor, token), PassingRow(cfg, depositor, token), dbs[4]);
  }

  lemma MakesLanding(cfg: Config, model: ModelVersion, depositor: Address, token: Address)
    ensures var dbs, steps := States(cfg, model, depositor, token), Steps(cfg, depositor, token);
            Makes(dbs[4], steps[4], dbs[5], cfg) && LandsOnStray(dbs[4], steps[4])
    ensures var dbs := States(cfg, model, depositor, token);
            forall n :: n in dbs[4].blocks && n > 2 ==> !OnChainHeader(dbs[4].blocks[n], Lasting())
  {
    var dbs := States(cfg, model, depositor, token);
    var x, y := Lasting(), Passing(cfg, depositor, token);
    assert y[1] != x[1] && y[..5][1] == y[1] && y[..4][1] == y[1] && x[..5][1] == x[1] && x[..4][1] == x[1];
    assert (map n | n in dbs[4].blocks && n <= 2 :: dbs[4].blocks[n]) == dbs[5].blocks;
    assert Cascade(dbs[4].events, dbs[5].blocks) == dbs[5].events;
  }

  lemma MakesLastingCommit(cfg: Config, model: ModelVersion, depositor: Address, token: Address)
    requires HorizonEdge.EdgeConfig(cfg, depositor, token)
    ensures var dbs, steps := States(cfg, model, depositor, token), Steps(cfg, depositor, token);
            Makes(dbs[5], steps[5], dbs[6], cfg)
  {
    hide IndexOf, Clean, UpsertAll, ValidConfig;
    var x, dbs := Lasting(), States(cfg, model, depositor, token);
    QuietIndex(cfg, model, x, 3, 5);
    UpsertSingle(dbs[5].blocks, HeaderAt(x, 3));
    UpsertOne(dbs[5].blocks, [HeaderAt(x, 3)], dbs[5].blocks[3 := HeaderAt(x, 3)], HeaderAt(x, 4));
    assert [HeaderAt(x, 3)] + [HeaderAt(x, 4)] == LastingBatch().headers;
  }

  lemma RunIsMade(cfg: Config, model: ModelVersion, depositor: Address, token: Address)
    requires HorizonEdge.EdgeConfig(cfg, depositor, token)
    ensures IsStepRun(States(cfg, model, depositor, token), Steps(cfg, depositor, token), cfg)
  {
    hide Makes, Tables, Bare, InitializeSource;
    MakesChoices(cfg, model, depositor, token);
    MakesPassingCommit(cfg, model, depositor, token);
    MakesLanding(cfg, model, depositor, token);
    MakesLastingCommit(cfg, model, depositor, token);
  }

  // ----- what is served in the end

  /** Source, the deposit's block, the cursor's parent and the cursor. */
  function References(cfg: Config, depositor: Address, token: Address): seq<Header> {
    [HeaderAt(Lasting(), 0), HeaderAt(Passing(cfg, depositor, token), 1), HeaderAt(Lasting(), 3), HeaderAt(Lasting(), 4)]
  }

  function Served(cfg: Config, model: ModelVersion, depositor: Address, token: Address): PublicSnapshot {
    var db := States(cfg, model, depositor, token)[6];
    PublicSnapshot(FactsFrom(db, cfg, Lasting(), 4), ExpectedSelectors(cfg, model),
                   References(cfg, depositor, token), [PassingRow(cfg, depositor, token)],
                   if model == V14 then Some([]) else None, [])
  }

  lemma ServedRefers(cfg: Config, model: ModelVersion, depositor: Address, token: Address)
    ensures Refers(References(cfg, depositor, token), States(cfg, model, depositor, token)[6], Lasting(), 4)
  {
    hide OnChainHeader;
    var db, references := States(cfg, model, depositor, token)[6], References(cfg, depositor, token);
    SameStart(cfg, depositor, token);
    var row := PassingRow(cfg, depositor, token);
    assert db.events[row.eventId].block == 1;
    assert Mentioned(db, 0) && Mentioned(db, 1) && !Mentioned(db, 2);
    forall h ensures h in references <==> IsReference(h, db, Lasting(), 4) {
    }
  }

  lemma ServedIsAssembled(cfg: Config, model: ModelVersion, depositor: Address, token: Address)
    ensures Assembled(Served(cfg, model, depositor, token), States(cfg, model, depositor, token)[6], cfg, Lasting(), 4)
  {
    hide Refers;
    var db, row := States(cfg, model, depositor, token)[6], PassingRow(cfg, depositor, token);
    ServedRefers(cfg, model, depositor, token);
    SameStart(cfg, depositor, token);
    assert Lasting()[..5] == Lasting();
    assert [row] + [] == [row];
    assert Lists([row], db.events) && Lists([], db.withdrawals);
  }

  lemma ReferencesLinked(cfg: Config, depositor: Address, token: Address)
    ensures DistinctBlocks(References(cfg, depositor, token)) && LinkedReferences(References(cfg, depositor, token))
  {
    SameStart(cfg, depositor, token);
  }

  lemma ServedReferences(cfg: Config, model: ModelVersion, depositor: Address, token: Address)
    ensures WellReferenced(Served(cfg, model, depositor, token), cfg)
  {
    hide DistinctBlocks, LinkedReferences, Retains;
    var references := References(cfg, depositor, token);
    ReferencesLinked(cfg, depositor, token);
    ReferenceRetains(references, references[0]);
    ReferenceRetains(references, references[3]);
    assert references[2] in references;
  }

  lemma ServedObservation(cfg: Config, model: ModelVersion, depositor: Address, token: Address)
    requires HorizonEdge.EdgeConfig(cfg, depositor, token)
    ensures ValidObservations(Served(cfg, model, depositor, token), cfg)
  {
    hide Retains, ValidConfig;
    var row, references := PassingRow(cfg, depositor, token), References(cfg, depositor, token);
    RowPoint(cfg, depositor, token);
    ReferenceRetains(references, references[1]);
    assert AllObservations(Served(cfg, model, depositor, token)) == [row];
  }

  lemma RowPoint(cfg: Config, depositor: Address, token: Address)
    ensures var row := PassingRow(cfg, depositor, token);
            PointOf(References(cfg, depositor, token)[1]) == Point(row.block, row.blockHash, row.timestamp)
  {
  }

  /** The validator accepts the snapshot, and in time. */
  lemma ServedIsSound(cfg: Config, model: ModelVersion, depositor: Address, token: Address)
    requires HorizonEdge.EdgeConfig(cfg, depositor, token)
    ensures Structural(Served(cfg, model, depositor, token), Evaluation(4, LATER), cfg)
    ensures Timely(Served(cfg, model, depositor, token).facts, LATER)
  {
    hide ValidConfig, WellReferenced, ValidObservations;
    ServedReferences(cfg, model, depositor, token);
    ServedObservation(cfg, model, depositor, token);
  }

  /** The deposit of the other chain turns a warning into a go-ahead. */
  ghost predicate Misleads(s: PublicSnapshot, cfg: Config, model: ModelVersion, token: Address, account: Address) {
    var intent := Shield(account, token, Exact(HorizonEdge.AMOUNT), LATER);
    var shown := EvaluatePreflight(SnapshotInput(s, intent, LATER, 6));
    var full := EvaluatePreflight(HistoryInput(PoolHistory(cfg, model, Lasting(), 4), intent, LATER, 6));
    && shown.Supported? && shown.signals[0] == Signal(S1, Clear) && shown.decision == Allow
    && full.Supported? && full.signals[0] == Signal(S1, Fired) && full.decision == Warn
  }

  lemma ServedMisleads(cfg: Config, model: ModelVersion, depositor: Address, token: Address, account: Address)
    ensures Misleads(Served(cfg, model, depositor, token), cfg, model, token, account)
  {
    hide EvaluatePreflight, IndexOf, Clean, FactsFrom, PassingRow;
    QuietIndex(cfg, model, Lasting(), 0, 5);
    var row := PassingRow(cfg, depositor, token);
    RowAsDeposit(cfg, depositor, token);
    assert Map([row], AsDeposit()) == [AsDeposit()(row)];
    HorizonEdge.EdgeDepositDecides(AsDeposit()(row), LATER, account, 6);
  }

  lemma RowAsDeposit(cfg: Config, depositor: Address, token: Address)
    ensures var d := AsDeposit()(PassingRow(cfg, depositor, token));
            d.timestamp == LATER - OBSERVATION_SECONDS && d.token == token && d.amount == HorizonEdge.AMOUNT
  {
  }

  /**
   The rollback onto the stray header is one the indexer makes, since no higher retained header is on the chain, and
   nothing shows in the last three blocks afterwards. The validator accepts the snapshot that is then assembled.
   */
  lemma StrayGetsServed(cfg: Config, model: ModelVersion, depositor: Address, token: Address, account: Address)
    requires HorizonEdge.EdgeConfig(cfg, depositor, token)
    ensures var dbs, steps := States(cfg, model, depositor, token), Steps(cfg, depositor, token);
            && IsStepRun(dbs, steps, cfg) && dbs[0] == Fresh(model) && LandsOnStray(dbs[4], steps[4])
            && (forall n :: n in dbs[4].blocks && n > 2 ==> !OnChainHeader(dbs[4].blocks[n], Lasting()))
            && (forall n :: 2 <= n <= 4 ==> n in dbs[6].blocks && OnChainHeader(dbs[6].blocks[n], Lasting()))
    ensures var s, db := Served(cfg, model, depositor, token), States(cfg, model, depositor, token)[6];
            && Assembled(s, db, cfg, Lasting(), 4) && Structural(s, Evaluation(4, LATER), cfg) && Timely(s.facts, LATER)
            && Misleads(s, cfg, model, token, account)
  {
    hide IsStepRun, Assembled, Structural, Timely, Misleads, LandsOnStray;
    RunIsMade(cfg, model, depositor, token);
    MakesLanding(cfg, model, depositor, token);
    ServedIsAssembled(cfg, model, depositor, token);
    ServedIsSound(cfg, model, depositor, token);
    ServedMisleads(cfg, model, depositor, token, account);
  }
}
