/**
 A run that ends with an event below the source block. Two forks in a row take the cursor from the source block 2
 to block 1 and then to block 0. Neither attempt commits more, and one that sees no further than block 1 retains the
 header of block 0 in between. Then the original chain comes back with a deposit in block 1.
 */
module SourceDip {

  import opened Wrappers
  import opened EngineTypes
  import opened Chain
  import opened PoolEvents
  import opened Index
  import opened Store
  import opened IndexedStore
  import opened Publication
  import opened BelowSource

  ghost predicate DipConfig(cfg: Config, depositor: Address, token: Address) {
    && ValidConfig(cfg) && cfg.deploymentBlock <= 1
    && cfg.isAddress(cfg.pool) && cfg.isAddress(depositor) && cfg.isAddress(token)
  }

  const AMOUNT: nat := 5

  function DipChain(cfg: Config, depositor: Address, token: Address): seq<Body> {
    [Body(0, []), Body(1, [DepositLog(cfg, 7, depositor, token, AMOUNT)]), Body(2, [])]
  }

  /** A fork that replaces block 2, and one that replaces block 1 as well. */
  function ForkAfter(chain: seq<Body>, block: nat): seq<Body>
    requires block < |chain|
  {
    chain[..block + 1] + [Body(3, [])]
  }

  function DipRow(cfg: Config, depositor: Address, token: Address): PoolEvent {
    DepositRow(cfg, DipChain(cfg, depositor, token), 1, 7, depositor, token, AMOUNT)
  }

  /** The tables with this source boundary, these headers and events, and the cursor at this block. */
  function Tables(chain: seq<Body>, model: ModelVersion, retained: set<nat>, events: EventTable, cursor: nat): Db
    requires |chain| == 3 && cursor < 3 && forall n :: n in retained ==> n < 3
  {
    Db(map n | n in retained :: HeaderAt(chain, n), events, map[], [],
       State(Syncing, model, Some(Source(PointOf(HeaderAt(chain, 2)), 2)), Some(PointOf(HeaderAt(chain, cursor))),
             None, None))
  }

  function Chosen(chain: seq<Body>, model: ModelVersion): Db
    requires |chain| == 3
  {
    Db(map[2 := HeaderAt(chain, 2)], map[], map[], [],
       State(Empty, model, Some(Source(PointOf(HeaderAt(chain, 2)), 2)), None, None, None))
  }

  function LastBlocks(chain: seq<Body>, rows: seq<PoolEvent>): Batch
    requires |chain| == 3
  {
    Batch(HeaderAt(chain, 2), [HeaderAt(chain, 1), HeaderAt(chain, 2)], rows)
  }

  function States(cfg: Config, model: ModelVersion, depositor: Address, token: Address): seq<Db> {
    var chain, row := DipChain(cfg, depositor, token), DipRow(cfg, depositor, token);
    [ Fresh(model),
      Chosen(chain, model),
      Tables(chain, model, {1, 2}, map[], 2),
      Tables(chain, model, {1}, map[], 1),
      Tables(chain, model, {0, 1}, map[], 1),
      Tables(chain, model, {0}, map[], 0),
      Tables(chain, model, {0, 1, 2}, map[row.eventId := row], 2) ]
  }

  function Moves(cfg: Config, depositor: Address, token: Address): seq<Move> {
    var chain := DipChain(cfg, depositor, token);
    [ Choose(chain, 2, 2, 2),
      CommitNext(LastBlocks(chain, []), chain),
      RollBack(1, ForkAfter(chain, 1)),
      RetainOnHistory([HeaderAt(chain, 0), HeaderAt(chain, 1)]),
      RollBack(0, ForkAfter(chain, 0)),
      CommitNext(LastBlocks(chain, [DipRow(cfg, depositor, token)]), chain) ]
  }

  // ----- one move at a time

  lemma UpsertTwo(blocks: map<nat, Header>, x: Header, y: Header, after: map<nat, Header>)
    requires x.number != y.number
    requires x.number in blocks ==> blocks[x.number] == x
    requires y.number in blocks ==> blocks[y.number] == y
    requires after == blocks[x.number := x][y.number := y]
    ensures UpsertAll(blocks, [x, y]) == Ok(after)
  {
    assert [x, y][..1] == [x] && [x][..0] == [];
    assert x.number in blocks ==> blocks[x.number := x] == blocks;
    assert UpsertAll(blocks, []) == Ok(blocks);
    assert UpsertAll(blocks, [x]) == UpsertHeader(blocks, x) == Ok(blocks[x.number := x]);
    var both := blocks[x.number := x];
    assert y.number in both ==> both[y.number := y] == both;
  }

  lemma TakesChoose(cfg: Config, model: ModelVersion, chain: seq<Body>)
    requires |chain| == 3 && Monotone(chain) && chain[1].timestamp < 2 == chain[2].timestamp
    requires cfg.deploymentBlock <= 1
    ensures Takes(Fresh(model), Choose(chain, 2, 2, 2), Chosen(chain, model), cfg)
  {
    var h := HeaderAt(chain, 2);
    assert [h][..0] == [];
    assert UpsertAll(map[], [h]) == Ok(map[2 := h]);
  }

  lemma TakesFirstCommit(cfg: Config, model: ModelVersion, chain: seq<Body>)
    requires |chain| == 3 && chain[2].logs == []
    ensures Takes(Chosen(chain, model), CommitNext(LastBlocks(chain, []), chain),
                  Tables(chain, model, {1, 2}, map[], 2), cfg)
  {
    hide IndexOf, Clean;
    QuietIndex(cfg, model, chain, 2, 3);
    var after := Tables(chain, model, {1, 2}, map[], 2);
    UpsertTwo(Chosen(chain, model).blocks, HeaderAt(chain, 1), HeaderAt(chain, 2), after.blocks);
  }

  lemma TakesRollback(cfg: Config, model: ModelVersion, chain: seq<Body>, retained: set<nat>, kept: set<nat>,
                      cursor: nat, block: nat)
    requires |chain| == 3 && cursor < 3 && block < 3 && block in retained && forall n :: n in retained ==> n < 3
    requires kept == set n | n in retained && n <= block
    requires block < cursor && chain[block + 1] != Body(3, [])
    ensures Takes(Tables(chain, model, retained, map[], cursor), RollBack(block, ForkAfter(chain, block)),
                  Tables(chain, model, kept, map[], block), cfg)
  {
    var db, after := Tables(chain, model, retained, map[], cursor), Tables(chain, model, kept, map[], block);
    assert (map n | n in db.blocks && n <= block :: db.blocks[n]) == after.blocks;
    assert db.blocks[block] == HeaderAt(chain, block);
    ForkShares(chain, block, cursor);
  }

  /** The fork keeps the header of the block and leaves every later cursor off it. */
  lemma ForkShares(chain: seq<Body>, block: nat, cursor: nat)
    requires block < cursor < |chain| && chain[block + 1] != Body(3, [])
    ensures HeaderAt(ForkAfter(chain, block), block) == HeaderAt(chain, block)
    ensures !OnChain(HeaderAt(chain, cursor).hash, ForkAfter(chain, block))
  {
    var fork := ForkAfter(chain, block);
    assert fork[..block + 1] == chain[..block + 1] && fork[..block] == chain[..block];
    if cursor == block + 1 {
      assert chain[..cursor + 1][block + 1] != fork[block + 1];
    }
  }

  lemma TakesRetain(cfg: Config, model: ModelVersion, chain: seq<Body>)
    requires |chain| == 3
    ensures Takes(Tables(chain, model, {1}, map[], 1), RetainOnHistory([HeaderAt(chain, 0), HeaderAt(chain, 1)]),
                  Tables(chain, model, {0, 1}, map[], 1), cfg)
  {
    var db, after := Tables(chain, model, {1}, map[], 1), Tables(chain, model, {0, 1}, map[], 1);
    HeaderOfPrefix(chain, 2, 0);
    HeaderOfPrefix(chain, 2, 1);
    UpsertTwo(db.blocks, HeaderAt(chain, 0), HeaderAt(chain, 1), after.blocks);
  }

  lemma TakesLastCommit(cfg: Config, model: ModelVersion, chain: seq<Body>, row: PoolEvent)
    requires |chain| == 3 && row.block == 1 && !row.detail.Withdrawal?
    requires Clean(cfg, model, chain, 1, 3) && IndexOf(cfg, model, chain, 1, 3) == [row]
    ensures Takes(Tables(chain, model, {0}, map[], 0), CommitNext(LastBlocks(chain, [row]), chain),
                  Tables(chain, model, {0, 1, 2}, map[row.eventId := row], 2), cfg)
  {
    hide IndexOf, Clean;
    var db, after := Tables(chain, model, {0}, map[], 0), Tables(chain, model, {0, 1, 2}, map[row.eventId := row], 2);
    UpsertTwo(db.blocks, HeaderAt(chain, 1), HeaderAt(chain, 2), after.blocks);
    assert [row][..0] == [];
    assert InsertAll(db.(blocks := after.blocks), [row]) == Ok(db.(blocks := after.blocks, events := after.events));
  }

  lemma DipIndex(cfg: Config, model: ModelVersion, depositor: Address, token: Address)
    requires DipConfig(cfg, depositor, token)
    ensures var chain := DipChain(cfg, depositor, token);
            Clean(cfg, model, chain, 1, 3) && IndexOf(cfg, model, chain, 1, 3) == [DipRow(cfg, depositor, token)]
  {
    hide IndexOf, Clean;
    var chain := DipChain(cfg, depositor, token);
    SingleDeposit(cfg, model, chain, 1, 7, depositor, token, AMOUNT);
    QuietIndex(cfg, model, chain, 2, 3);
    IndexSplit(cfg, model, chain, 1, 2, 3);
  }

  // ----- the run

  lemma DipIsRun(cfg: Config, model: ModelVersion, depositor: Address, token: Address)
    requires DipConfig(cfg, depositor, token)
    ensures IsRun(States(cfg, model, depositor, token), Moves(cfg, depositor, token), cfg)
  {
    hide Takes, Tables, IndexOf, Clean;
    var chain, row := DipChain(cfg, depositor, token), DipRow(cfg, depositor, token);
    TakesChoose(cfg, model, chain);
    TakesFirstCommit(cfg, model, chain);
    TakesRollback(cfg, model, chain, {1, 2}, {1}, 2, 1);
    TakesRetain(cfg, model, chain);
    TakesRollback(cfg, model, chain, {0, 1}, {0}, 1, 0);
    DipIndex(cfg, model, depositor, token);
    TakesLastCommit(cfg, model, chain, row);
  }

  /**
   The refused state is reached: the run ends with sound tables on a chain that holds their source block, and with
   an event below it. One of its moves dips below the source, as it must.
   */
  lemma RowBelowIsReached(cfg: Config, model: ModelVersion, depositor: Address, token: Address)
    requires DipConfig(cfg, depositor, token)
    ensures var dbs, moves := States(cfg, model, depositor, token), Moves(cfg, depositor, token);
            && IsRun(dbs, moves, cfg) && dbs[0] == Fresh(model) && DipsBelow(dbs[4], moves[4])
            && Anchored(dbs[6], cfg) && CursorOn(dbs[6], DipChain(cfg, depositor, token)) && SourceRetained(dbs[6])
            && !NoRowBelow(dbs[6], dbs[6].state.source.value.at.block)
  {
    hide Takes, Anchored;
    DipIsRun(cfg, model, depositor, token);
    ResetAnchored(Fresh(model), cfg, model);
    RunKeepsAnchored(States(cfg, model, depositor, token), Moves(cfg, depositor, token), cfg, 6);
    var chain := DipChain(cfg, depositor, token);
    assert chain[..3] == chain;
    var row := DipRow(cfg, depositor, token);
    assert States(cfg, model, depositor, token)[6].events[row.eventId] == row;
  }
}
