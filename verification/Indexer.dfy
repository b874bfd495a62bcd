/** One synchronisation attempt: the indexer object, its loops over the provider, and what success means. */
module Indexer {

  import opened Wrappers
  import opened EngineTypes
  import opened Sequences
  import opened Sorting
  import opened Chain
  import opened PoolEvents
  import opened Index
  import opened Snapshots
  import opened SnapshotJson
  import opened Headers
  import opened Freshness
  import opened Store
  import opened IndexedStore
  import opened Provider
  import opened Publication
  import opened Collecting
  import opened BoundarySearch
  import BelowSource

  // ----- failures as the store records them

  function DataLayerCode(reason: Rejection): Code {
    match reason
    case DataStale => StaleRpc
    case LagExceeded => IndexLag
    case PoolAbiMismatch | UnknownSelector => PoolSchemaMismatch
    case SourceIncomplete => InsufficientHistory
    case PolicyVersionMismatch => ModelVersionMismatch
    case PoolAddressMismatch => UnknownPool
    case SnapshotIncomplete | MalformedAddress => IndexCorrupt
    case ChainIdMismatch | HeadInconsistent | BlockHashInconsistent | ParentLinkBroken | ClockBehind =>
      InconsistentBlockData
  }

  function DecodeCode(error: DecodeError): Code {
    match error
    case EventSchemaInvalid | UnknownEventSelector => PoolSchemaMismatch
    case EventBlockInconsistent => InconsistentBlockData
    case AddressInvalid => IndexCorrupt
    case PoolAddressMismatch => UnknownPool
  }

  const DEFAULT_MAX_RANGE_BLOCKS := 50_000
  const DEFAULT_REORG_WINDOW_BLOCKS := 2_048

  class IncrementalPublicIndexer {
    const rpc: PublicRpc
    const store: CanonicalStore
    const clock: Clock
    const model: ModelVersion
    const maxRangeBlocks: nat
    const reorgWindowBlocks: nat

    constructor (rpc: PublicRpc, store: CanonicalStore, clock: Clock, model: ModelVersion,
                 maxRangeBlocks: nat, reorgWindowBlocks: nat)
      requires maxRangeBlocks > 0 && reorgWindowBlocks >= 2
      ensures this.rpc == rpc && this.store == store && this.clock == clock && this.model == model
      ensures Configured()
    {
      this.rpc, this.store, this.clock, this.model := rpc, store, clock, model;
      this.maxRangeBlocks, this.reorgWindowBlocks := maxRangeBlocks, reorgWindowBlocks;
    }

    predicate Configured() {
      maxRangeBlocks > 0 && reorgWindowBlocks >= 2
    }

    ghost predicate Ready()
      reads this, rpc, store
    {
      && Configured() && rpc.Valid() && ValidConfig(store.cfg)
      && store.modelVersion == model && store.state.model == model
      && Anchored(store.Tables(), store.cfg)
    }

    /** The tables have come from these by the indexer's own moves, without a reset unless one was counted. */
    ghost predicate Recorded(before: Db, resets: nat)
      reads store
    {
      resets <= store.resets && BelowSource.Reaches(before, store.Tables(), store.cfg, store.resets == resets)
    }

    method AssertRpcIdentity(n: nat) returns (o: Outcome<Code>)
      ensures o.Pass? ==> rpc.chainId == store.cfg.chainId && rpc.classAt(n) == store.cfg.classHash
    {
      var chainId := rpc.GetChainId();
      if chainId.Err? {
        return Fail(chainId.error);
      }
      if chainId.value != store.cfg.chainId {
        return Fail(InconsistentBlockData);
      }
      var classHash := rpc.GetClassHashAt(n);
      if classHash.Err? {
        return Fail(classHash.error);
      }
      if classHash.value != store.cfg.classHash {
        return Fail(PoolSchemaMismatch);
      }
      return Pass;
    }

    /** Every matching event of the range, in the order of its content, however the provider cut and ordered it. */
    method CollectRangeEvents(from: nat, through: nat) returns (r: Result<seq<RawEvent>, Code>)
      requires rpc.Valid() && ValidConfig(store.cfg)
      modifies rpc`pending, rpc`patience
      ensures r.Ok? ==> through <= rpc.head
                        && r.value == SortedEvents(store.cfg, model, rpc.chain, from, through + 1)
    {
      var collected := CollectPages(rpc, QueryOf(store.cfg, model), 0, from, through);
      if collected.Err? {
        return Err(if collected.error.Refused? then collected.error.code else IndexCorrupt);
      }
      SortCollected(store.cfg, collected.value);
      ArrivalOrderIrrelevant(store.cfg, model, rpc.chain, from, through + 1, Map(collected.value, RawOf()));
      return Ok(Map(Sort(CollectedOrder(store.cfg), collected.value), RawOf()));
    }

    /** Ordinals and decoding, in one pass over the sorted events. */
    method DecodeEvents(events: seq<RawEvent>, byNumber: map<nat, Header>, from: nat, end: nat)
      returns (r: Result<seq<PoolEvent>, Code>)
      requires end <= |rpc.chain| && events == SortedEvents(store.cfg, model, rpc.chain, from, end)
      requires forall n :: n in byNumber ==> n < |rpc.chain| && byNumber[n] == HeaderAt(rpc.chain, n)
      ensures r.Ok? ==> Clean(store.cfg, model, rpc.chain, from, end)
                        && r.value == IndexOf(store.cfg, model, rpc.chain, from, end)
      ensures r.Ok? ==> forall e :: e in r.value ==> e.block in byNumber
    {
      hide DecodePoolEvent, SortedEvents, IndexOf, Clean, Filter;
      var ordinals: map<TransactionKey, nat> := map[];
      var rows: seq<PoolEvent> := [];
      for k := 0 to |events|
        invariant CountsSeen(ordinals, events[..k]) && |rows| == k
        invariant forall i :: 0 <= i < k ==> DecodeAt(store.cfg, rpc.chain, events, i) == Ok(rows[i])
        invariant forall i :: 0 <= i < k ==> rows[i].block in byNumber
      {
        var raw := events[k];
        if raw.block !in byNumber {
          return Err(InconsistentBlockData);
        }
        var ordinal := NextOrdinal(ordinals, raw);
        CountOneMore(ordinals, events[..k], raw);
        assert events[..k + 1] == events[..k] + [raw];
        ordinals := ordinals[(raw.block, raw.tx) := ordinal + 1];
        var decoded := DecodePoolEvent(raw, ordinal, byNumber[raw.block], store.cfg);
        assert decoded == DecodeAt(store.cfg, rpc.chain, events, k);
        if decoded.Err? {
          return Err(DecodeCode(decoded.error));
        }
        rows := rows + [decoded.value];
      }
      DecodedIsIndex(store.cfg, model, rpc.chain, from, end, rows);
      return Ok(rows);
    }

    /** The headers a batch needs: its ends, the parent of its last block, and the blocks of its events. */
    method BatchHeaders(from: nat, through: nat, events: seq<RawEvent>)
      returns (r: Result<(map<nat, Header>, seq<Header>), Code>)
      requires rpc.Valid() && from <= through && forall i :: 0 <= i < |events| ==> events[i].block <= through
      ensures r.Ok? ==> TableOf(r.value.0, r.value.1)
      ensures r.Ok? ==> from in r.value.0 && through in r.value.0 && (through > 0 ==> through - 1 in r.value.0)
      ensures r.Ok? ==> forall h :: h in r.value.1 ==> h.number <= through && OnChainHeader(h, rpc.chain)
      ensures r.Ok? ==> forall n :: n in r.value.0 ==> n < |rpc.chain| && r.value.0[n] == HeaderAt(rpc.chain, n)
    {
      hide HeaderNumbers, DistinctBlocks, Ascending, Monotone;
      var numbers := HeaderNumbers(from, through, events);
      var fetched := rpc.GetBlocks(numbers);
      if fetched.Err? {
        return Err(fetched.error);
      }
      var ok, byNumber, headers := UniqueHeaders(fetched.value);
      if !ok {
        return Err(InconsistentBlockData);
      }
      if exists n :: n in numbers && n !in byNumber {
        return Err(InconsistentBlockData);
      }
      assert forall n :: n in byNumber ==> byNumber[n] in headers;
      return Ok((byNumber, headers));
    }

    /** The links a batch must have at its two ends. */
    method CheckLinks(byNumber: map<nat, Header>, from: nat, through: nat, prior: Option<Header>)
      returns (o: Outcome<Code>)
      requires from in byNumber && through in byNumber && (through > 0 ==> through - 1 in byNumber)
      requires forall n :: n in byNumber ==> n < |rpc.chain| && byNumber[n] == HeaderAt(rpc.chain, n)
      ensures o.Pass? ==> through == 0 || byNumber[through].parent == byNumber[through - 1].hash
      ensures o.Pass? && prior.Some? && from == prior.value.number + 1 ==> byNumber[from].parent == prior.value.hash
    {
      if prior.Some? && from == prior.value.number + 1 && byNumber[from].parent != prior.value.hash {
        return Fail(InconsistentBlockData);
      }
      assert through == 0 || byNumber[through].parent == byNumber[through - 1].hash;
      o := Require(through == 0 || byNumber[through].parent == byNumber[through - 1].hash, InconsistentBlockData);
    }

    method BuildBatch(from: nat, through: nat, prior: Option<Header>) returns (r: Result<Batch, Code>)
      requires rpc.Valid() && ValidConfig(store.cfg) && from <= through
      modifies rpc`pending, rpc`patience
      ensures r.Ok? ==> r.value.through.number == through && BatchOf(r.value, store.cfg, model, rpc.chain, from)
    {
      hide TotalOrder, Clean, IndexOf, SortedEvents, Monotone;
      var identity := AssertRpcIdentity(through);
      if identity.Fail? {
        return Err(identity.error);
      }
      var collected := CollectRangeEvents(from, through);
      if collected.Err? {
        return Err(collected.error);
      }
      var fetched := BatchHeaders(from, through, collected.value);
      if fetched.Err? {
        return Err(fetched.error);
      }
      var (byNumber, headers) := fetched.value;
      var linked := CheckLinks(byNumber, from, through, prior);
      if linked.Fail? {
        return Err(linked.error);
      }
      var rows := DecodeEvents(collected.value, byNumber, from, through + 1);
      if rows.Err? {
        return Err(rows.error);
      }
      var revalidated := rpc.GetBlock(through);
      if revalidated.Err? {
        return Err(revalidated.error);
      }
      assert revalidated.value == byNumber[through];
      var stable := Require(revalidated.value == byNumber[through], InconsistentBlockData);
      if stable.Fail? {
        return Err(stable.error);
      }
      return Ok(Batch(revalidated.value, headers, rows.value));
    }

    // ----- reorganisations

    /** The first candidate, highest block first, that the live chain still contains. */
    method FindAncestor(candidates: seq<Header>, live: map<nat, Header>) returns (ancestor: Option<Header>)
      ensures ancestor.Some? ==> ancestor.value in candidates && ancestor.value.number in live
                                 && live[ancestor.value.number].hash == ancestor.value.hash
      requires forall i, j :: 0 <= i < j < |candidates| ==> candidates[i].number >= candidates[j].number
      ensures forall c :: c in candidates && c.number in live && live[c.number].hash == c.hash ==>
                ancestor.Some? && c.number <= ancestor.value.number
    {
      for k := 0 to |candidates|
        invariant forall i :: 0 <= i < k && candidates[i].number in live ==>
                    live[candidates[i].number].hash != candidates[i].hash
      {
        var c := candidates[k];
        if c.number in live && live[c.number].hash == c.hash {
          return Some(c);
        }
      }
      return None;
    }

    /** Afterwards whatever the tables hold belongs to the live chain. */
    method RecoverReorg() returns (o: Outcome<Code>)
      requires Ready()
      modifies store
      ensures Ready()
      ensures o.Pass? ==> CursorOn(store.Tables(), rpc.chain)
      ensures o.Pass? && CursorOn(old(store.Tables()), rpc.chain) ==> store.Tables() == old(store.Tables())
      ensures store.state.source == old(store.state.source) || (store.state.source.None? && store.state.cursor.None?)
      ensures Recorded(old(store.Tables()), old(store.resets))
    {
      hide Anchored, ValidConfig, BelowSource.Reaches;
      BelowSource.ReachesItself(store.Tables(), store.cfg);
      if store.state.cursor.None? {
        return Pass;
      }
      CursorIsTip(store.Tables(), store.cfg);
      var cursor := store.state.cursor.value;
      var live := rpc.GetBlock(cursor.block);
      if live.Err? {
        return Fail(live.error);
      }
      if live.value.hash == cursor.hash {
        if cursor.block > 0 && cursor.block - 1 in store.blocks {
          CursorHeader(store.Tables(), store.cfg, rpc.chain);
          assert live.value.parent == store.blocks[cursor.block - 1].hash;
          o := Require(live.value.parent == store.blocks[cursor.block - 1].hash, InconsistentBlockData);
        } else {
          o := Pass;
        }
        return;
      }
      ghost var before := store.Tables();
      store.SetState(Reorging, None);
      AnchoredElsewhere(before, store.Tables(), store.cfg);
      ghost var marked := store.Tables();
      BelowSource.ReachesByMove(before, BelowSource.MarkStatus(Reorging, None), marked, store.cfg);
      ghost var recent, answered;
      o, recent, answered := RollBackToAncestor();
      BelowSource.ReachesCounted(before, marked, store.Tables(), store.cfg, old(store.resets), old(store.resets),
                                 store.resets);
    }

    /** Gives up no block that a recent retained header and the provider's answer still vouch for. */
    method RollBackToAncestor() returns (o: Outcome<Code>, ghost recent: seq<Header>, ghost answered: map<nat, Header>)
      requires Ready() && store.state.cursor.Some? && !CursorOn(store.Tables(), rpc.chain)
      modifies store
      ensures Ready()
      ensures Highest(recent, old(store.blocks), reorgWindowBlocks)
      ensures o.Pass? ==> CursorOn(store.Tables(), rpc.chain)
      ensures o.Pass? ==> forall h :: h in recent && h.number in answered && answered[h.number].hash == h.hash ==>
                store.state.cursor.Some? && h.number <= store.state.cursor.value.block
      ensures store.state.source == old(store.state.source) || (store.state.source.None? && store.state.cursor.None?)
      ensures Recorded(old(store.Tables()), old(store.resets))
    {
      hide Anchored, ValidConfig, Highest, BelowSource.Reaches, BelowSource.Takes;
      ghost var before := store.Tables();
      BelowSource.ReachesItself(before, store.cfg);
      var found: Result<Option<Header>, Code>;
      found, recent, answered := AskForAncestor();
      if found.Err? {
        return Fail(found.error), recent, answered;
      }
      if found.value.None? {
        store.Reset();
        ResetAnchored(before, store.cfg, model);
        BelowSource.ReachesByReset(before, model, store.Tables(), store.cfg);
        return Pass, recent, answered;
      }
      o := RollBackOnto(found.value.value);
    }

    /** The highest recent retained header that the provider's answer vouches for, if any. */
    method AskForAncestor()
      returns (r: Result<Option<Header>, Code>, ghost recent: seq<Header>, ghost answered: map<nat, Header>)
      requires Ready()
      ensures Highest(recent, store.blocks, reorgWindowBlocks)
      ensures r.Ok? && r.value.Some? ==>
                var h := r.value.value;
                && h.number in store.blocks && store.blocks[h.number] == h
                && h.number < |rpc.chain| && h.hash == HeaderAt(rpc.chain, h.number).hash
      ensures r.Ok? ==> forall h :: h in recent && h.number in answered && answered[h.number].hash == h.hash ==>
                r.value.Some? && h.number <= r.value.value.number
    {
      hide Anchored, ValidConfig, Highest, Monotone;
      BlocksAreKeyed(store.Tables(), store.cfg);
      var candidates := store.RecentHeadersDescending(reorgWindowBlocks);
      HighestFacts(candidates, store.blocks, reorgWindowBlocks);
      recent, answered := candidates, map[];
      var fetched := rpc.GetBlocks(NumbersOf(candidates));
      if fetched.Err? {
        return Err(fetched.error), recent, answered;
      }
      var live := ByNumber(fetched.value);
      answered := live;
      var ancestor := FindAncestor(candidates, live);
      return Ok(ancestor), recent, answered;
    }

    /** Rolls back onto a retained header that the live chain shares. */
    method RollBackOnto(ancestor: Header) returns (o: Outcome<Code>)
      requires Ready() && store.state.cursor.Some?
      requires ancestor.number in store.blocks && store.blocks[ancestor.number] == ancestor
      requires ancestor.number < |rpc.chain| && ancestor.hash == HeaderAt(rpc.chain, ancestor.number).hash
      requires !CursorOn(store.Tables(), rpc.chain)
      modifies store
      ensures Ready() && store.state.source == old(store.state.source)
      ensures o.Pass? ==> store.state.cursor == Some(PointOf(ancestor)) && CursorOn(store.Tables(), rpc.chain)
      ensures store.resets == old(store.resets) && Recorded(old(store.Tables()), old(store.resets))
    {
      hide Anchored, ValidConfig, BelowSource.Reaches;
      ghost var before := store.Tables();
      BelowSource.ReachesItself(before, store.cfg);
      RollbackAnchored(before, store.cfg, ancestor.number);
      o := store.Rollback(ancestor.number);
      if o.Pass? {
        BelowSource.ReachesByMove(before, BelowSource.RollBack(ancestor.number, rpc.chain), store.Tables(), store.cfg);
      }
    }

    // ----- the source boundary

    /** Chooses a boundary on the live chain that is early enough, on an index that has none. */
    method ChooseSource(required: nat, initialHead: nat) returns (o: Outcome<Code>)
      requires Ready() && store.state.source.None?
      modifies store
      ensures Ready() && store.state.cursor.None?
      ensures o.Pass? ==> store.state.source.Some? && store.state.source.value.required == required
      ensures o.Pass? ==> store.state.source.value.at.block < |rpc.chain|
      ensures o.Pass? ==> IsBoundary(HeaderAt(rpc.chain, store.state.source.value.at.block), rpc.chain,
                                     store.cfg.deploymentBlock, initialHead, required)
      ensures o.Pass? ==> Recorded(old(store.Tables()), old(store.resets))
      ensures o.Fail? ==> store.Tables() == old(store.Tables())
      ensures store.resets == old(store.resets)
    {
      hide BelowSource.Reaches;
      var found := FindBlockAtOrBeforeTimestamp(rpc, store.cfg.deploymentBlock, initialHead, required, map[]);
      if found.Err? {
        return Fail(found.error);
      }
      var h := found.value.0;
      if h.timestamp > required {
        return Fail(InsufficientHistory);
      }
      o := AssertRpcIdentity(h.number);
      if o.Fail? {
        return;
      }
      ghost var before := store.Tables();
      if RetainHeaders(before, [h]).Ok? {
        SourceAnchored(before, store.cfg, rpc.chain, h.number, required);
      }
      o := store.Retain([h]);
      if o.Fail? {
        return;
      }
      store.SetSource(Source(PointOf(h), required));
      BelowSource.ReachesByMove(before, BelowSource.Choose(rpc.chain, initialHead, h.number, required), store.Tables(),
                                store.cfg);
    }

    // ----- catching up

    /** Commits range after range until the cursor has reached the target. */
    method CatchUp(target: nat) returns (o: Outcome<Code>)
      requires Ready() && store.state.source.Some? && CursorOn(store.Tables(), rpc.chain)
      modifies store, rpc`pending, rpc`patience
      ensures Ready() && store.state.source == old(store.state.source)
      ensures CursorOn(store.Tables(), rpc.chain)
      ensures o.Pass? && store.state.cursor.Some? ==> target <= store.state.cursor.value.block
      ensures store.resets == old(store.resets) && Recorded(old(store.Tables()), old(store.resets))
    {
      hide Anchored, ValidConfig, BatchOf, BelowSource.Reaches, BelowSource.Takes;
      ghost var initial, resets := store.Tables(), store.resets;
      BelowSource.ReachesItself(initial, store.cfg);
      var source := store.state.source.value.at.block;
      var start := if store.state.cursor.None? then source else store.state.cursor.value.block + 1;
      while start <= target
        invariant Ready() && store.state.source == old(store.state.source)
        invariant CursorOn(store.Tables(), rpc.chain) && NextStart(store.Tables(), start)
        invariant store.resets == resets && BelowSource.Reaches(initial, store.Tables(), store.cfg, true)
        decreases target + 1 - start
      {
        var through := if start + maxRangeBlocks - 1 <= target then start + maxRangeBlocks - 1 else target;
        var prior: Option<Header> := None;
        if start > source {
          PriorRetained(store.Tables(), store.cfg, start);
          assert start - 1 in store.blocks;
          o := Require(start - 1 in store.blocks, IndexCorrupt);
          if o.Fail? {
            return;
          }
          prior := Some(store.blocks[start - 1]);
        }
        var batch := BuildBatch(start, through, prior);
        if batch.Err? {
          return Fail(batch.error);
        }
        ghost var before := store.Tables();
        o := store.Commit(batch.value);
        if o.Fail? {
          return;
        }
        CommitAnchored(before, batch.value, store.Tables(), store.cfg, rpc.chain, start);
        BelowSource.ReachesByCommit(initial, before, batch.value, rpc.chain, store.Tables(), store.cfg);
        start := through + 1;
      }
      return Pass;
    }

    method WindowLinked(headers: seq<Header>) returns (ok: bool)
      ensures ok ==> forall i :: 0 < i < |headers| ==> headers[i].parent == headers[i - 1].hash
    {
      var i := 1;
      while i < |headers|
        invariant i >= 1
        invariant forall k :: 0 < k < i && k < |headers| ==> headers[k].parent == headers[k - 1].hash
      {
        if headers[i].parent != headers[i - 1].hash || headers[i].timestamp < headers[i - 1].timestamp {
          return false;
        }
        i := i + 1;
      }
      return true;
    }

    /** Keeps the headers a later fork will be traced through. */
    method RetainDenseCursorWindow() returns (o: Outcome<Code>)
      requires Ready() && CursorOn(store.Tables(), rpc.chain)
      modifies store
      ensures Ready() && store.state == old(store.state)
      ensures o.Pass? ==> DenseWindow(store.Tables(), reorgWindowBlocks)
      ensures store.resets == old(store.resets) && Recorded(old(store.Tables()), old(store.resets))
    {
      hide Anchored, ValidConfig, BelowSource.Reaches;
      BelowSource.ReachesItself(store.Tables(), store.cfg);
      if store.state.cursor.None? || store.state.source.None? {
        return Pass;
      }
      var source, cursor := store.state.source.value.at.block, store.state.cursor.value.block;
      var from := if source <= cursor - reorgWindowBlocks + 1 then cursor - reorgWindowBlocks + 1 else source;
      var numbers := BlockRange(from, cursor);
      var fetched := rpc.GetBlocks(numbers);
      if fetched.Err? {
        return Fail(fetched.error);
      }
      var ok, table, headers := UniqueHeaders(fetched.value);
      if !ok || |headers| != |numbers| {
        return Fail(InconsistentBlockData);
      }
      ok := WindowLinked(headers);
      if !ok {
        return Fail(InconsistentBlockData);
      }
      o := RetainOnCursor(headers);
      if o.Pass? {
        WindowRetained(headers, from, cursor, store.blocks);
      }
    }

    /** Retaining headers of the live chain at or below the cursor. */
    method RetainOnCursor(headers: seq<Header>) returns (o: Outcome<Code>)
      requires Ready() && store.state.cursor.Some? && CursorOn(store.Tables(), rpc.chain)
      requires forall h :: h in headers ==> OnChainHeader(h, rpc.chain) && h.number <= store.state.cursor.value.block
      modifies store
      ensures Ready() && store.state == old(store.state)
      ensures o.Pass? ==> forall h :: h in headers ==> h.number in store.blocks
      ensures store.resets == old(store.resets) && Recorded(old(store.Tables()), old(store.resets))
    {
      hide Anchored, ValidConfig, BelowSource.Reaches, UpsertAll;
      ghost var before, c := store.Tables(), store.state.cursor.value;
      CursorIsTip(before, store.cfg);
      forall h | h in headers ensures h.number < |c.hash| && h == HeaderAt(c.hash, h.number) {
        HeaderOfPrefix(rpc.chain, |c.hash|, h.number);
      }
      if RetainHeaders(before, headers).Ok? {
        RetainAnchored(before, headers, store.cfg);
        UpsertAllResult(before.blocks, headers);
      }
      o := store.Retain(headers);
      BelowSource.ReachesItself(before, store.cfg);
      if o.Pass? {
        BelowSource.ReachesByMove(before, BelowSource.RetainOnHistory(headers), store.Tables(), store.cfg);
      }
    }

    // ----- publication

    /** The cursor, its parent, the visible head and its parent, as the provider reports them. */
    method BoundaryHeaders(c: Point) returns (r: Result<seq<Header>, Code>)
      requires rpc.Valid()
      modifies rpc`head
      ensures rpc.Valid() && old(rpc.head) <= rpc.head
      ensures r.Ok? ==> 0 < c.block <= rpc.head && HeaderAt(rpc.chain, c.block).hash == c.hash
      ensures r.Ok? ==> r.value == [HeaderAt(rpc.chain, c.block - 1), HeaderAt(rpc.chain, c.block),
                                    HeaderAt(rpc.chain, rpc.head - 1), HeaderAt(rpc.chain, rpc.head)]
    {
      var indexed := rpc.GetBlock(c.block);
      if indexed.Err? {
        return Err(indexed.error);
      }
      if indexed.value.hash != c.hash {
        return Err(InconsistentBlockData);
      }
      var parent := rpc.GetBlock(c.block - 1);
      if parent.Err? {
        return Err(parent.error);
      }
      assert indexed.value.parent == parent.value.hash;
      var linked := Require(indexed.value.parent == parent.value.hash, InconsistentBlockData);
      if linked.Fail? {
        return Err(linked.error);
      }
      var headNumber := rpc.GetBlockNumber();
      if headNumber.Err? {
        return Err(headNumber.error);
      }
      assert headNumber.value >= c.block;
      var ahead := Require(headNumber.value >= c.block, InconsistentBlockData);
      if ahead.Fail? {
        return Err(ahead.error);
      }
      var head := rpc.GetBlock(headNumber.value);
      if head.Err? {
        return Err(head.error);
      }
      var headParent := rpc.GetBlock(headNumber.value - 1);
      if headParent.Err? {
        return Err(headParent.error);
      }
      assert head.value.parent == headParent.value.hash;
      linked := Require(head.value.parent == headParent.value.hash, InconsistentBlockData);
      if linked.Fail? {
        return Err(linked.error);
      }
      return Ok([parent.value, indexed.value, headParent.value, head.value]);
    }

    /** Puts the snapshot together from the tables and the four boundary headers. */
    method Assemble(boundary: seq<Header>) returns (r: Result<PublicSnapshot, Code>)
      requires Ready() && store.state.cursor.Some? && CursorOn(store.Tables(), rpc.chain)
      requires SourceRetained(store.Tables())
      requires 0 < store.state.cursor.value.block <= rpc.head
      requires var c := store.state.cursor.value.block;
               boundary == [HeaderAt(rpc.chain, c - 1), HeaderAt(rpc.chain, c),
                            HeaderAt(rpc.chain, rpc.head - 1), HeaderAt(rpc.chain, rpc.head)]
      ensures r.Ok? ==> Assembled(r.value, store.Tables(), store.cfg, rpc.chain, rpc.head) && WellKinded(r.value)
    {
      hide Anchored, ValidConfig, Refers, Carries, Lists, Mentioned;
      ghost var db := store.Tables();
      BlocksAreKeyed(db, store.cfg);
      SourceHeader(db, store.cfg, rpc.chain);
      var deposits, withdrawn, registrations := store.LoadObservations();
      var references := store.BlockReferences(boundary);
      if references.Err? {
        return Err(references.error);
      }
      var source := store.state.source.value;
      var sourceHeader, parent, indexed, head := store.blocks[source.at.block], boundary[0], boundary[1], boundary[3];
      var facts := SnapshotFacts(
        store.cfg.chainId, store.cfg.pool, store.cfg.classHash, store.cfg.abiVersion,
        PointOf(indexed), PointOf(indexed), PointOf(head), PointOf(sourceHeader),
        source.required, sourceHeader.timestamp <= source.required, true,
        parent.number, parent.hash, indexed.parent, model, POLICY_VERSION);
      var selectors :=
        if model == V14 then
          [store.cfg.depositSelector, store.cfg.withdrawalSelector, store.cfg.registrationSelector]
        else [store.cfg.depositSelector, store.cfg.registrationSelector];
      var s := PublicSnapshot(facts, selectors, references.value, deposits,
                              if model == V14 then Some(withdrawn) else None, registrations);
      RefersExactly(references.value, boundary, db, rpc.chain, rpc.head);
      CarriesAll(s, db, store.cfg, withdrawn);
      StoredSourceHeader(db, store.cfg, rpc.chain);
      return Ok(s);
    }

    /** Publishes only what the validator accepts at the present time. */
    method FinalizeSnapshot() returns (r: Result<(PublicSnapshot, nat), Code>)
      requires Ready() && CursorOn(store.Tables(), rpc.chain)
      modifies store, rpc`head, clock
      ensures Ready() && store.state.source == old(store.state.source) && store.state.cursor == old(store.state.cursor)
      ensures CursorOn(store.Tables(), rpc.chain) && old(rpc.head) <= rpc.head && old(clock.time) <= clock.time
      ensures r.Ok? ==> Published(r.value.0, r.value.1) && ServesPool()
      ensures store.resets == old(store.resets) && Recorded(old(store.Tables()), old(store.resets))
    {
      hide Assembled, Anchored, ValidConfig, PersistSnapshot, CanonicalJson, Structural, Timely, SourceRetained;
      hide BelowSource.Reaches;
      ghost var initial := store.Tables();
      BelowSource.ReachesItself(initial, store.cfg);
      if store.state.cursor.None? || store.state.source.None? {
        return Err(InsufficientHistory);
      }
      var c := store.state.cursor.value;
      var boundary := BoundaryHeaders(c);
      if boundary.Err? {
        return Err(boundary.error);
      }
      var identity := AssertRpcIdentity(rpc.head);
      if identity.Fail? {
        return Err(identity.error);
      }
      var retained := RetainOnCursor(boundary.value[..2]);
      if retained.Fail? {
        return Err(retained.error);
      }
      if !SourceRetained(store.Tables()) {
        return Err(IndexCorrupt);
      }
      var assembled := Assemble(boundary.value);
      if assembled.Err? {
        return Err(assembled.error);
      }
      var s := assembled.value;
      var accepted := CheckSnapshot(s);
      if accepted.Err? {
        return Err(DataLayerCode(accepted.error));
      }
      ghost var complete := store.Tables();
      var hash := Publish(s, accepted.value);
      BelowSource.ReachesCounted(initial, complete, store.Tables(), store.cfg, store.resets, store.resets, store.resets);
      return Ok((s, hash));
    }

    /**
     Validates the snapshot at the present time. When the horizon is met and no row lies below the source,
     it can be refused only for its age, for the lag behind the provider, or for a clock behind the chain.
     */
    method CheckSnapshot(s: PublicSnapshot) returns (r: Result<nat, Rejection>)
      requires Ready() && WellKinded(s) && Assembled(s, store.Tables(), store.cfg, rpc.chain, rpc.head)
      modifies clock
      ensures Ready() && old(clock.time) <= clock.time
      ensures r.Ok? ==> Structural(s, Evaluation(s.facts.observed.block, r.value), store.cfg)
      ensures r.Ok? ==> Timely(s.facts, r.value)
      ensures s.facts.requiredFromTimestamp <= old(clock.time) - OBSERVATION_SECONDS ==>
                NoRowBelow(store.Tables(), s.facts.sourceFrom.block) && r.Err? ==> IsTimeliness(r.error)
    {
      hide ValidConfig, Structural, Timely, Anchored, NoRowBelow, WellKinded;
      var time := clock.Now();
      var age := ValidateSnapshot(s, Evaluation(s.facts.observed.block, time), store.cfg);
      if s.facts.requiredFromTimestamp <= old(clock.time) - OBSERVATION_SECONDS {
        ProducerMeetsValidator(s, store.Tables(), store.cfg, rpc.chain, rpc.head, time);
      }
      if age.Err? {
        return Err(age.error);
      }
      return Ok(time);
    }

    /** The provider serves the reviewed pool on the configured chain, up to its visible head. */
    predicate ServesPool()
      reads rpc
    {
      rpc.chainId == store.cfg.chainId && rpc.classAt(rpc.head) == store.cfg.classHash
    }

    ghost predicate Published(s: PublicSnapshot, hash: nat)
      reads this, store, rpc
    {
      PublishedAs(store.Tables(), store.cfg, store.digest, rpc.chain, rpc.head, s, hash)
    }

    method Publish(s: PublicSnapshot, time: nat) returns (hash: nat)
      requires Ready() && Assembled(s, store.Tables(), store.cfg, rpc.chain, rpc.head)
      requires Structural(s, Evaluation(s.facts.observed.block, time), store.cfg) && Timely(s.facts, time)
      modifies store, clock
      ensures old(clock.time) <= clock.time
      ensures Ready() && store.state.source == old(store.state.source) && store.state.cursor == old(store.state.cursor)
      ensures Published(s, hash)
      ensures store.resets == old(store.resets) && Recorded(old(store.Tables()), old(store.resets))
    {
      hide ValidConfig, CanonicalJson, Canonical, LoadComplete, Structural, Timely, Anchored, NoRowBelow;
      hide BelowSource.Reaches, Assembled, Filter, Take, OtherThan, NewestFirst;
      ghost var before := store.Tables();
      SoundMeansNoneBelow(s, before, store.cfg, rpc.chain, rpc.head, time);
      var now := clock.Now();
      hash := store.Persist(s, now);
      PersistedIsLoaded(before, store.cfg, store.digest, s, now);
      BelowSource.ReachesByMove(before, BelowSource.Publish(RowFor(store.cfg, store.digest, s, now)), store.Tables(),
                                store.cfg);
      AnchoredElsewhere(before, store.Tables(), store.cfg);
      AssembledElsewhere(s, before, store.Tables(), store.cfg, rpc.chain, rpc.head);
    }

    // ----- the attempt

    ghost predicate Open()
      reads this, rpc, store
    {
      Configured() && rpc.Valid() && ValidConfig(store.cfg) && Anchored(store.Tables(), store.cfg)
    }

    method Attempt(required: nat) returns (r: Result<(PublicSnapshot, nat), Code>)
      requires Ready() && required <= MAX_SAFE_INTEGER
      modifies store, rpc, clock
      ensures Ready() && old(clock.time) <= clock.time
      ensures r.Ok? ==> Published(r.value.0, r.value.1) && ServesPool()
      ensures r.Ok? ==> old(rpc.head) <= store.state.cursor.value.block && store.state.source.value.required <= required
      ensures Recorded(old(store.Tables()), old(store.resets))
      decreases store.state.source.Some?, 0
    {
      hide Anchored, ValidConfig, Assembled, NoRowBelow, CanonicalJson, BelowSource.Reaches;
      BelowSource.ReachesItself(store.Tables(), store.cfg);
      var initialHead := rpc.GetBlockNumber();
      if initialHead.Err? {
        return Err(initialHead.error);
      }
      var o := AssertRpcIdentity(initialHead.value);
      if o.Fail? {
        return Err(o.error);
      }
      o := RecoverReorg();
      if o.Fail? {
        return Err(o.error);
      }
      ghost var initial, count := old(store.Tables()), old(store.resets);
      ghost var before, seen := store.Tables(), store.resets;
      if store.state.source.None? {
        o := ChooseSource(required, initialHead.value);
        if o.Fail? {
          return Err(o.error);
        }
        BelowSource.ReachesCounted(initial, before, store.Tables(), store.cfg, count, seen, store.resets);
      } else if store.state.source.value.required > required {
        store.Reset();
        ResetAnchored(before, store.cfg, model);
        ghost var cleared, after := store.Tables(), store.resets;
        BelowSource.ReachesByMove(before, BelowSource.Reset(model), cleared, store.cfg);
        BelowSource.ReachesCounted(initial, before, cleared, store.cfg, count, seen, after);
        r := SyncOnce(required);
        BelowSource.ReachesCounted(initial, cleared, store.Tables(), store.cfg, count, after, store.resets);
        return;
      }
      r := Continue(initial, count);
    }

    /** From a source on: catching up, retaining the window, publishing. */
    method Continue(ghost initial: Db, ghost count: nat) returns (r: Result<(PublicSnapshot, nat), Code>)
      requires Ready() && store.state.source.Some? && CursorOn(store.Tables(), rpc.chain) && Recorded(initial, count)
      modifies store, rpc, clock
      ensures Ready() && old(clock.time) <= clock.time && store.state.source == old(store.state.source)
      ensures r.Ok? ==> Published(r.value.0, r.value.1) && ServesPool()
      ensures r.Ok? ==> old(rpc.head) <= store.state.cursor.value.block
      ensures Recorded(initial, count)
    {
      hide Anchored, ValidConfig, Assembled, NoRowBelow, CanonicalJson, BelowSource.Reaches;
      var target := rpc.GetBlockNumber();
      if target.Err? {
        return Err(target.error);
      }
      ghost var before, resets := store.Tables(), store.resets;
      var o := CatchUp(target.value);
      BelowSource.ReachesCounted(initial, before, store.Tables(), store.cfg, count, resets, resets);
      if o.Fail? {
        return Err(o.error);
      }
      before := store.Tables();
      o := RetainDenseCursorWindow();
      BelowSource.ReachesCounted(initial, before, store.Tables(), store.cfg, count, resets, resets);
      if o.Fail? {
        return Err(o.error);
      }
      before := store.Tables();
      r := FinalizeSnapshot();
      BelowSource.ReachesCounted(initial, before, store.Tables(), store.cfg, count, resets, resets);
    }

    /**
     Whatever the tables hold when the attempt starts, they hold the index of one history when it ends. On
     success that history is the live chain, indexed at least as far as the head seen at the start.
     */
    method SyncOnce(required: int) returns (r: Result<(PublicSnapshot, nat), Code>)
      requires Open()
      modifies store, rpc, clock
      ensures old(clock.time) <= clock.time
      ensures Open() && (0 <= required <= MAX_SAFE_INTEGER ==> Ready())
      ensures r.Ok? ==> Published(r.value.0, r.value.1) && ServesPool()
      ensures r.Ok? ==> old(rpc.head) <= store.state.cursor.value.block && store.state.source.value.required <= required
      ensures 0 <= required <= MAX_SAFE_INTEGER && r.Err? ==>
                && store.state.status == Failed && store.state.lastError == Some(r.error)
                && (store.state.active.Some? ==> r.error == RpcUnavailable)
      ensures required < 0 || required > MAX_SAFE_INTEGER ==>
                r == Err(InsufficientHistory) && store.Tables() == old(store.Tables())
      ensures Recorded(old(store.Tables()), old(store.resets))
      decreases store.state.source.Some?, 1
    {
      hide Anchored, ValidConfig, Assembled, NoRowBelow, CanonicalJson, BelowSource.Reaches;
      BelowSource.ReachesItself(store.Tables(), store.cfg);
      if required < 0 || required > MAX_SAFE_INTEGER {
        return Err(InsufficientHistory);
      }
      Begin();
      ghost var begun, count := store.Tables(), store.resets;
      r := Attempt(required);
      BelowSource.ReachesCounted(old(store.Tables()), begun, store.Tables(), store.cfg, old(store.resets), count,
                                 store.resets);
      if r.Err? {
        ghost var after, resets := store.Tables(), store.resets;
        store.SetState(Failed, Some(r.error));
        AnchoredElsewhere(after, store.Tables(), store.cfg);
        BelowSource.ReachesByMove(after, BelowSource.MarkStatus(Failed, Some(r.error)), store.Tables(), store.cfg);
        BelowSource.ReachesCounted(old(store.Tables()), after, store.Tables(), store.cfg, old(store.resets), resets,
                                   resets);
      }
    }

    /** The model version is made sure of and the status says that an attempt is under way. */
    method Begin()
      requires Open()
      modifies store
      ensures Ready()
      ensures store.Tables() == SetStatus(EnsureModelVersion(old(store.Tables()), model), Syncing, None)
      ensures store.resets == old(store.resets) + if old(store.state.model) == model then 0 else 1
      ensures Recorded(old(store.Tables()), old(store.resets))
    {
      hide Anchored, ValidConfig, BelowSource.Reaches;
      ghost var found, count := store.Tables(), store.resets;
      store.EnsureModel(model);
      ResetAnchored(found, store.cfg, model);
      ghost var before, after := store.Tables(), store.resets;
      BelowSource.ReachesItself(found, store.cfg);
      if found.state.model != model {
        BelowSource.ReachesByMove(found, BelowSource.Reset(model), before, store.cfg);
      }
      store.SetState(Syncing, None);
      AnchoredElsewhere(before, store.Tables(), store.cfg);
      BelowSource.ReachesByMove(before, BelowSource.MarkStatus(Syncing, None), store.Tables(), store.cfg);
      BelowSource.ReachesCounted(found, before, store.Tables(), store.cfg, count, after, after);
    }
  }

  /** An index with an event below its source is published again only after a reset. */
  lemma FreedOnlyByReset(indexer: IncrementalPublicIndexer, before: Db, resets: nat, s: PublicSnapshot, hash: nat,
                         r: nat)
    requires ValidConfig(indexer.store.cfg) && Anchored(before, indexer.store.cfg)
    requires BelowSource.Stuck(before, indexer.store.cfg, r)
    requires indexer.Recorded(before, resets) && indexer.Published(s, hash)
    ensures resets < indexer.store.resets
  {
    hide Anchored, ValidConfig, BelowSource.Stuck, BelowSource.Reaches, NoRowBelow, SourceRetained, Carries, Refers;
    if indexer.store.resets == resets {
      BelowSource.QuietlyStuck(before, indexer.store.Tables(), indexer.store.cfg, r);
    }
  }

  function HeaderNumbers(from: nat, through: nat, events: seq<RawEvent>): (numbers: seq<nat>)
    ensures from in numbers && through in numbers && (through > 0 ==> through - 1 in numbers)
    ensures forall n :: n in numbers ==>
              n == from || n == through || n == through - 1 || exists i :: 0 <= i < |events| && events[i].block == n
  {
    var parent := if through > 0 then [through - 1] else [];
    var ends := [from, through] + parent;
    assert ends[0] == from && ends[1] == through && (through > 0 ==> ends[2] == through - 1);
    ends + Map(events, BlockOf())
  }

  /** Where two headers share a number the later one counts. */
  function ByNumber(headers: seq<Header>): (table: map<nat, Header>)
    ensures forall n :: n in table ==> table[n] in headers && table[n].number == n
  {
    if headers == [] then map[]
    else
      var last := headers[|headers| - 1];
      ByNumber(headers[..|headers| - 1])[last.number := last]
  }

  function NumbersOf(headers: seq<Header>): seq<nat> {
    seq(|headers|, i requires 0 <= i < |headers| => headers[i].number)
  }

  /** Every block of the last so many up to the cursor is retained, as far down as the source. */
  ghost predicate DenseWindow(db: Db, window: nat) {
    db.state.cursor.Some? && db.state.source.Some? ==>
      forall n: nat :: db.state.source.value.at.block <= n <= db.state.cursor.value.block < n + window ==> n in db.blocks
  }

  /** As many ascending numbers as a range has leave no gap in it. */
  lemma {:induction false} RangeIsFull(headers: seq<Header>, from: nat)
    requires Ascending(headers)
    requires forall i :: 0 <= i < |headers| ==> from <= headers[i].number < from + |headers|
    ensures forall i :: 0 <= i < |headers| ==> headers[i].number == from + i
    decreases |headers|
  {
    if headers != [] {
      var last, init := |headers| - 1, headers[..|headers| - 1];
      assert forall i :: 0 <= i < last ==> headers[i].number < headers[last].number;
      RangeIsFull(init, from);
      assert last > 0 ==> init[last - 1].number == from + last - 1;
    }
  }

  function BlockRange(from: nat, through: nat): (numbers: seq<nat>)
    ensures |numbers| == if from <= through then through - from + 1 else 0
    ensures forall n :: n in numbers ==> from <= n <= through
  {
    seq(if from <= through then through - from + 1 else 0, i requires 0 <= i => from + i)
  }

  lemma WindowRetained(headers: seq<Header>, from: nat, through: nat, blocks: map<nat, Header>)
    requires Ascending(headers) && |headers| == |BlockRange(from, through)|
    requires forall h :: h in headers ==> h.number in BlockRange(from, through) && h.number in blocks
    ensures forall n :: from <= n <= through ==> n in blocks
  {
    forall i | 0 <= i < |headers| ensures from <= headers[i].number < from + |headers| {
      assert headers[i] in headers;
    }
    RangeIsFull(headers, from);
    forall n | from <= n <= through ensures n in blocks {
      assert headers[n - from] in headers;
    }
  }

  /** Past the source block a batch continues the cursor, whose header is retained. */
  lemma PriorRetained(db: Db, cfg: Config, start: nat)
    requires Anchored(db, cfg) && NextStart(db, start) && start > db.state.source.value.at.block
    ensures start - 1 in db.blocks
  {
  }

  lemma CursorIsTip(db: Db, cfg: Config)
    requires Anchored(db, cfg) && db.state.cursor.Some?
    ensures |db.state.cursor.value.hash| == db.state.cursor.value.block + 1
    ensures db.state.source.Some?
  {
  }
}
