/** The one-shot ingestion: a whole bounded source read in one go, without a database. */
module Ingest {

  import opened Wrappers
  import opened EngineTypes
  import opened Sequences
  import opened Sorting
  import opened Chain
  import opened PoolEvents
  import opened Index
  import opened Snapshots
  import opened Freshness
  import opened Store
  import opened Provider
  import opened Collecting
  import opened BoundarySearch
  import opened Publication
  import opened Preflight
  import opened PreflightTheorems
  import opened History
  import opened OneShot

  datatype Fault =
    | ProviderFault(code: Code)
    | Undecodable(error: DecodeError)
    | Faulty(reason: Rejection)

  function SelectorOfRaw(raw: RawEvent): nat {
    if raw.keys == [] then 0 else raw.keys[0]
  }

  /** Block, transaction, selector, and then the order of arrival. */
  function EventOrder(cfg: Config): (Collected, Collected) -> bool {
    (x: Collected, y: Collected) =>
      if x.raw.block != y.raw.block then x.raw.block < y.raw.block
      else if x.raw.tx != y.raw.tx then cfg.feltOrder(x.raw.tx, y.raw.tx)
      else if SelectorOfRaw(x.raw) != SelectorOfRaw(y.raw) then cfg.feltOrder(SelectorOfRaw(x.raw), SelectorOfRaw(y.raw))
      else x.sourceOrdinal <= y.sourceOrdinal
  }

  /** One selector over the whole source, range by range. */
  method CollectSelectorEvents(rpc: PublicRpc, cfg: Config, selector: nat, from: nat, through: nat, first: nat,
                               maxRangeBlocks: nat)
    returns (r: Result<seq<Collected>, Fault>)
    requires rpc.Valid() && maxRangeBlocks > 0 && from <= through < |rpc.chain|
    modifies rpc`pending, rpc`patience
    ensures r.Ok? ==> through <= rpc.head
    ensures r.Ok? ==> multiset(Map(r.value, RawOf()))
                      == multiset(EventsIn(SelectorQuery(cfg, selector), rpc.chain, from, through + 1))
  {
    hide CollectedUpTo, Monotone;
    ghost var query := SelectorQuery(cfg, selector);
    var collected: seq<Collected> := [];
    var start := from;
    NothingCollected(query, rpc.chain, from);
    while start <= through
      invariant from <= start <= through + 1 && (start > from ==> start <= rpc.head + 1)
      invariant CollectedUpTo(collected, query, rpc.chain, from, start)
      decreases through + 1 - start
    {
      var end := if start + maxRangeBlocks - 1 <= through then start + maxRangeBlocks - 1 else through;
      var pages := CollectPages(rpc, SelectorQuery(cfg, selector), first + |collected|, start, end);
      if pages.Err? {
        return Err(if pages.error.Refused? then ProviderFault(pages.error.code) else Faulty(SourceIncomplete));
      }
      NextRange(collected, pages.value, query, rpc.chain, from, start, end + 1);
      collected := collected + pages.value;
      start := end + 1;
    }
    Everything(collected, query, rpc.chain, from, through + 1);
    return Ok(collected);
  }

  ghost predicate CollectedUpTo(collected: seq<Collected>, query: Query, chain: seq<Body>, from: nat, end: nat) {
    end <= |chain| && multiset(Map(collected, RawOf())) == multiset(EventsIn(query, chain, from, end))
  }

  lemma NothingCollected(query: Query, chain: seq<Body>, from: nat)
    requires from <= |chain|
    ensures CollectedUpTo([], query, chain, from, from)
  {
    assert EventsIn(query, chain, from, from) == [] && Map([], RawOf()) == [];
  }

  lemma NextRange(collected: seq<Collected>, more: seq<Collected>, query: Query, chain: seq<Body>,
                  from: nat, start: nat, end: nat)
    requires CollectedUpTo(collected, query, chain, from, start) && from <= start <= end <= |chain|
    requires multiset(Map(more, RawOf())) == multiset(EventsIn(query, chain, start, end))
    ensures CollectedUpTo(collected + more, query, chain, from, end)
  {
    hide Map, EventsIn;
    MapConcat(collected, more, RawOf());
    EventsSplit(query, chain, from, start, end);
  }

  lemma Everything(collected: seq<Collected>, query: Query, chain: seq<Body>, from: nat, end: nat)
    requires CollectedUpTo(collected, query, chain, from, end)
    ensures end <= |chain|
    ensures multiset(Map(collected, RawOf())) == multiset(EventsIn(query, chain, from, end))
  {
  }

  /** Every event lies in a known block and decodes under its position. */
  predicate Decodable(events: seq<RawEvent>, byNumber: map<nat, Header>, cfg: Config) {
    forall i :: 0 <= i < |events| ==>
      events[i].block in byNumber && DecodePoolEvent(events[i], i, byNumber[events[i].block], cfg).Ok?
  }

  function PositionedRows(events: seq<RawEvent>, byNumber: map<nat, Header>, cfg: Config): seq<PoolEvent>
    requires Decodable(events, byNumber, cfg)
  {
    seq(|events|, i requires 0 <= i < |events| =>
      DecodePoolEvent(events[i], i, byNumber[events[i].block], cfg).value)
  }

  lemma PositionedSnoc(events: seq<RawEvent>, k: nat, byNumber: map<nat, Header>, cfg: Config)
    requires k < |events| && Decodable(events[..k], byNumber, cfg) && events[k].block in byNumber
    ensures Decodable(events[..k + 1], byNumber, cfg)
            <==> DecodePoolEvent(events[k], k, byNumber[events[k].block], cfg).Ok?
    ensures Decodable(events[..k + 1], byNumber, cfg) ==>
              PositionedRows(events[..k + 1], byNumber, cfg)
              == PositionedRows(events[..k], byNumber, cfg)
                 + [DecodePoolEvent(events[k], k, byNumber[events[k].block], cfg).value]
  {
    hide DecodePoolEvent;
    forall i | 0 <= i < k ensures events[..k + 1][i] == events[..k][i] {
    }
  }

  /** The three lists, filled in one pass; every event is numbered by its position. */
  method DecodeAllEvents(events: seq<RawEvent>, byNumber: map<nat, Header>, cfg: Config)
    returns (r: Result<(seq<PoolEvent>, seq<PoolEvent>, seq<PoolEvent>), Fault>)
    ensures r.Ok? <==> Decodable(events, byNumber, cfg)
    ensures r.Ok? ==>
              var rows := PositionedRows(events, byNumber, cfg);
              r.value == (Filter(rows, IsDeposit()), Filter(rows, IsWithdrawal()), Filter(rows, IsRegistration()))
  {
    hide DecodePoolEvent, Filter, PositionedRows;
    ghost var rows: seq<PoolEvent> := [];
    var deposits, withdrawals, registrations: seq<PoolEvent> := [], [], [];
    NoKinds(byNumber, cfg);
    assert events[..0] == [];
    for k := 0 to |events|
      invariant Decodable(events[..k], byNumber, cfg) && rows == PositionedRows(events[..k], byNumber, cfg)
      invariant deposits == Filter(rows, IsDeposit()) && withdrawals == Filter(rows, IsWithdrawal())
      invariant registrations == Filter(rows, IsRegistration())
    {
      var raw := events[k];
      if raw.block !in byNumber {
        return Err(Faulty(SourceIncomplete));
      }
      var decoded := DecodePoolEvent(raw, k, byNumber[raw.block], cfg);
      PositionedSnoc(events, k, byNumber, cfg);
      if decoded.Err? {
        return Err(Undecodable(decoded.error));
      }
      var e := decoded.value;
      FilterSnoc(rows, e, IsDeposit());
      FilterSnoc(rows, e, IsWithdrawal());
      FilterSnoc(rows, e, IsRegistration());
      rows := rows + [e];
      match e.detail
      case Deposit(_, _, _) => deposits := deposits + [e];
      case Withdrawal(_, _, _) => withdrawals := withdrawals + [e];
      case Registration(_) => registrations := registrations + [e];
    }
    assert events[..|events|] == events;
    return Ok((deposits, withdrawals, registrations));
  }

  lemma PositionedRowsDecode(events: seq<RawEvent>, byNumber: map<nat, Header>, cfg: Config, chain: seq<Body>)
    requires CacheOf(byNumber, chain) && Decodable(events, byNumber, cfg)
    ensures var rows := PositionedRows(events, byNumber, cfg);
            && DecodedFrom(rows, events, cfg, chain)
            && forall i :: 0 <= i < |rows| ==> rows[i].ordinal == i && rows[i].block in byNumber
  {
  }

  lemma NoKinds(byNumber: map<nat, Header>, cfg: Config)
    ensures Decodable([], byNumber, cfg) && PositionedRows([], byNumber, cfg) == []
    ensures Filter([], IsDeposit()) == [] && Filter([], IsWithdrawal()) == [] && Filter([], IsRegistration()) == []
  {
  }

  // ----- what an ingested snapshot is

  /** The lists are rows that say exactly what the index of the range says, numbered by position. */
  ghost predicate OneShotOf(s: PublicSnapshot, rows: seq<PoolEvent>, cfg: Config, chain: seq<Body>) {
    var f := s.facts;
    && f.observed.block < |chain| && f.sourceFrom.block <= f.observed.block
    && f.sourceFrom == PointOf(HeaderAt(chain, f.sourceFrom.block))
    && f.observed == PointOf(HeaderAt(chain, f.observed.block))
    && s.depositObservations == Filter(rows, IsDeposit())
    && s.registrationObservations == Filter(rows, IsRegistration())
    && (f.engineVersion == V14 ==> s.withdrawalObservations == Some(Filter(rows, IsWithdrawal())))
    && (f.engineVersion == V13 ==> s.withdrawalObservations == None)
    && Clean(cfg, f.engineVersion, chain, f.sourceFrom.block, f.observed.block + 1)
    && multiset(Map(rows, Forget()))
       == multiset(Map(IndexOf(cfg, f.engineVersion, chain, f.sourceFrom.block, f.observed.block + 1), Forget()))
  }

  lemma NoWithdrawalsOneShot(s: PublicSnapshot, rows: seq<PoolEvent>, cfg: Config, chain: seq<Body>)
    requires ValidConfig(cfg) && OneShotOf(s, rows, cfg, chain) && s.facts.engineVersion == V13
    ensures Filter(rows, IsWithdrawal()) == []
  {
    hide Filter, IndexOf, Clean;
    var f := s.facts;
    var index := IndexOf(cfg, V13, chain, f.sourceFrom.block, f.observed.block + 1);
    NoWithdrawalsInV13(cfg, chain, f.sourceFrom.block, f.observed.block + 1);
    PermutationBasics(Map(rows, Forget()), Map(index, Forget()));
    forall i | 0 <= i < |rows| ensures !IsWithdrawal()(rows[i]) {
      assert Map(rows, Forget())[i] in Map(rows, Forget());
      var k :| 0 <= k < |index| && Map(index, Forget())[k] == Forget()(rows[i]);
      assert index[k] in index;
    }
    FilterNone(rows, IsWithdrawal());
  }

  /**
   Evaluating an ingested snapshot is evaluating the whole pool history too, so the one-shot and the incremental
   path agree on every verdict although they name their events differently.
   */
  lemma OneShotSameVerdict(s: PublicSnapshot, rows: seq<PoolEvent>, cfg: Config, chain: seq<Body>,
                           intent: Intent, now: int, decimals: int)
    requires ValidConfig(cfg) && Monotone(chain) && OneShotOf(s, rows, cfg, chain)
    requires s.facts.sourceFrom.timestamp < now - OBSERVATION_SECONDS
    ensures var shown := SnapshotInput(s, intent, now, decimals);
            var pool := PoolHistory(cfg, s.facts.engineVersion, chain, s.facts.observed.block);
            && EvaluatePreflight(shown) == EvaluatePreflight(HistoryInput(pool, intent, now, decimals))
            && EvaluatePreflightV14(shown) == EvaluatePreflightV14(HistoryInput(pool, intent, now, decimals))
  {
    hide EvaluatePreflight, EvaluatePreflightV14, SameEvidence, IndexOf, Filter, Map, Clean, Early;
    var f := s.facts;
    var from, end, model := f.sourceFrom.block, f.observed.block + 1, f.engineVersion;
    var early, index := IndexOf(cfg, model, chain, 0, from), IndexOf(cfg, model, chain, from, end);
    if model == V13 {
      NoWithdrawalsOneShot(s, rows, cfg, chain);
    }
    assert SnapshotInput(s, intent, now, decimals) == HistoryInput(rows, intent, now, decimals);
    SameContentsSameEvidence(rows, index, intent, now, decimals);
    BelowSourceIsEarly(cfg, model, chain, from, now);
    EarlyAddsNothing(early, index, s, intent, now, decimals);
    IndexSplit(cfg, model, chain, 0, from, end);
    var a, b, c := HistoryInput(rows, intent, now, decimals), HistoryInput(index, intent, now, decimals),
                   HistoryInput(early + index, intent, now, decimals);
    EvaluateSame(a, b);
    EvaluateSame(b, c);
    EvaluateSameV14(a, b);
    EvaluateSameV14(b, c);
  }

  // ----- an ingested snapshot is structurally sound

  /** Rows decoded from blocks of the range whose headers are known, numbered by position. */
  ghost predicate SoundRows(rows: seq<PoolEvent>, known: map<nat, Header>, cfg: Config, chain: seq<Body>,
                            from: nat, through: nat)
  {
    && CacheOf(known, chain)
    && forall i :: 0 <= i < |rows| ==>
         && rows[i].ordinal == i && WellFormed(rows[i], cfg) && from <= rows[i].block <= through
         && rows[i].block in known && rows[i].blockHash == known[rows[i].block].hash
         && rows[i].timestamp == known[rows[i].block].timestamp
  }

  lemma RowsAreSound(rows: seq<PoolEvent>, events: seq<RawEvent>, known: map<nat, Header>, cfg: Config,
                     model: ModelVersion, chain: seq<Body>, from: nat, through: nat)
    requires through < |chain| && DecodedFrom(rows, events, cfg, chain) && CacheOf(known, chain)
    requires multiset(events) == multiset(EventsIn(QueryOf(cfg, model), chain, from, through + 1))
    requires forall i :: 0 <= i < |rows| ==> rows[i].ordinal == i && rows[i].block in known
    ensures SoundRows(rows, known, cfg, chain, from, through)
  {
    hide DecodePoolEvent, WellFormed;
    var expected := EventsIn(QueryOf(cfg, model), chain, from, through + 1);
    PermutationBasics(events, expected);
    forall i | 0 <= i < |rows|
      ensures WellFormed(rows[i], cfg) && from <= rows[i].block <= through
      ensures rows[i].block < |chain| && rows[i].blockHash == HeaderAt(chain, rows[i].block).hash
      ensures rows[i].timestamp == HeaderAt(chain, rows[i].block).timestamp
    {
      assert events[i] in events && events[i] in expected;
      DecodedWellFormed(events[i], rows[i].ordinal, HeaderAt(chain, events[i].block), cfg);
    }
  }

  lemma ThreeKindsDistinct(rows: seq<PoolEvent>, d: seq<PoolEvent>, r: seq<PoolEvent>, w: seq<PoolEvent>)
    requires DistinctIds(rows)
    requires d == Filter(rows, IsDeposit()) && r == Filter(rows, IsRegistration())
    requires w == Filter(rows, IsWithdrawal()) || w == []
    ensures DistinctIds(d + r + w)
  {
    hide Filter;
    FilterDistinctIds(rows, IsDeposit());
    FilterDistinctIds(rows, IsRegistration());
    FilterDistinctIds(rows, IsWithdrawal());
    forall x, y | x in rows && y in rows && x != y ensures x.eventId != y.eventId {
      if x.eventId == y.eventId {
        RowsAreDistinct(rows, x, y);
      }
    }
    AppendDistinct(rows, d, r);
    AppendDistinct(rows, d + r, w);
  }

  lemma AppendDistinct(rows: seq<PoolEvent>, a: seq<PoolEvent>, b: seq<PoolEvent>)
    requires DistinctIds(a) && DistinctIds(b)
    requires forall x, y :: x in rows && y in rows && x != y ==> x.eventId != y.eventId
    requires forall x :: x in a ==> x in rows && x !in b
    requires forall x :: x in b ==> x in rows
    ensures DistinctIds(a + b)
  {
    forall i, j | 0 <= i < |a| && 0 <= j < |b| ensures a[i].eventId != b[j].eventId {
      assert a[i] in a && b[j] in b;
    }
  }

  /** References for every known header and the closing pair. */
  ghost predicate RefersToKnown(references: seq<Header>, known: map<nat, Header>, chain: seq<Body>, head: Header,
                                headParent: Header)
  {
    && (forall h :: h in references ==> OnChainHeader(h, chain))
    && (forall n :: n in known ==> known[n] in references)
    && head in references && headParent in references
  }

  lemma PositionsAreDistinct(rows: seq<PoolEvent>, known: map<nat, Header>, cfg: Config, chain: seq<Body>,
                             from: nat, through: nat)
    requires SoundRows(rows, known, cfg, chain, from, through)
    ensures DistinctIds(rows)
  {
  }

  lemma IngestedObservations(s: PublicSnapshot, rows: seq<PoolEvent>, known: map<nat, Header>, cfg: Config,
                             chain: seq<Body>, head: Header, headParent: Header)
    requires OneShotOf(s, rows, cfg, chain)
    requires SoundRows(rows, known, cfg, chain, s.facts.sourceFrom.block, s.facts.observed.block)
    requires RefersToKnown(s.blockReferences, known, chain, head, headParent)
    requires s.facts.indexedThrough == s.facts.observed
    ensures ValidObservations(s, cfg)
  {
    hide Filter, Clean, IndexOf, WellFormed, Map, Forget, DistinctIds;
    PositionsAreDistinct(rows, known, cfg, chain, s.facts.sourceFrom.block, s.facts.observed.block);
    ThreeKindsDistinct(rows, s.depositObservations, s.registrationObservations, OrEmpty(s.withdrawalObservations));
    forall e | e in AllObservations(s) ensures ValidObservation(e, s, cfg) {
      assert e in rows;
      var i :| 0 <= i < |rows| && rows[i] == e;
      assert known[e.block] in s.blockReferences;
    }
  }

  /** The facts an ingested snapshot states about its captured head, its start and the closing head. */
  ghost predicate StatesOpening(s: PublicSnapshot, o: Opening, known: map<nat, Header>, cfg: Config,
                                chain: seq<Body>, head: nat)
  {
    && 0 < o.source.number <= head < |chain| && o.source == HeaderAt(chain, o.source.number)
    && o.parent == HeaderAt(chain, o.source.number - 1) && cfg.deploymentBlock <= o.from <= o.source.number
    && CacheOf(known, chain) && o.from in known && o.source.number in known && o.source.number - 1 in known
    && s.facts == SnapshotFacts(
         cfg.chainId, cfg.pool, cfg.classHash, cfg.abiVersion,
         PointOf(o.source), PointOf(o.source), PointOf(HeaderAt(chain, head)), PointOf(HeaderAt(chain, o.from)),
         s.facts.requiredFromTimestamp, chain[o.from].timestamp <= s.facts.requiredFromTimestamp, true,
         o.parent.number, o.parent.hash, o.source.parent, s.facts.engineVersion, POLICY_VERSION)
    && s.queriedSelectors == ExpectedSelectors(cfg, s.facts.engineVersion)
  }

  lemma IngestedReferences(s: PublicSnapshot, o: Opening, known: map<nat, Header>, cfg: Config, chain: seq<Body>,
                           head: nat, headParent: Header)
    requires Monotone(chain) && StatesOpening(s, o, known, cfg, chain, head)
    requires RefersToKnown(s.blockReferences, known, chain, HeaderAt(chain, head), headParent)
    ensures WellReferenced(s, cfg) && Ordered(s.facts, cfg)
  {
    ChainReferences(s.blockReferences, chain);
    Linked(chain, o.source.number);
    assert known[o.from] in s.blockReferences && known[o.source.number] in s.blockReferences;
    assert known[o.source.number - 1] in s.blockReferences;
    assert chain[o.from].timestamp <= chain[o.source.number].timestamp <= chain[head].timestamp;
  }

  /** A complete one-shot snapshot meets every structural demand of the validator, without exception. */
  lemma OneShotIsSound(s: PublicSnapshot, rows: seq<PoolEvent>, o: Opening, known: map<nat, Header>, cfg: Config,
                       chain: seq<Body>, head: nat, headParent: Header, time: int)
    requires Monotone(chain) && OneShotOf(s, rows, cfg, chain) && StatesOpening(s, o, known, cfg, chain, head)
    requires SoundRows(rows, known, cfg, chain, o.from, o.source.number)
    requires RefersToKnown(s.blockReferences, known, chain, HeaderAt(chain, head), headParent)
    requires s.facts.sourceComplete && s.facts.requiredFromTimestamp <= time - OBSERVATION_SECONDS
    ensures Structural(s, Evaluation(s.facts.observed.block, time), cfg)
  {
    hide SoundRows, RefersToKnown, ValidObservations, WellReferenced, Ordered, Clean, IndexOf, Map, Filter, Forget;
    IngestedReferences(s, o, known, cfg, chain, head, headParent);
    IngestedObservations(s, rows, known, cfg, chain, HeaderAt(chain, head), headParent);
  }

  /** Sound at every time whose horizon the snapshot covers. */
  ghost predicate SoundOnceCovered(s: PublicSnapshot, cfg: Config) {
    forall time: int :: s.facts.requiredFromTimestamp <= time - OBSERVATION_SECONDS ==>
      Structural(s, Evaluation(s.facts.observed.block, time), cfg)
  }

  lemma SoundWheneverCovered(s: PublicSnapshot, rows: seq<PoolEvent>, o: Opening, known: map<nat, Header>, cfg: Config,
                             chain: seq<Body>, head: nat, headParent: Header)
    requires Monotone(chain) && OneShotOf(s, rows, cfg, chain) && StatesOpening(s, o, known, cfg, chain, head)
    requires SoundRows(rows, known, cfg, chain, o.from, o.source.number)
    requires RefersToKnown(s.blockReferences, known, chain, HeaderAt(chain, head), headParent)
    ensures s.facts.sourceComplete ==> SoundOnceCovered(s, cfg)
  {
    hide Structural, OneShotOf, StatesOpening, SoundRows, RefersToKnown, Monotone;
    forall time: int | s.facts.sourceComplete && s.facts.requiredFromTimestamp <= time - OBSERVATION_SECONDS
      ensures Structural(s, Evaluation(s.facts.observed.block, time), cfg)
    {
      OneShotIsSound(s, rows, o, known, cfg, chain, head, headParent, time);
    }
  }

  // ----- the ingestion

  /** What the source is read under: the captured head with its parent, and the block it starts at. */
  datatype Opening = Opening(source: Header, parent: Header, from: nat, cache: map<nat, Header>)

  /** The head, its parent and their link. */
  method LinkedPair(rpc: PublicRpc, n: nat) returns (r: Result<(Header, Header), Fault>)
    requires rpc.Valid()
    ensures r.Ok? ==> 0 < n <= rpc.head && r.value == (HeaderAt(rpc.chain, n), HeaderAt(rpc.chain, n - 1))
  {
    var head := rpc.GetBlock(n);
    if head.Err? {
      return Err(ProviderFault(head.error));
    }
    var parent := rpc.GetBlock(n - 1);
    if parent.Err? {
      return Err(ProviderFault(parent.error));
    }
    assert head.value.parent == parent.value.hash;
    var linked := Require(head.value.parent == parent.value.hash, Faulty(ParentLinkBroken));
    if linked.Fail? {
      return Err(linked.error);
    }
    return Ok((head.value, parent.value));
  }

  method CheckClass(rpc: PublicRpc, cfg: Config, n: nat) returns (o: Outcome<Fault>)
    ensures o.Pass? ==> rpc.classAt(n) == cfg.classHash
  {
    var class_ := rpc.GetClassHashAt(n);
    if class_.Err? {
      return Fail(ProviderFault(class_.error));
    }
    return if class_.value == cfg.classHash then Pass else Fail(Faulty(PoolAbiMismatch));
  }

  /** The events of every selector the model needs, one selector after the other. */
  method CollectAll(rpc: PublicRpc, cfg: Config, model: ModelVersion, from: nat, through: nat, maxRangeBlocks: nat)
    returns (r: Result<seq<Collected>, Fault>)
    requires rpc.Valid() && ValidConfig(cfg) && maxRangeBlocks > 0 && from <= through < |rpc.chain|
    modifies rpc`pending, rpc`patience
    ensures r.Ok? ==>
              multiset(Map(r.value, RawOf())) == multiset(EventsIn(QueryOf(cfg, model), rpc.chain, from, through + 1))
  {
    hide EventsIn, Map, ValidConfig, Monotone;
    var deposits := CollectSelectorEvents(rpc, cfg, cfg.depositSelector, from, through, 0, maxRangeBlocks);
    if deposits.Err? {
      return deposits;
    }
    var withdrawals: Result<seq<Collected>, Fault> := Ok([]);
    if model == V14 {
      withdrawals := CollectSelectorEvents(rpc, cfg, cfg.withdrawalSelector, from, through, |deposits.value|,
              maxRangeBlocks);
      if withdrawals.Err? {
        return withdrawals;
      }
    }
    assert Map([], RawOf()) == [];
    var registrations := CollectSelectorEvents(rpc, cfg, cfg.registrationSelector, from, through,
                                               |deposits.value| + |withdrawals.value|, maxRangeBlocks);
    if registrations.Err? {
      return registrations;
    }
    MapConcat(deposits.value, withdrawals.value, RawOf());
    MapConcat(deposits.value + withdrawals.value, registrations.value, RawOf());
    SelectorBySelector(cfg, model, rpc.chain, from, through + 1, Map(deposits.value, RawOf()),
                       Map(withdrawals.value, RawOf()), Map(registrations.value, RawOf()));
    return Ok(deposits.value + withdrawals.value + registrations.value);
  }

  /** Adds fetched headers to the cache, later ones last. */
  method Remember(cache: map<nat, Header>, headers: seq<Header>, ghost chain: seq<Body>)
    returns (extended: map<nat, Header>)
    requires CacheOf(cache, chain) && forall h :: h in headers ==> OnChainHeader(h, chain)
    ensures CacheOf(extended, chain) && cache.Keys <= extended.Keys
    ensures forall h :: h in headers ==> h.number in extended
  {
    extended := cache;
    for k := 0 to |headers|
      invariant CacheOf(extended, chain) && cache.Keys <= extended.Keys
      invariant forall i :: 0 <= i < k ==> headers[i].number in extended
    {
      assert OnChainHeader(headers[k], chain);
      extended := extended[headers[k].number := headers[k]];
    }
  }

  /** Collects, orders, fetches the missing headers and decodes. */
  method ReadSource(rpc: PublicRpc, cfg: Config, model: ModelVersion, from: nat, through: nat, maxRangeBlocks: nat,
                    cache: map<nat, Header>)
    returns (r: Result<(seq<PoolEvent>, seq<PoolEvent>, seq<PoolEvent>), Fault>, known: map<nat, Header>,
             ghost rows: seq<PoolEvent>)
    requires rpc.Valid() && ValidConfig(cfg) && maxRangeBlocks > 0 && from <= through < |rpc.chain|
    requires CacheOf(cache, rpc.chain)
    modifies rpc`pending, rpc`patience
    ensures CacheOf(known, rpc.chain) && cache.Keys <= known.Keys
    ensures r.Ok? ==>
              r.value == (Filter(rows, IsDeposit()), Filter(rows, IsWithdrawal()), Filter(rows, IsRegistration()))
    ensures r.Ok? ==> SoundRows(rows, known, cfg, rpc.chain, from, through)
    ensures r.Ok? ==> Clean(cfg, model, rpc.chain, from, through + 1)
    ensures r.Ok? ==>
              multiset(Map(rows, Forget())) == multiset(Map(IndexOf(cfg, model, rpc.chain, from, through + 1), Forget()))
  {
    hide EventsIn, Map, Filter, ValidConfig, Monotone, Clean, IndexOf, DecodedFrom, Sort, SoundRows, Forget;
    hide Decodable, PositionedRows, CacheOf, IsDeposit, IsWithdrawal, IsRegistration;
    known, rows := cache, [];
    var collected := CollectAll(rpc, cfg, model, from, through, maxRangeBlocks);
    if collected.Err? {
      return Err(collected.error), known, rows;
    }
    var ordered := Sort(EventOrder(cfg), collected.value);
    MapPermutation(ordered, collected.value, RawOf());
    var events := Map(ordered, RawOf());
    var fetched := rpc.GetBlocks(Filter(Map(events, BlockOf()), Unknown(cache)));
    if fetched.Err? {
      return Err(ProviderFault(fetched.error)), known, rows;
    }
    known := Remember(cache, fetched.value, rpc.chain);
    r := DecodeAllEvents(events, known, cfg);
    if r.Ok? {
      rows := PositionedRows(events, known, cfg);
      PositionedRowsDecode(events, known, cfg, rpc.chain);
      SameContents(rows, events, cfg, model, rpc.chain, from, through + 1);
      RowsAreSound(rows, events, known, cfg, model, rpc.chain, from, through);
    }
  }

  function Unknown(cache: map<nat, Header>): nat -> bool {
    (n: nat) => n !in cache
  }

  ghost predicate OpenedOn(o: Opening, rpc: PublicRpc, cfg: Config)
    reads rpc
  {
    && 0 < o.source.number <= rpc.head && rpc.Valid() && rpc.chainId == cfg.chainId
    && o.source == HeaderAt(rpc.chain, o.source.number) && o.parent == HeaderAt(rpc.chain, o.source.number - 1)
    && cfg.deploymentBlock <= o.from <= o.source.number
    && CacheOf(o.cache, rpc.chain) && o.from in o.cache && o.source.number in o.cache
    && o.source.number - 1 in o.cache
  }

  method OpenSource(rpc: PublicRpc, cfg: Config, required: int, configuredFrom: Option<nat>)
    returns (r: Result<Opening, Fault>)
    requires rpc.Valid()
    modifies rpc`head
    ensures rpc.Valid() && old(rpc.head) <= rpc.head
    ensures r.Ok? ==> OpenedOn(r.value, rpc, cfg) && old(rpc.head) <= r.value.source.number
  {
    hide Monotone;
    var chainId := rpc.GetChainId();
    if chainId.Err? {
      return Err(ProviderFault(chainId.error));
    }
    if chainId.value != cfg.chainId {
      return Err(Faulty(ChainIdMismatch));
    }
    var number := rpc.GetBlockNumber();
    if number.Err? {
      return Err(ProviderFault(number.error));
    }
    var pair := LinkedPair(rpc, number.value);
    if pair.Err? {
      return Err(pair.error);
    }
    var (source, parent) := pair.value;
    var class_ := CheckClass(rpc, cfg, source.number);
    if class_.Fail? {
      return Err(class_.error);
    }
    var start := SourceStart(rpc, cfg, required, configuredFrom, source.number,
                             map[parent.number := parent, source.number := source]);
    if start.Err? {
      return Err(start.error);
    }
    return Ok(Opening(source, parent, start.value.0, start.value.1));
  }

  /** The head after reading, with its parent; the captured head must still be what it was. */
  method CloseSource(rpc: PublicRpc, cfg: Config, o: Opening) returns (r: Result<(Header, Header), Fault>)
    requires OpenedOn(o, rpc, cfg)
    modifies rpc`head
    ensures rpc.Valid() && old(rpc.head) <= rpc.head
    ensures r.Ok? ==> o.source.number <= rpc.head && rpc.classAt(rpc.head) == cfg.classHash
    ensures r.Ok? ==> 0 < rpc.head && r.value == (HeaderAt(rpc.chain, rpc.head), HeaderAt(rpc.chain, rpc.head - 1))
  {
    hide Monotone;
    var number := rpc.GetBlockNumber();
    if number.Err? {
      return Err(ProviderFault(number.error));
    }
    assert number.value >= o.source.number;
    var ahead := Require(number.value >= o.source.number, Faulty(HeadInconsistent));
    if ahead.Fail? {
      return Err(ahead.error);
    }
    r := LinkedPair(rpc, number.value);
    if r.Err? {
      return;
    }
    var again := rpc.GetBlock(o.source.number);
    if again.Err? {
      return Err(ProviderFault(again.error));
    }
    assert again.value.hash == o.source.hash;
    var stable := Require(again.value.hash == o.source.hash, Faulty(BlockHashInconsistent));
    if stable.Fail? {
      return Err(stable.error);
    }
    var class_ := CheckClass(rpc, cfg, number.value);
    if class_.Fail? {
      return Err(class_.error);
    }
  }

  function IngestedSnapshot(o: Opening, head: Header, references: seq<Header>, from: Header, required: nat, cfg: Config,
                            model: ModelVersion, rows: (seq<PoolEvent>, seq<PoolEvent>, seq<PoolEvent>)): PublicSnapshot
  {
    var facts := SnapshotFacts(
      cfg.chainId, cfg.pool, cfg.classHash, cfg.abiVersion,
      PointOf(o.source), PointOf(o.source), PointOf(head), PointOf(from),
      required, from.timestamp <= required, true,
      o.parent.number, o.parent.hash, o.source.parent, model, POLICY_VERSION);
    PublicSnapshot(facts, ExpectedSelectors(cfg, model), references, rows.0,
                   if model == V14 then Some(rows.1) else None, rows.2)
  }

  lemma IngestedIsOneShot(o: Opening, head: Header, references: seq<Header>, required: nat, cfg: Config,
                          model: ModelVersion, rows: seq<PoolEvent>, chain: seq<Body>)
    requires o.from <= o.source.number < |chain| && o.source == HeaderAt(chain, o.source.number)
    requires Clean(cfg, model, chain, o.from, o.source.number + 1)
    requires multiset(Map(rows, Forget()))
             == multiset(Map(IndexOf(cfg, model, chain, o.from, o.source.number + 1), Forget()))
    ensures var lists := (Filter(rows, IsDeposit()), Filter(rows, IsWithdrawal()), Filter(rows, IsRegistration()));
            var s := IngestedSnapshot(o, head, references, HeaderAt(chain, o.from), required, cfg, model, lists);
            && OneShotOf(s, rows, cfg, chain) && s.facts.observed.block == o.source.number
            && s.facts.engineVersion == model && s.facts.requiredFromTimestamp == required
  {
    hide Clean, IndexOf, Filter, Map, Forget, IsDeposit, IsWithdrawal, IsRegistration;
    var lists := (Filter(rows, IsDeposit()), Filter(rows, IsWithdrawal()), Filter(rows, IsRegistration()));
    var s := IngestedSnapshot(o, head, references, HeaderAt(chain, o.from), required, cfg, model, lists);
    assert s.facts.sourceFrom.block == o.from && s.facts.observed == PointOf(o.source);
  }

  /** Reads a bounded source in one go: the snapshot says exactly what the index of its range says. */
  method IngestPublicSnapshot(rpc: PublicRpc, cfg: Config, model: ModelVersion, required: int,
                              configuredFrom: Option<nat>, maxRangeBlocks: nat)
    returns (r: Result<PublicSnapshot, Fault>, ghost rows: seq<PoolEvent>)
    requires rpc.Valid() && ValidConfig(cfg) && maxRangeBlocks > 0
    modifies rpc
    ensures rpc.Valid()
    ensures r.Ok? ==> OneShotOf(r.value, rows, cfg, rpc.chain) && old(rpc.head) <= r.value.facts.observed.block
    ensures r.Ok? ==> r.value.facts.engineVersion == model && r.value.facts.requiredFromTimestamp == required
    ensures r.Ok? ==> rpc.chainId == cfg.chainId && rpc.classAt(rpc.head) == cfg.classHash
    ensures r.Ok? && r.value.facts.sourceComplete ==> SoundOnceCovered(r.value, cfg)
  {
    hide ValidConfig, Monotone, Clean, IndexOf, Filter, Map, Forget, OneShotOf, IngestedSnapshot, Structural, SoundRows;
    hide StatesOpening, RefersToKnown, SoundOnceCovered, CacheOf, IsDeposit, IsWithdrawal, IsRegistration;
    rows := [];
    if required < 0 {
      return Err(Faulty(SourceIncomplete)), rows;
    }
    var begun := OpenSource(rpc, cfg, required, configuredFrom);
    if begun.Err? {
      return Err(begun.error), rows;
    }
    var o := begun.value;
    var read, known;
    read, known, rows := ReadSource(rpc, cfg, model, o.from, o.source.number, maxRangeBlocks, o.cache);
    if read.Err? {
      return Err(read.error), rows;
    }
    var closed := CloseSource(rpc, cfg, o);
    if closed.Err? {
      return Err(closed.error), rows;
    }
    var s := PutTogether(o, closed.value.0, closed.value.1, required, known, cfg, model, read.value, rows,
                         rpc.chain, rpc.head);
    r := Ok(s);
  }

  method PutTogether(o: Opening, head: Header, headParent: Header, required: nat, known: map<nat, Header>, cfg: Config,
                     model: ModelVersion, lists: (seq<PoolEvent>, seq<PoolEvent>, seq<PoolEvent>),
                     ghost rows: seq<PoolEvent>, ghost chain: seq<Body>, ghost headNumber: nat)
    returns (s: PublicSnapshot)
    requires Monotone(chain) && 0 < o.source.number <= headNumber < |chain|
    requires o.source == HeaderAt(chain, o.source.number) && o.parent == HeaderAt(chain, o.source.number - 1)
    requires cfg.deploymentBlock <= o.from <= o.source.number
    requires o.from in known && o.source.number in known && o.source.number - 1 in known
    requires head == HeaderAt(chain, headNumber) && headParent == HeaderAt(chain, headNumber - 1)
    requires CacheOf(known, chain) && SoundRows(rows, known, cfg, chain, o.from, o.source.number)
    requires lists == (Filter(rows, IsDeposit()), Filter(rows, IsWithdrawal()), Filter(rows, IsRegistration()))
    requires Clean(cfg, model, chain, o.from, o.source.number + 1)
    requires multiset(Map(rows, Forget()))
            == multiset(Map(IndexOf(cfg, model, chain, o.from, o.source.number + 1), Forget()))
    ensures OneShotOf(s, rows, cfg, chain) && s.facts.observed.block == o.source.number
    ensures s.facts.engineVersion == model && s.facts.requiredFromTimestamp == required
    ensures s.facts.sourceComplete ==> SoundOnceCovered(s, cfg)
  {
    hide Monotone, Clean, IndexOf, Filter, Map, Forget, OneShotOf, IngestedSnapshot, SoundRows;
    hide StatesOpening, RefersToKnown, SoundOnceCovered;
    var references := ListBlocks(known[head.number := head][headParent.number := headParent]);
    IngestedIsOneShot(o, head, references, required, cfg, model, rows, chain);
    s := IngestedSnapshot(o, head, references, known[o.from], required, cfg, model, lists);
    IngestedStates(s, o, head, references, required, known, cfg, model, lists, chain, headNumber);
    RefersToAllKnown(references, known, chain, head, headParent);
    SoundWheneverCovered(s, rows, o, known, cfg, chain, headNumber, headParent);
  }

  lemma IngestedStates(s: PublicSnapshot, o: Opening, head: Header, references: seq<Header>, required: nat,
                       known: map<nat, Header>, cfg: Config, model: ModelVersion,
                       lists: (seq<PoolEvent>, seq<PoolEvent>, seq<PoolEvent>), chain: seq<Body>, headNumber: nat)
    requires 0 < o.source.number <= headNumber < |chain| && o.source == HeaderAt(chain, o.source.number)
    requires o.parent == HeaderAt(chain, o.source.number - 1) && cfg.deploymentBlock <= o.from <= o.source.number
    requires CacheOf(known, chain) && o.from in known && o.source.number in known && o.source.number - 1 in known
    requires head == HeaderAt(chain, headNumber)
    requires s == IngestedSnapshot(o, head, references, known[o.from], required, cfg, model, lists)
    ensures StatesOpening(s, o, known, cfg, chain, headNumber) && s.blockReferences == references
  {
  }

  lemma RefersToAllKnown(references: seq<Header>, known: map<nat, Header>, chain: seq<Body>, head: Header,
                         headParent: Header)
    requires CacheOf(known, chain) && OnChainHeader(head, chain) && OnChainHeader(headParent, chain)
    requires head.number == headParent.number + 1
    requires ListsBlocks(references, known[head.number := head][headParent.number := headParent])
    ensures RefersToKnown(references, known, chain, head, headParent)
  {
    var all := known[head.number := head][headParent.number := headParent];
    assert all[head.number] == head && all[headParent.number] == headParent;
    forall n | n in known ensures known[n] in references {
      assert all[n] == known[n] && all[n] in references;
    }
  }

  /** Where the source starts: as configured, or where the search says; in range either way. */
  method SourceStart(rpc: PublicRpc, cfg: Config, required: int, configuredFrom: Option<nat>, through: nat,
                     known: map<nat, Header>)
    returns (r: Result<(nat, map<nat, Header>), Fault>)
    requires rpc.Valid() && CacheOf(known, rpc.chain) && through < |rpc.chain|
    ensures r.Ok? ==> cfg.deploymentBlock <= r.value.0 <= through && CacheOf(r.value.1, rpc.chain)
    ensures r.Ok? ==> r.value.0 in r.value.1 && known.Keys <= r.value.1.Keys
    ensures r.Ok? && configuredFrom.None? ==>
              IsBoundary(HeaderAt(rpc.chain, r.value.0), rpc.chain, cfg.deploymentBlock, through, required)
  {
    var from: nat;
    var cache := known;
    if configuredFrom.Some? {
      from := configuredFrom.value;
    } else {
      var found := FindBlockAtOrBeforeTimestamp(rpc, cfg.deploymentBlock, through, required, known);
      if found.Err? {
        return Err(ProviderFault(found.error));
      }
      from, cache := found.value.0.number, found.value.1;
    }
    if from < cfg.deploymentBlock || from > through {
      return Err(Faulty(SourceIncomplete));
    }
    var header := GetCached(rpc, cache, from);
    if header.Err? {
      return Err(ProviderFault(header.error));
    }
    return Ok((from, header.value.1));
  }
}
