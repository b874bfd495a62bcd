/** When a public snapshot may be evaluated at a given time: its structure, then how old it is. */
module Freshness {

  import opened Wrappers
  import opened EngineTypes
  import opened Sorting
  import opened Chain
  import opened PoolEvents
  import opened Index
  import opened Snapshots
  import opened Headers

  const POLICY_VERSION := 1
  const MAX_SOURCE_AGE := 120
  const MAX_INDEX_LAG := 120

  datatype Rejection =
    | ChainIdMismatch | PoolAddressMismatch | PoolAbiMismatch | PolicyVersionMismatch
    | SnapshotIncomplete | HeadInconsistent | BlockHashInconsistent | ParentLinkBroken
    | SourceIncomplete | UnknownSelector | MalformedAddress
    | DataStale | LagExceeded | ClockBehind

  /** Where and when an intent is evaluated. */
  datatype Evaluation = Evaluation(block: nat, time: int)

  datatype Age = Age(source: nat, lag: nat)

  // ----- what a valid snapshot is

  predicate Identified(f: SnapshotFacts, cfg: Config) {
    && f.chainId == cfg.chainId && f.poolAddress == cfg.pool
    && f.poolClassHash == cfg.classHash && f.poolAbiFixtureVersion == cfg.abiVersion
    && f.freshnessPolicyVersion == POLICY_VERSION
  }

  predicate Ordered(f: SnapshotFacts, cfg: Config) {
    && cfg.deploymentBlock <= f.sourceFrom.block <= f.observed.block <= f.indexedThrough.block <= f.rpcHead.block
    && f.sourceFrom.timestamp <= f.observed.timestamp <= f.indexedThrough.timestamp <= f.rpcHead.timestamp
  }

  /** Retained headers with consecutive numbers are linked and do not go back in time. */
  predicate LinkedReferences(references: seq<Header>) {
    forall x, y :: x in references && y in references && y.number == x.number + 1 ==>
      y.parent == x.hash && x.timestamp <= y.timestamp
  }

  predicate Retains(references: seq<Header>, p: Point) {
    exists h :: h in references && h.number == p.block && h.hash == p.hash && h.timestamp == p.timestamp
  }

  predicate ParentRetained(s: PublicSnapshot) {
    var f := s.facts;
    && f.sourceParentBlock == f.indexedThrough.block - 1
    && f.sourceDeclaredParentHash == f.sourceParentHash
    && exists h :: h in s.blockReferences && h.number == f.sourceParentBlock && h.hash == f.sourceParentHash
  }

  predicate WellReferenced(s: PublicSnapshot, cfg: Config) {
    && DistinctBlocks(s.blockReferences) && LinkedReferences(s.blockReferences)
    && Retains(s.blockReferences, s.facts.sourceFrom)
    && Retains(s.blockReferences, s.facts.observed)
    && Retains(s.blockReferences, s.facts.indexedThrough)
    && Retains(s.blockReferences, s.facts.rpcHead)
    && ParentRetained(s)
  }

  function ExpectedSelectors(cfg: Config, model: ModelVersion): seq<nat> {
    if model == V14 then [cfg.depositSelector, cfg.withdrawalSelector, cfg.registrationSelector]
    else [cfg.depositSelector, cfg.registrationSelector]
  }

  predicate Covers(s: PublicSnapshot, time: int, cfg: Config) {
    var f := s.facts;
    && f.sourceComplete && f.pagesComplete
    && multiset(s.queriedSelectors) == multiset(ExpectedSelectors(cfg, f.engineVersion))
    && (f.engineVersion == V14 ==> s.withdrawalObservations.Some?)
    && f.sourceFrom.timestamp <= f.requiredFromTimestamp <= time - OBSERVATION_SECONDS
  }

  function OrEmpty(events: Option<seq<PoolEvent>>): seq<PoolEvent> {
    if events.None? then [] else events.value
  }

  /** Every observation the snapshot carries, in the order they are validated. */
  function AllObservations(s: PublicSnapshot): seq<PoolEvent> {
    s.depositObservations + s.registrationObservations + OrEmpty(s.withdrawalObservations)
  }

  /** The observation lies in the declared range, in a retained block, and names itself correctly. */
  predicate ValidObservation(e: PoolEvent, s: PublicSnapshot, cfg: Config) {
    && s.facts.sourceFrom.block <= e.block <= s.facts.indexedThrough.block
    && Retains(s.blockReferences, Point(e.block, e.blockHash, e.timestamp))
    && WellFormed(e, cfg)
  }

  predicate ValidObservations(s: PublicSnapshot, cfg: Config) {
    && WellKinded(s)
    && (forall e :: e in AllObservations(s) ==> ValidObservation(e, s, cfg))
    && DistinctIds(AllObservations(s))
  }

  predicate Structural(s: PublicSnapshot, at: Evaluation, cfg: Config) {
    && Identified(s.facts, cfg)
    && at.block == s.facts.observed.block
    && Ordered(s.facts, cfg)
    && WellReferenced(s, cfg)
    && Covers(s, at.time, cfg)
    && ValidObservations(s, cfg)
  }

  predicate Timely(f: SnapshotFacts, time: int) {
    && f.observed.timestamp <= time
    && 0 <= time - f.indexedThrough.timestamp <= MAX_SOURCE_AGE
    && f.rpcHead.timestamp - f.indexedThrough.timestamp <= MAX_INDEX_LAG
  }

  predicate IsTimeliness(reason: Rejection) {
    reason == DataStale || reason == LagExceeded || reason == ClockBehind
  }

  // ----- the checks

  method CheckAdjacent(ordered: seq<Header>) returns (ok: bool)
    requires Ascending(ordered)
    ensures ok <==> LinkedReferences(ordered)
  {
    var i := 1;
    while i < |ordered|
      invariant i >= 1
      invariant forall j :: 0 < j < i && j < |ordered| && ordered[j].number == ordered[j - 1].number + 1 ==>
        ordered[j].parent == ordered[j - 1].hash && ordered[j - 1].timestamp <= ordered[j].timestamp
    {
      var prior, current := ordered[i - 1], ordered[i];
      if current.number == prior.number + 1 && (current.parent != prior.hash || current.timestamp < prior.timestamp) {
        return false;
      }
      i := i + 1;
    }
    forall x, y | x in ordered && y in ordered && y.number == x.number + 1
      ensures y.parent == x.hash && x.timestamp <= y.timestamp
    {
      ConsecutiveAreNeighbours(ordered, x, y);
    }
    return true;
  }

  method RequireReference(table: map<nat, Header>, references: seq<Header>, p: Point) returns (o: Outcome<Rejection>)
    requires TableOf(table, references)
    ensures o.Pass? <==> Retains(references, p)
    ensures o.Fail? ==> o.error == SnapshotIncomplete || o.error == BlockHashInconsistent
  {
    if p.block !in table {
      return Fail(SnapshotIncomplete);
    }
    var h := table[p.block];
    if h.hash != p.hash || h.timestamp != p.timestamp {
      return Fail(BlockHashInconsistent);
    }
    return Pass;
  }

  method CheckIdentity(s: PublicSnapshot, cfg: Config) returns (o: Outcome<Rejection>)
    ensures o.Pass? <==> Identified(s.facts, cfg) && (s.facts.engineVersion == V14 ==> s.withdrawalObservations.Some?)
    ensures o.Fail? ==> !IsTimeliness(o.error)
  {
    var f := s.facts;
    if f.chainId != cfg.chainId {
      return Fail(ChainIdMismatch);
    }
    if f.poolAddress != cfg.pool {
      return Fail(Rejection.PoolAddressMismatch);
    }
    if f.poolClassHash != cfg.classHash || f.poolAbiFixtureVersion != cfg.abiVersion {
      return Fail(PoolAbiMismatch);
    }
    if f.freshnessPolicyVersion != POLICY_VERSION {
      return Fail(PolicyVersionMismatch);
    }
    if f.engineVersion == V14 && s.withdrawalObservations.None? {
      return Fail(SnapshotIncomplete);
    }
    return Pass;
  }

  method CheckOrder(f: SnapshotFacts, at: Evaluation, cfg: Config) returns (o: Outcome<Rejection>)
    ensures o.Pass? <==> at.block == f.observed.block && Ordered(f, cfg) && f.observed.timestamp <= at.time
    ensures at.block == f.observed.block && Ordered(f, cfg) ==> o.Pass? || o.error == ClockBehind
    ensures o.Fail? && IsTimeliness(o.error) ==> f.observed.timestamp > at.time
  {
    if at.block != f.observed.block {
      return Fail(SnapshotIncomplete);
    }
    if f.sourceFrom.block < cfg.deploymentBlock || f.sourceFrom.block > f.observed.block
       || f.observed.block > f.indexedThrough.block || f.indexedThrough.block > f.rpcHead.block {
      return Fail(HeadInconsistent);
    }
    if f.sourceFrom.timestamp > f.observed.timestamp {
      return Fail(HeadInconsistent);
    }
    if f.observed.timestamp > f.indexedThrough.timestamp {
      return Fail(HeadInconsistent);
    }
    if f.indexedThrough.timestamp > f.rpcHead.timestamp {
      return Fail(HeadInconsistent);
    }
    if at.time < f.observed.timestamp {
      return Fail(ClockBehind);
    }
    return Pass;
  }

  method CheckReferences(s: PublicSnapshot, cfg: Config) returns (o: Outcome<Rejection>, table: map<nat, Header>)
    ensures o.Pass? <==> WellReferenced(s, cfg)
    ensures o.Pass? ==> TableOf(table, s.blockReferences)
    ensures o.Fail? ==> !IsTimeliness(o.error)
  {
    var ok, byNumber, ordered := UniqueHeaders(s.blockReferences);
    if !ok {
      return Fail(BlockHashInconsistent), map[];
    }
    ok := CheckAdjacent(ordered);
    if !ok {
      return Fail(ParentLinkBroken), map[];
    }
    table := byNumber;
    var f := s.facts;
    o := RequireReference(table, s.blockReferences, f.sourceFrom);
    if o.Fail? {
      return;
    }
    o := RequireReference(table, s.blockReferences, f.observed);
    if o.Fail? {
      return;
    }
    o := RequireReference(table, s.blockReferences, f.indexedThrough);
    if o.Fail? {
      return;
    }
    o := RequireReference(table, s.blockReferences, f.rpcHead);
    if o.Fail? {
      return;
    }
    o := CheckParent(s, table);
  }

  method CheckParent(s: PublicSnapshot, table: map<nat, Header>) returns (o: Outcome<Rejection>)
    requires TableOf(table, s.blockReferences)
    requires Retains(s.blockReferences, s.facts.indexedThrough) && LinkedReferences(s.blockReferences)
    ensures o.Pass? <==> ParentRetained(s)
    ensures o.Fail? ==> !IsTimeliness(o.error)
  {
    var f := s.facts;
    if f.sourceParentBlock !in table {
      return Fail(SnapshotIncomplete);
    }
    var parent := table[f.sourceParentBlock];
    if parent.hash != f.sourceParentHash {
      return Fail(BlockHashInconsistent);
    }
    if f.sourceParentBlock != f.indexedThrough.block - 1 {
      return Fail(ParentLinkBroken);
    }
    // What remains to compare, the adjacency check has already established.
    assert table[f.indexedThrough.block].parent == parent.hash
           && parent.timestamp <= table[f.indexedThrough.block].timestamp;
    if f.sourceDeclaredParentHash != f.sourceParentHash {
      return Fail(ParentLinkBroken);
    }
    return Pass;
  }

  method CheckCoverage(s: PublicSnapshot, time: int, cfg: Config) returns (o: Outcome<Rejection>)
    requires ValidConfig(cfg) && (s.facts.engineVersion == V14 ==> s.withdrawalObservations.Some?)
    ensures o.Pass? <==> Covers(s, time, cfg)
    ensures o.Fail? ==> o.error == SourceIncomplete
  {
    var f := s.facts;
    if !f.sourceComplete || !f.pagesComplete {
      return Fail(SourceIncomplete);
    }
    var expected := Sort(cfg.codeUnitOrder, ExpectedSelectors(cfg, f.engineVersion));
    var queried := Sort(cfg.codeUnitOrder, s.queriedSelectors);
    if queried != expected {
      SelectorsDiffer(s, cfg);
      return Fail(SourceIncomplete);
    }
    assert multiset(queried) == multiset(expected);
    if f.sourceFrom.timestamp > f.requiredFromTimestamp || f.sourceFrom.timestamp > time - OBSERVATION_SECONDS {
      return Fail(SourceIncomplete);
    }
    if f.requiredFromTimestamp > time - OBSERVATION_SECONDS {
      return Fail(SourceIncomplete);
    }
    return Pass;
  }

  lemma SelectorsDiffer(s: PublicSnapshot, cfg: Config)
    requires ValidConfig(cfg)
    requires Sort(cfg.codeUnitOrder, s.queriedSelectors)
             != Sort(cfg.codeUnitOrder, ExpectedSelectors(cfg, s.facts.engineVersion))
    ensures multiset(s.queriedSelectors) != multiset(ExpectedSelectors(cfg, s.facts.engineVersion))
  {
    if multiset(s.queriedSelectors) == multiset(ExpectedSelectors(cfg, s.facts.engineVersion)) {
      SortPermutation(cfg.codeUnitOrder, s.queriedSelectors, ExpectedSelectors(cfg, s.facts.engineVersion));
      assert false;
    }
  }

  /** The identities of the observations validated so far. */
  ghost predicate IdsOf(ids: set<EventId>, events: seq<PoolEvent>) {
    forall id :: id in ids <==> exists e :: e in events && e.eventId == id
  }

  method CheckObservation(e: PoolEvent, s: PublicSnapshot, cfg: Config, table: map<nat, Header>, selector: nat,
                          ids: set<EventId>) returns (o: Outcome<Rejection>)
    requires TableOf(table, s.blockReferences)
    requires selector == SelectorOf(e.detail, cfg)
    ensures o.Pass? <==> ValidObservation(e, s, cfg) && e.eventId !in ids
    ensures o.Fail? ==> !IsTimeliness(o.error)
  {
    if e.block < s.facts.sourceFrom.block || e.block > s.facts.indexedThrough.block {
      return Fail(SourceIncomplete);
    }
    o := RequireReference(table, s.blockReferences, Point(e.block, e.blockHash, e.timestamp));
    if o.Fail? {
      return;
    }
    if e.selector != selector {
      return Fail(UnknownSelector);
    }
    if e.eventId in ids {
      return Fail(SourceIncomplete);
    }
    if e.eventId != EventId(e.block, e.tx, e.ordinal) {
      return Fail(SnapshotIncomplete);
    }
    if !e.detail.Registration? && e.detail.amount > MAX_U128 {
      return Fail(SnapshotIncomplete);
    }
    if !AddressesValid(e.detail, cfg) {
      return Fail(MalformedAddress);
    }
    return Pass;
  }

  predicate OfKind(events: seq<PoolEvent>, selector: nat, cfg: Config) {
    forall e :: e in events ==> SelectorOf(e.detail, cfg) == selector
  }

  ghost predicate ValidSoFar(events: seq<PoolEvent>, s: PublicSnapshot, cfg: Config) {
    (forall e :: e in events ==> ValidObservation(e, s, cfg)) && DistinctIds(events)
  }

  /** Continues through one list, remembering the identities of all lists before it. */
  method CheckList(before: seq<PoolEvent>, events: seq<PoolEvent>, s: PublicSnapshot, cfg: Config,
                   table: map<nat, Header>, selector: nat, ids: set<EventId>)
    returns (o: Outcome<Rejection>, ids': set<EventId>)
    requires TableOf(table, s.blockReferences) && OfKind(events, selector, cfg)
    requires IdsOf(ids, before) && ValidSoFar(before, s, cfg)
    ensures o.Pass? <==> ValidSoFar(before + events, s, cfg)
    ensures o.Pass? ==> IdsOf(ids', before + events)
    ensures o.Fail? ==> !IsTimeliness(o.error)
  {
    ids' := ids;
    assert before + events[..0] == before;
    for k := 0 to |events|
      invariant IdsOf(ids', before + events[..k]) && ValidSoFar(before + events[..k], s, cfg)
    {
      var e := events[k];
      o := CheckObservation(e, s, cfg, table, selector, ids');
      if o.Fail? {
        RefusedHere(before, events, k, s, cfg, ids');
        return;
      }
      AdmittedHere(before + events[..k], e, s, cfg, ids');
      assert before + events[..k + 1] == before + events[..k] + [e];
      ids' := ids' + {e.eventId};
    }
    assert events[..|events|] == events;
    o := Pass;
  }

  lemma AdmittedHere(seen: seq<PoolEvent>, e: PoolEvent, s: PublicSnapshot, cfg: Config, ids: set<EventId>)
    requires IdsOf(ids, seen) && ValidSoFar(seen, s, cfg) && ValidObservation(e, s, cfg) && e.eventId !in ids
    ensures IdsOf(ids + {e.eventId}, seen + [e]) && ValidSoFar(seen + [e], s, cfg)
  {
    hide ValidObservation;
  }

  lemma RefusedHere(before: seq<PoolEvent>, events: seq<PoolEvent>, k: nat, s: PublicSnapshot, cfg: Config,
                    ids: set<EventId>)
    requires k < |events| && IdsOf(ids, before + events[..k])
    requires !(ValidObservation(events[k], s, cfg) && events[k].eventId !in ids)
    ensures !ValidSoFar(before + events, s, cfg)
  {
    hide ValidObservation;
    var e, all := events[k], before + events;
    assert all[|before| + k] == e;
    if e.eventId in ids {
      var seen :| seen in before + events[..k] && seen.eventId == e.eventId;
      var i :| 0 <= i < |before| + k && (before + events[..k])[i] == seen;
      assert all[i] == seen;
    }
  }

  lemma NoIds(s: PublicSnapshot, cfg: Config)
    ensures IdsOf({}, []) && ValidSoFar([], s, cfg)
  {
  }

  lemma Parts(s: PublicSnapshot, cfg: Config)
    requires WellKinded(s)
    ensures OfKind(s.depositObservations, cfg.depositSelector, cfg)
    ensures OfKind(s.registrationObservations, cfg.registrationSelector, cfg)
    ensures OfKind(OrEmpty(s.withdrawalObservations), cfg.withdrawalSelector, cfg)
    ensures ValidObservations(s, cfg) <==> ValidSoFar(AllObservations(s), s, cfg)
    ensures AllObservations(s)
            == s.depositObservations + (s.registrationObservations + OrEmpty(s.withdrawalObservations))
    ensures [] + s.depositObservations == s.depositObservations
  {
  }

  method CheckObservations(s: PublicSnapshot, cfg: Config, table: map<nat, Header>) returns (o: Outcome<Rejection>)
    requires TableOf(table, s.blockReferences) && WellKinded(s)
    ensures o.Pass? <==> ValidObservations(s, cfg)
    ensures o.Fail? ==> !IsTimeliness(o.error)
  {
    hide ValidObservations, ValidSoFar, IdsOf, OfKind;
    NoIds(s, cfg);
    Parts(s, cfg);
    var ids: set<EventId> := {};
    var deposits, registrations := s.depositObservations, s.registrationObservations;
    var withdrawals := OrEmpty(s.withdrawalObservations);
    o, ids := CheckList([], deposits, s, cfg, table, cfg.depositSelector, ids);
    if o.Fail? {
      PrefixInvalid(deposits, registrations + withdrawals, s, cfg);
      return;
    }
    o, ids := CheckList(deposits, registrations, s, cfg, table, cfg.registrationSelector, ids);
    if o.Fail? {
      PrefixInvalid(deposits + registrations, withdrawals, s, cfg);
      return;
    }
    o, ids := CheckList(deposits + registrations, withdrawals, s, cfg, table, cfg.withdrawalSelector, ids);
  }

  lemma PrefixInvalid(prefix: seq<PoolEvent>, rest: seq<PoolEvent>, s: PublicSnapshot, cfg: Config)
    requires !ValidSoFar(prefix, s, cfg)
    ensures !ValidSoFar(prefix + rest, s, cfg)
  {
    hide ValidObservation;
    if forall e :: e in prefix ==> ValidObservation(e, s, cfg) {
      var i, j :| 0 <= i < j < |prefix| && prefix[i].eventId == prefix[j].eventId;
      assert (prefix + rest)[i] == prefix[i] && (prefix + rest)[j] == prefix[j];
    }
  }

  method CheckTime(f: SnapshotFacts, time: int, cfg: Config) returns (r: Result<Age, Rejection>)
    requires Ordered(f, cfg) && f.observed.timestamp <= time
    ensures r.Ok? <==> Timely(f, time)
    ensures r.Ok? ==> r.value == Age(time - f.indexedThrough.timestamp,
                                     f.rpcHead.timestamp - f.indexedThrough.timestamp)
    ensures r.Err? ==> IsTimeliness(r.error)
  {
    var sourceAge := time - f.indexedThrough.timestamp;
    if sourceAge < 0 {
      return Err(ClockBehind);
    }
    if sourceAge > MAX_SOURCE_AGE {
      return Err(DataStale);
    }
    var lag := f.rpcHead.timestamp - f.indexedThrough.timestamp;
    if lag > MAX_INDEX_LAG {
      return Err(LagExceeded);
    }
    return Ok(Age(sourceAge, lag));
  }

  /**
   Accepts exactly the structurally sound and timely snapshots. A sound snapshot is refused only for
   its age, for the lag of the index behind the provider, or because the clock runs behind the chain.
   */
  method ValidateSnapshot(s: PublicSnapshot, at: Evaluation, cfg: Config) returns (r: Result<Age, Rejection>)
    requires ValidConfig(cfg) && WellKinded(s)
    ensures r.Ok? <==> Structural(s, at, cfg) && Timely(s.facts, at.time)
    ensures Structural(s, at, cfg) && r.Err? ==> IsTimeliness(r.error)
    ensures r.Ok? ==> r.value == Age(at.time - s.facts.indexedThrough.timestamp,
                                     s.facts.rpcHead.timestamp - s.facts.indexedThrough.timestamp)
  {
    hide Identified, Ordered, WellReferenced, Covers, ValidObservations;
    var identity := CheckIdentity(s, cfg);
    if identity.Fail? {
      assert Structural(s, at, cfg) ==> Covers(s, at.time, cfg);
      CoversImpliesWithdrawals(s, at.time, cfg);
      return Err(identity.error);
    }
    var order := CheckOrder(s.facts, at, cfg);
    if order.Fail? {
      return Err(order.error);
    }
    var references, table := CheckReferences(s, cfg);
    if references.Fail? {
      return Err(references.error);
    }
    var coverage := CheckCoverage(s, at.time, cfg);
    if coverage.Fail? {
      return Err(coverage.error);
    }
    var observations := CheckObservations(s, cfg, table);
    if observations.Fail? {
      return Err(observations.error);
    }
    r := CheckTime(s.facts, at.time, cfg);
  }

  lemma CoversImpliesWithdrawals(s: PublicSnapshot, time: int, cfg: Config)
    ensures Covers(s, time, cfg) && s.facts.engineVersion == V14 ==> s.withdrawalObservations.Some?
  {
  }
}
