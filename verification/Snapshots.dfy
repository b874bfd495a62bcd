/** The public snapshot, its canonical form, its serialised form, and reading it back. */
module Snapshots {

  import opened Wrappers
  import opened EngineTypes
  import opened Sorting
  import opened Chain
  import opened PoolEvents

  /** A named position on the chain. */
  datatype Point = Point(block: nat, hash: BlockHash, timestamp: nat)

  /** The members that are numbers, truth values or text. */
  datatype SnapshotFacts = SnapshotFacts(
    chainId: nat,
    poolAddress: Address,
    poolClassHash: nat,
    poolAbiFixtureVersion: nat,
    observed: Point,
    indexedThrough: Point,
    rpcHead: Point,
    sourceFrom: Point,
    requiredFromTimestamp: nat,
    sourceComplete: bool,
    pagesComplete: bool,
    sourceParentBlock: nat,
    sourceParentHash: BlockHash,
    sourceDeclaredParentHash: BlockHash,
    engineVersion: ModelVersion,
    freshnessPolicyVersion: nat)

  datatype PublicSnapshot = PublicSnapshot(
    facts: SnapshotFacts,
    queriedSelectors: seq<nat>,
    blockReferences: seq<Header>,
    depositObservations: seq<PoolEvent>,
    withdrawalObservations: Option<seq<PoolEvent>>,
    registrationObservations: seq<PoolEvent>)

  /** Observation lists hold observations of their own kind. */
  predicate WellKinded(s: PublicSnapshot) {
    && (forall e :: e in s.depositObservations ==> e.detail.Deposit?)
    && (forall e :: e in s.registrationObservations ==> e.detail.Registration?)
    && (s.withdrawalObservations.Some? ==> forall e :: e in s.withdrawalObservations.value ==> e.detail.Withdrawal?)
  }

  // ----- canonical form

  function ObservationOrder(cfg: Config): (PoolEvent, PoolEvent) -> bool {
    (x: PoolEvent, y: PoolEvent) =>
      if x.block != y.block then x.block < y.block
      else if x.ordinal != y.ordinal then x.ordinal < y.ordinal
      else cfg.idOrder(x.eventId, y.eventId)
  }

  function ReferenceOrder(): (Header, Header) -> bool {
    (x: Header, y: Header) => x.number <= y.number
  }

  function Canonical(cfg: Config, s: PublicSnapshot): PublicSnapshot {
    s.(queriedSelectors := Sort(cfg.codeUnitOrder, s.queriedSelectors),
       blockReferences := Sort(ReferenceOrder(), s.blockReferences),
       depositObservations := Sort(ObservationOrder(cfg), s.depositObservations),
       withdrawalObservations :=
         if s.withdrawalObservations.None? then None
         else Some(Sort(ObservationOrder(cfg), s.withdrawalObservations.value)),
       registrationObservations := Sort(ObservationOrder(cfg), s.registrationObservations))
  }

  lemma ObservationOrderTotal(cfg: Config)
    requires ValidConfig(cfg)
    ensures TotalPreorder(ObservationOrder(cfg))
  {
    forall x, y ensures ObservationOrder(cfg)(x, y) || ObservationOrder(cfg)(y, x) {
      assert cfg.idOrder(x.eventId, y.eventId) || cfg.idOrder(y.eventId, x.eventId);
    }
    forall x, y, z | ObservationOrder(cfg)(x, y) && ObservationOrder(cfg)(y, z) ensures ObservationOrder(cfg)(x, z) {
      ObservationOrderTransitive(cfg, x, y, z);
    }
  }

  lemma ObservationOrderTransitive(cfg: Config, x: PoolEvent, y: PoolEvent, z: PoolEvent)
    requires ValidConfig(cfg) && ObservationOrder(cfg)(x, y) && ObservationOrder(cfg)(y, z)
    ensures ObservationOrder(cfg)(x, z)
  {
    if x.block == z.block && x.ordinal == z.ordinal {
      assert cfg.idOrder(x.eventId, y.eventId) && cfg.idOrder(y.eventId, z.eventId);
    }
  }

  /** Canonicalising twice is canonicalising once. */
  lemma CanonicalIdempotent(cfg: Config, s: PublicSnapshot)
    requires ValidConfig(cfg)
    ensures Canonical(cfg, Canonical(cfg, s)) == Canonical(cfg, s)
  {
    ObservationOrderTotal(cfg);
    Settled(cfg.codeUnitOrder, s.queriedSelectors);
    Settled(ReferenceOrder(), s.blockReferences);
    Settled(ObservationOrder(cfg), s.depositObservations);
    Settled(ObservationOrder(cfg), s.registrationObservations);
    if s.withdrawalObservations.Some? {
      Settled(ObservationOrder(cfg), s.withdrawalObservations.value);
    }
  }

  lemma Settled<T(!new)>(leq: (T, T) -> bool, s: seq<T>)
    requires TotalPreorder(leq)
    ensures Sort(leq, Sort(leq, s)) == Sort(leq, s)
  {
    SortSorted(leq, s);
    SortOfSorted(leq, Sort(leq, s));
  }

  predicate DistinctEvents(events: seq<PoolEvent>) {
    forall x, y :: x in events && y in events && x.eventId == y.eventId ==> x == y
  }

  predicate DistinctBlocks(references: seq<Header>) {
    forall x, y :: x in references && y in references && x.number == y.number ==> x == y
  }

  /** The same data up to the order of its lists. */
  predicate SameUpToOrder(a: PublicSnapshot, b: PublicSnapshot) {
    && a.facts == b.facts
    && multiset(a.queriedSelectors) == multiset(b.queriedSelectors)
    && multiset(a.blockReferences) == multiset(b.blockReferences)
    && multiset(a.depositObservations) == multiset(b.depositObservations)
    && multiset(a.registrationObservations) == multiset(b.registrationObservations)
    && a.withdrawalObservations.Some? == b.withdrawalObservations.Some?
    && (a.withdrawalObservations.Some? ==>
          multiset(a.withdrawalObservations.value) == multiset(b.withdrawalObservations.value))
  }

  lemma EventsSettle(cfg: Config, a: seq<PoolEvent>, b: seq<PoolEvent>)
    requires ValidConfig(cfg) && DistinctEvents(a) && multiset(a) == multiset(b)
    ensures Sort(ObservationOrder(cfg), a) == Sort(ObservationOrder(cfg), b)
  {
    ObservationOrderTotal(cfg);
    forall x, y | x in a && y in a && ObservationOrder(cfg)(x, y) && ObservationOrder(cfg)(y, x) ensures x == y {
      assert x.eventId == y.eventId;
    }
    SortPermutation(ObservationOrder(cfg), a, b);
  }

  /** Given distinct event ids and block numbers, the canonical form forgets every input order. */
  lemma CanonicalForgetsOrder(cfg: Config, a: PublicSnapshot, b: PublicSnapshot)
    requires ValidConfig(cfg) && SameUpToOrder(a, b)
    requires DistinctBlocks(a.blockReferences)
    requires DistinctEvents(a.depositObservations) && DistinctEvents(a.registrationObservations)
    requires a.withdrawalObservations.Some? ==> DistinctEvents(a.withdrawalObservations.value)
    ensures Canonical(cfg, a) == Canonical(cfg, b)
  {
    SortPermutation(cfg.codeUnitOrder, a.queriedSelectors, b.queriedSelectors);
    SortPermutation(ReferenceOrder(), a.blockReferences, b.blockReferences);
    EventsSettle(cfg, a.depositObservations, b.depositObservations);
    EventsSettle(cfg, a.registrationObservations, b.registrationObservations);
    if a.withdrawalObservations.Some? {
      EventsSettle(cfg, a.withdrawalObservations.value, b.withdrawalObservations.value);
    }
  }
}
