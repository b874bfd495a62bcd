/**
 From raw chain events to identified pool observations: which events a range query matches, the order
 they are put in, the ordinal each receives within its transaction, and how it is decoded.
 */
module PoolEvents {

  import opened Wrappers
  import opened EngineTypes
  import opened Sequences
  import opened Sorting
  import opened Chain

  const MAX_U128: nat := 0x1_0000_0000_0000_0000_0000_0000_0000_0000 - 1

  /** An event as the provider returns it. */
  datatype RawEvent = RawEvent(blockHash: BlockHash, block: nat, tx: nat, source: Address, keys: seq<nat>,
          data: seq<nat>)

  /**
   The reviewed pool: its identity, its event selectors, which felts are addresses, and the collation that text
   is sorted by.
  */
  datatype Config = Config(
    chainId: nat,
    pool: Address,
    classHash: nat,
    abiVersion: nat,
    deploymentBlock: nat,
    depositSelector: nat,
    withdrawalSelector: nat,
    registrationSelector: nat,
    isAddress: nat -> bool,
    feltOrder: (nat, nat) -> bool,
    fingerprintOrder: (RawEvent, RawEvent) -> bool,
    idOrder: (EventId, EventId) -> bool,
    codeUnitOrder: (nat, nat) -> bool)

  datatype EventId = EventId(block: nat, tx: nat, ordinal: nat)

  ghost predicate TotalOrder<T(!new)>(leq: (T, T) -> bool) {
    TotalPreorder(leq) && forall x, y :: leq(x, y) && leq(y, x) ==> x == y
  }

  /** Collation compares distinct texts as distinct, and the fingerprint spells the whole event out. */
  ghost predicate ValidConfig(cfg: Config) {
    && TotalOrder(cfg.feltOrder)
    && TotalOrder(cfg.fingerprintOrder)
    && TotalOrder(cfg.idOrder)
    && TotalOrder(cfg.codeUnitOrder)
    && cfg.depositSelector != cfg.withdrawalSelector
    && cfg.depositSelector != cfg.registrationSelector
    && cfg.withdrawalSelector != cfg.registrationSelector
  }

  function Selectors(cfg: Config, model: ModelVersion): set<nat> {
    {cfg.depositSelector, cfg.registrationSelector} + (if model == V14 then {cfg.withdrawalSelector} else {})
  }

  // ----- what a range query matches

  /** The part of a query that does not name its range. */
  datatype Query = Query(pool: Address, selectors: set<nat>)

  function QueryOf(cfg: Config, model: ModelVersion): Query {
    Query(cfg.pool, Selectors(cfg, model))
  }

  function Matches(query: Query): RawLog -> bool {
    (log: RawLog) => log.source == query.pool && log.keys != [] && log.keys[0] in query.selectors
  }

  function AsEvent(header: Header): RawLog -> RawEvent {
    (log: RawLog) => RawEvent(header.hash, header.number, log.tx, log.source, log.keys, log.data)
  }

  function EventsAt(query: Query, chain: seq<Body>, n: nat): (events: seq<RawEvent>)
    requires n < |chain|
    ensures forall i :: 0 <= i < |events| ==> events[i].block == n
  {
    Map(Filter(chain[n].logs, Matches(query)), AsEvent(HeaderAt(chain, n)))
  }

  /** The matching events of blocks from, from + 1, ..., end - 1. */
  function EventsIn(query: Query, chain: seq<Body>, from: nat, end: nat): (events: seq<RawEvent>)
    requires end <= |chain|
    ensures forall i :: 0 <= i < |events| ==> from <= events[i].block < end
  {
    if end <= from then []
    else EventsIn(query, chain, from, end - 1) + EventsAt(query, chain, end - 1)
  }

  lemma {:induction false} EventsSplit(query: Query, chain: seq<Body>, from: nat, mid: nat, end: nat)
    requires from <= mid <= end <= |chain|
    ensures EventsIn(query, chain, from, end)
            == EventsIn(query, chain, from, mid) + EventsIn(query, chain, mid, end)
  {
    hide EventsAt;
    var head := EventsIn(query, chain, from, mid);
    if mid == end {
      assert head + [] == head;
    } else {
      EventsSplit(query, chain, from, mid, end - 1);
      var tail, last := EventsIn(query, chain, mid, end - 1), EventsAt(query, chain, end - 1);
      assert head + (tail + last) == head + tail + last;
    }
  }

  lemma {:induction false} EventsOfPrefix(query: Query, chain: seq<Body>, m: nat, from: nat, end: nat)
    requires end <= m <= |chain|
    ensures EventsIn(query, chain[..m], from, end) == EventsIn(query, chain, from, end)
  {
    if from < end {
      EventsOfPrefix(query, chain, m, from, end - 1);
      HeaderOfPrefix(chain, m, end - 1);
    }
  }

  // ----- order

  /** Block, then transaction, then the full text of the event. */
  function RawOrder(cfg: Config): (RawEvent, RawEvent) -> bool {
    (x: RawEvent, y: RawEvent) =>
      if x.block != y.block then x.block < y.block
      else if x.tx != y.tx then cfg.feltOrder(x.tx, y.tx)
      else cfg.fingerprintOrder(x, y)
  }

  lemma RawOrderTotal(cfg: Config)
    requires ValidConfig(cfg)
    ensures TotalOrder(RawOrder(cfg))
  {
    forall x, y ensures RawOrder(cfg)(x, y) || RawOrder(cfg)(y, x) {
      assert cfg.feltOrder(x.tx, y.tx) || cfg.feltOrder(y.tx, x.tx);
    }
    forall x, y, z | RawOrder(cfg)(x, y) && RawOrder(cfg)(y, z) ensures RawOrder(cfg)(x, z) {
      RawOrderTransitive(cfg, x, y, z);
    }
  }

  lemma RawOrderTransitive(cfg: Config, x: RawEvent, y: RawEvent, z: RawEvent)
    requires ValidConfig(cfg) && RawOrder(cfg)(x, y) && RawOrder(cfg)(y, z)
    ensures RawOrder(cfg)(x, z)
  {
  }

  // ----- ordinals and identity

  function SameTransaction(e: RawEvent): RawEvent -> bool {
    (other: RawEvent) => other.block == e.block && other.tx == e.tx
  }

  /** How many earlier events share the transaction of event i. */
  function OrdinalAt(events: seq<RawEvent>, i: nat): nat
    requires i < |events|
  {
    |Filter(events[..i], SameTransaction(events[i]))|
  }

  function IdAt(events: seq<RawEvent>, i: nat): EventId
    requires i < |events|
  {
    EventId(events[i].block, events[i].tx, OrdinalAt(events, i))
  }

  lemma OrdinalStep(events: seq<RawEvent>, i: nat, j: nat)
    requires i < j < |events| && SameTransaction(events[j])(events[i])
    ensures OrdinalAt(events, i) < OrdinalAt(events, j)
  {
    assert events[..j] == events[..i] + [events[i]] + events[i + 1..j];
    FilterConcat(events[..i] + [events[i]], events[i + 1..j], SameTransaction(events[j]));
    FilterConcat(events[..i], [events[i]], SameTransaction(events[j]));
    FilterSame(events[..i], SameTransaction(events[i]), SameTransaction(events[j]));
  }

  /** No two positions share an identity, whatever duplicates the events contain. */
  lemma IdsDistinct(events: seq<RawEvent>, i: nat, j: nat)
    requires i < |events| && j < |events| && i != j
    ensures IdAt(events, i) != IdAt(events, j)
  {
    if SameTransaction(events[j])(events[i]) {
      OrdinalStep(events, if i < j then i else j, if i < j then j else i);
    }
  }

  /** Adjacent duplicates receive consecutive ordinals. */
  lemma DuplicatesConsecutive(events: seq<RawEvent>, i: nat)
    requires i + 1 < |events| && events[i] == events[i + 1]
    ensures OrdinalAt(events, i + 1) == OrdinalAt(events, i) + 1
  {
    assert events[..i + 1] == events[..i] + [events[i]];
    FilterConcat(events[..i], [events[i]], SameTransaction(events[i]));
  }

  /**
   In whatever order events arrive, sorting puts the copies of one event side by side, and they receive
   consecutive ordinals.
   */
  lemma {:induction false} DuplicatesContiguous(cfg: Config, received: seq<RawEvent>, i: nat, j: nat)
    requires ValidConfig(cfg) && i <= j < |received|
    requires Sort(RawOrder(cfg), received)[i] == Sort(RawOrder(cfg), received)[j]
    ensures var sorted := Sort(RawOrder(cfg), received);
            && (forall k :: i <= k <= j ==> sorted[k] == sorted[i])
            && OrdinalAt(sorted, j) == OrdinalAt(sorted, i) + (j - i)
    decreases j
  {
    hide Sort, OrdinalAt, RawOrder;
    var sorted := Sort(RawOrder(cfg), received);
    if i < j {
      RawOrderTotal(cfg);
      SortSorted(RawOrder(cfg), received);
      assert RawOrder(cfg)(sorted[j - 1], sorted[j]);
      assert i < j - 1 ==> RawOrder(cfg)(sorted[i], sorted[j - 1]);
      DuplicatesContiguous(cfg, received, i, j - 1);
      DuplicatesConsecutive(sorted, j - 1);
    }
  }

  // ----- decoding

  datatype Detail =
    | Deposit(depositor: Address, token: Address, amount: nat)
    | Withdrawal(recipient: Address, token: Address, amount: nat)
    | Registration(account: Address)

  /** A normalised public observation with its provenance. */
  datatype PoolEvent = PoolEvent(
    block: nat,
    blockHash: BlockHash,
    timestamp: nat,
    tx: nat,
    ordinal: nat,
    eventId: EventId,
    selector: nat,
    detail: Detail)

  datatype DecodeError =
    EventSchemaInvalid | EventBlockInconsistent | AddressInvalid | PoolAddressMismatch | UnknownEventSelector

  function DecodePoolEvent(raw: RawEvent, ordinal: nat, header: Header, cfg: Config):
    (r: Result<PoolEvent, DecodeError>)
    ensures r.Ok? ==> r.value.eventId == EventId(raw.block, raw.tx, ordinal)
    ensures r.Ok? ==> r.value.tx == raw.tx && r.value.ordinal == ordinal && r.value.timestamp == header.timestamp
    ensures r.Ok? ==> r.value.block == header.number && r.value.blockHash == header.hash == raw.blockHash
  {
    if raw.keys == [] then Err(EventSchemaInvalid)
    else if raw.block != header.number || raw.blockHash != header.hash then Err(EventBlockInconsistent)
    else if !cfg.isAddress(raw.source) then Err(AddressInvalid)
    else if raw.source != cfg.pool then Err(PoolAddressMismatch)
    else
      var selector := raw.keys[0];
      var observed := (detail: Detail) =>
        PoolEvent(header.number, header.hash, header.timestamp, raw.tx, ordinal,
                  EventId(raw.block, raw.tx, ordinal), selector, detail);
      if selector == cfg.depositSelector then
        if |raw.keys| != 3 || |raw.data| != 1 then Err(EventSchemaInvalid)
        else if !cfg.isAddress(raw.keys[1]) || !cfg.isAddress(raw.keys[2]) then Err(AddressInvalid)
        else if raw.data[0] > MAX_U128 then Err(EventSchemaInvalid)
        else Ok(observed(Deposit(raw.keys[1], raw.keys[2], raw.data[0])))
      else if selector == cfg.withdrawalSelector then
        if |raw.keys| != 3 || |raw.data| != 4 then Err(EventSchemaInvalid)
        else if !cfg.isAddress(raw.keys[1]) || !cfg.isAddress(raw.keys[2]) then Err(AddressInvalid)
        else if raw.data[3] > MAX_U128 then Err(EventSchemaInvalid)
        else Ok(observed(Withdrawal(raw.keys[1], raw.keys[2], raw.data[3])))
      else if selector == cfg.registrationSelector then
        if |raw.keys| != 3 || |raw.data| != 3 then Err(EventSchemaInvalid)
        else if !cfg.isAddress(raw.keys[1]) then Err(AddressInvalid)
        else Ok(observed(Registration(raw.keys[1])))
      else Err(UnknownEventSelector)
  }

  function SelectorOf(detail: Detail, cfg: Config): nat {
    match detail
    case Deposit(_, _, _) => cfg.depositSelector
    case Withdrawal(_, _, _) => cfg.withdrawalSelector
    case Registration(_) => cfg.registrationSelector
  }

  predicate AddressesValid(detail: Detail, cfg: Config) {
    match detail
    case Deposit(depositor, token, _) => cfg.isAddress(depositor) && cfg.isAddress(token)
    case Withdrawal(recipient, token, _) => cfg.isAddress(recipient) && cfg.isAddress(token)
    case Registration(account) => cfg.isAddress(account)
  }

  /** The selector fits the kind, addresses and amounts are valid, and the identity spells out the provenance. */
  predicate WellFormed(e: PoolEvent, cfg: Config) {
    && e.selector == SelectorOf(e.detail, cfg) && AddressesValid(e.detail, cfg)
    && (!e.detail.Registration? ==> e.detail.amount <= MAX_U128)
    && e.eventId == EventId(e.block, e.tx, e.ordinal)
  }

  lemma DecodedWellFormed(raw: RawEvent, ordinal: nat, header: Header, cfg: Config)
    requires DecodePoolEvent(raw, ordinal, header, cfg).Ok?
    ensures WellFormed(DecodePoolEvent(raw, ordinal, header, cfg).value, cfg)
  {
  }
}
