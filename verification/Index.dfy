/**
 The index of a chain segment: its matching events in order, each decoded under its ordinal. This is
 what one single batch over the whole segment stores, and the yardstick for every incremental run.
 */
module Index {

  import opened Wrappers
  import opened EngineTypes
  import opened Sequences
  import opened Sorting
  import opened Chain
  import opened PoolEvents

  function SortedEvents(cfg: Config, model: ModelVersion, chain: seq<Body>, from: nat, end: nat):
    (events: seq<RawEvent>)
    requires end <= |chain|
    ensures forall i :: 0 <= i < |events| ==> from <= events[i].block < end
  {
    var events := EventsIn(QueryOf(cfg, model), chain, from, end);
    var sorted := Sort(RawOrder(cfg), events);
    SortMembers(RawOrder(cfg), events);
    assert forall i :: 0 <= i < |sorted| ==> sorted[i] in sorted;
    sorted
  }

  type Decoded = Result<PoolEvent, DecodeError>

  predicate WithinChain(chain: seq<Body>, events: seq<RawEvent>) {
    forall i :: 0 <= i < |events| ==> events[i].block < |chain|
  }

  function DecodeAt(cfg: Config, chain: seq<Body>, events: seq<RawEvent>, i: nat): Decoded
    requires i < |events| && events[i].block < |chain|
  {
    DecodePoolEvent(events[i], OrdinalAt(events, i), HeaderAt(chain, events[i].block), cfg)
  }

  function DecodeAll(cfg: Config, chain: seq<Body>, events: seq<RawEvent>): (r: seq<Decoded>)
    requires WithinChain(chain, events)
    ensures |r| == |events|
  {
    seq(|events|, i requires 0 <= i < |events| => DecodeAt(cfg, chain, events, i))
  }

  predicate AllOk(results: seq<Decoded>) {
    forall i :: 0 <= i < |results| ==> results[i].Ok?
  }

  function OkValues(results: seq<Decoded>): (rows: seq<PoolEvent>)
    ensures forall row :: row in rows ==> Ok(row) in results
    ensures forall row :: Ok(row) in results ==> row in rows
  {
    if results == [] then []
    else if results[0].Ok? then [results[0].value] + OkValues(results[1..])
    else OkValues(results[1..])
  }

  /** The observations of blocks from, ..., end - 1, as one batch over all of them records them. */
  function IndexOf(cfg: Config, model: ModelVersion, chain: seq<Body>, from: nat, end: nat): seq<PoolEvent>
    requires end <= |chain|
  {
    OkValues(DecodeAll(cfg, chain, SortedEvents(cfg, model, chain, from, end)))
  }

  /** Every matching event of the segment meets the reviewed schema. */
  predicate Clean(cfg: Config, model: ModelVersion, chain: seq<Body>, from: nat, end: nat)
    requires end <= |chain|
  {
    AllOk(DecodeAll(cfg, chain, SortedEvents(cfg, model, chain, from, end)))
  }

  // ----- a segment's index is the concatenation of the indexes of its parts

  lemma {:induction false} OkValuesConcat(a: seq<Decoded>, b: seq<Decoded>)
    ensures OkValues(a + b) == OkValues(a) + OkValues(b)
  {
    if a == [] {
      assert a + b == b;
    } else {
      assert (a + b)[1..] == a[1..] + b;
      OkValuesConcat(a[1..], b);
    }
  }

  lemma {:induction false} OkValuesAll(results: seq<Decoded>)
    requires AllOk(results)
    ensures |OkValues(results)| == |results|
    ensures forall i :: 0 <= i < |results| ==> OkValues(results)[i] == results[i].value
  {
    if results != [] {
      OkValuesAll(results[1..]);
    }
  }

  lemma SortedSplit(cfg: Config, model: ModelVersion, chain: seq<Body>, from: nat, mid: nat, end: nat)
    requires ValidConfig(cfg) && from <= mid <= end <= |chain|
    ensures SortedEvents(cfg, model, chain, from, end)
            == SortedEvents(cfg, model, chain, from, mid) + SortedEvents(cfg, model, chain, mid, end)
  {
    var leq := RawOrder(cfg);
    var a, b := SortedEvents(cfg, model, chain, from, mid), SortedEvents(cfg, model, chain, mid, end);
    RawOrderTotal(cfg);
    EventsSplit(QueryOf(cfg, model), chain, from, mid, end);
    SegmentSorted(cfg, model, chain, from, mid);
    SegmentSorted(cfg, model, chain, mid, end);
    SegmentSorted(cfg, model, chain, from, end);
    SortedConcat(leq, a, b);
    SortedUnique(leq, SortedEvents(cfg, model, chain, from, end), a + b);
  }

  lemma SegmentSorted(cfg: Config, model: ModelVersion, chain: seq<Body>, from: nat, end: nat)
    requires ValidConfig(cfg) && end <= |chain|
    ensures Sorted(RawOrder(cfg), SortedEvents(cfg, model, chain, from, end))
    ensures multiset(SortedEvents(cfg, model, chain, from, end))
            == multiset(EventsIn(QueryOf(cfg, model), chain, from, end))
  {
    RawOrderTotal(cfg);
    SortSorted(RawOrder(cfg), EventsIn(QueryOf(cfg, model), chain, from, end));
  }

  lemma SortedConcat<T>(leq: (T, T) -> bool, a: seq<T>, b: seq<T>)
    requires Sorted(leq, a) && Sorted(leq, b)
    requires forall i, j :: 0 <= i < |a| && 0 <= j < |b| ==> leq(a[i], b[j])
    ensures Sorted(leq, a + b)
  {
  }

  /** Ordinals restart at a block boundary, so they do not see where batches were cut. */
  lemma OrdinalAcrossCut(a: seq<RawEvent>, b: seq<RawEvent>, mid: nat, j: nat)
    requires forall i :: 0 <= i < |a| ==> a[i].block < mid
    requires forall i :: 0 <= i < |b| ==> mid <= b[i].block
    requires j < |b|
    ensures OrdinalAt(a + b, |a| + j) == OrdinalAt(b, j)
  {
    assert (a + b)[..|a| + j] == a + b[..j];
    FilterConcat(a, b[..j], SameTransaction(b[j]));
    FilterNone(a, SameTransaction(b[j]));
  }

  lemma DecodeSplit(cfg: Config, chain: seq<Body>, a: seq<RawEvent>, b: seq<RawEvent>, mid: nat)
    requires WithinChain(chain, a) && WithinChain(chain, b)
    requires forall i :: 0 <= i < |a| ==> a[i].block < mid
    requires forall i :: 0 <= i < |b| ==> mid <= b[i].block
    ensures DecodeAll(cfg, chain, a + b) == DecodeAll(cfg, chain, a) + DecodeAll(cfg, chain, b)
  {
    forall i | 0 <= i < |a| ensures DecodeAt(cfg, chain, a + b, i) == DecodeAt(cfg, chain, a, i) {
      assert (a + b)[..i] == a[..i];
    }
    forall j | 0 <= j < |b| ensures DecodeAt(cfg, chain, a + b, |a| + j) == DecodeAt(cfg, chain, b, j) {
      OrdinalAcrossCut(a, b, mid, j);
    }
  }

  /** Where a range is cut into batches does not matter. */
  lemma IndexSplit(cfg: Config, model: ModelVersion, chain: seq<Body>, from: nat, mid: nat, end: nat)
    requires ValidConfig(cfg) && from <= mid <= end <= |chain|
    ensures IndexOf(cfg, model, chain, from, end)
            == IndexOf(cfg, model, chain, from, mid) + IndexOf(cfg, model, chain, mid, end)
    ensures Clean(cfg, model, chain, from, end)
            <==> Clean(cfg, model, chain, from, mid) && Clean(cfg, model, chain, mid, end)
  {
    var a, b := SortedEvents(cfg, model, chain, from, mid), SortedEvents(cfg, model, chain, mid, end);
    SortedSplit(cfg, model, chain, from, mid, end);
    DecodeSplit(cfg, chain, a, b, mid);
    OkValuesConcat(DecodeAll(cfg, chain, a), DecodeAll(cfg, chain, b));
    AllOkConcat(DecodeAll(cfg, chain, a), DecodeAll(cfg, chain, b));
  }

  lemma AllOkConcat(a: seq<Decoded>, b: seq<Decoded>)
    ensures AllOk(a + b) <==> AllOk(a) && AllOk(b)
  {
    if AllOk(a + b) {
      assert forall i :: 0 <= i < |a| ==> a[i] == (a + b)[i];
      assert forall j :: 0 <= j < |b| ==> b[j] == (a + b)[|a| + j];
    }
  }

  /** Blocks beyond the segment have no influence on its index. */
  lemma IndexOfPrefix(cfg: Config, model: ModelVersion, chain: seq<Body>, m: nat, from: nat, end: nat)
    requires end <= m <= |chain|
    ensures IndexOf(cfg, model, chain[..m], from, end) == IndexOf(cfg, model, chain, from, end)
    ensures Clean(cfg, model, chain[..m], from, end) == Clean(cfg, model, chain, from, end)
  {
    EventsOfPrefix(QueryOf(cfg, model), chain, m, from, end);
    var events := SortedEvents(cfg, model, chain, from, end);
    assert DecodeAll(cfg, chain[..m], events) == DecodeAll(cfg, chain, events) by {
      forall i | 0 <= i < |events| ensures DecodeAt(cfg, chain[..m], events, i) == DecodeAt(cfg, chain, events, i) {
        HeaderOfPrefix(chain, m, events[i].block);
      }
    }
  }

  // ----- identity within the index

  predicate DistinctIds(rows: seq<PoolEvent>) {
    forall i, j :: 0 <= i < j < |rows| ==> rows[i].eventId != rows[j].eventId
  }

  lemma IndexIdentities(cfg: Config, model: ModelVersion, chain: seq<Body>, from: nat, end: nat)
    requires end <= |chain| && Clean(cfg, model, chain, from, end)
    ensures DistinctIds(IndexOf(cfg, model, chain, from, end))
  {
    var events := SortedEvents(cfg, model, chain, from, end);
    var results := DecodeAll(cfg, chain, events);
    OkValuesAll(results);
    var rows := IndexOf(cfg, model, chain, from, end);
    forall i, j | 0 <= i < j < |rows| ensures rows[i].eventId != rows[j].eventId {
      assert results[i] == DecodeAt(cfg, chain, events, i) && results[j] == DecodeAt(cfg, chain, events, j);
      IdsDistinct(events, i, j);
    }
  }

  /** Each row lies in the segment and carries the hash and time of its block. */
  lemma IndexRow(cfg: Config, model: ModelVersion, chain: seq<Body>, from: nat, end: nat, row: PoolEvent)
    requires end <= |chain| && row in IndexOf(cfg, model, chain, from, end)
    ensures from <= row.block < end
    ensures row.blockHash == HeaderAt(chain, row.block).hash && row.timestamp == HeaderAt(chain, row.block).timestamp
    ensures WellFormed(row, cfg)
  {
    var events := SortedEvents(cfg, model, chain, from, end);
    var results := DecodeAll(cfg, chain, events);
    assert Ok(row) in results;
    var i :| 0 <= i < |results| && results[i] == Ok(row);
    assert results[i] == DecodeAt(cfg, chain, events, i);
    DecodedWellFormed(events[i], OrdinalAt(events, i), HeaderAt(chain, events[i].block), cfg);
  }

  // ----- which kinds an index contains

  lemma MatchedSelectors(query: Query, chain: seq<Body>, from: nat, end: nat)
    requires end <= |chain|
    ensures forall raw :: raw in EventsIn(query, chain, from, end) ==>
              raw.keys != [] && raw.keys[0] in query.selectors
  {
    if from < end {
      MatchedSelectors(query, chain, from, end - 1);
      var logs := Filter(chain[end - 1].logs, Matches(query));
      forall raw | raw in EventsAt(query, chain, end - 1)
        ensures raw.keys != [] && raw.keys[0] in query.selectors
      {
        var k :| 0 <= k < |logs| && AsEvent(HeaderAt(chain, end - 1))(logs[k]) == raw;
        assert logs[k] in logs;
      }
    }
  }

  lemma SortedSelectors(cfg: Config, model: ModelVersion, chain: seq<Body>, from: nat, end: nat, i: nat)
    requires ValidConfig(cfg) && end <= |chain| && i < |SortedEvents(cfg, model, chain, from, end)|
    ensures var raw := SortedEvents(cfg, model, chain, from, end)[i];
            raw.keys != [] && raw.keys[0] in Selectors(cfg, model)
  {
    var events := SortedEvents(cfg, model, chain, from, end);
    MatchedSelectors(QueryOf(cfg, model), chain, from, end);
    SegmentSorted(cfg, model, chain, from, end);
    PermutationBasics(events, EventsIn(QueryOf(cfg, model), chain, from, end));
    assert events[i] in events;
  }

  lemma DecodedKind(raw: RawEvent, ordinal: nat, header: Header, cfg: Config)
    requires ValidConfig(cfg) && raw.keys != [] && raw.keys[0] in Selectors(cfg, V13)
    requires DecodePoolEvent(raw, ordinal, header, cfg).Ok?
    ensures !DecodePoolEvent(raw, ordinal, header, cfg).value.detail.Withdrawal?
  {
  }

  /** v1.3 never asks for withdrawals, so its index has none. */
  lemma NoWithdrawalsInV13(cfg: Config, chain: seq<Body>, from: nat, end: nat)
    requires ValidConfig(cfg) && end <= |chain|
    ensures forall row :: row in IndexOf(cfg, V13, chain, from, end) ==> !row.detail.Withdrawal?
  {
    hide SortedEvents, DecodePoolEvent;
    var events := SortedEvents(cfg, V13, chain, from, end);
    var results := DecodeAll(cfg, chain, events);
    forall row | row in IndexOf(cfg, V13, chain, from, end) ensures !row.detail.Withdrawal? {
      assert Ok(row) in results;
      var i :| 0 <= i < |results| && results[i] == Ok(row);
      assert results[i] == DecodeAt(cfg, chain, events, i);
      SortedSelectors(cfg, V13, chain, from, end, i);
      DecodedKind(events[i], OrdinalAt(events, i), HeaderAt(chain, events[i].block), cfg);
    }
  }

  // ----- segments with at most one event

  lemma {:induction false} QuietBlocks(query: Query, chain: seq<Body>, from: nat, end: nat)
    requires end <= |chain| && forall n :: from <= n < end ==> chain[n].logs == []
    ensures EventsIn(query, chain, from, end) == []
  {
    if from < end {
      QuietBlocks(query, chain, from, end - 1);
    }
  }

  /** Blocks without logs have an empty index. */
  lemma QuietIndex(cfg: Config, model: ModelVersion, chain: seq<Body>, from: nat, end: nat)
    requires end <= |chain| && forall n :: from <= n < end ==> chain[n].logs == []
    ensures IndexOf(cfg, model, chain, from, end) == [] && Clean(cfg, model, chain, from, end)
  {
    QuietBlocks(QueryOf(cfg, model), chain, from, end);
  }

  /** A deposit as its block carries it. */
  function DepositLog(cfg: Config, tx: nat, depositor: Address, token: Address, amount: nat): RawLog {
    RawLog(tx, cfg.pool, [cfg.depositSelector, depositor, token], [amount])
  }

  function DepositRow(cfg: Config, chain: seq<Body>, n: nat, tx: nat, depositor: Address, token: Address, amount: nat):
    PoolEvent
    requires n < |chain|
  {
    PoolEvent(n, chain[..n + 1], chain[n].timestamp, tx, 0, EventId(n, tx, 0), cfg.depositSelector,
              Deposit(depositor, token, amount))
  }

  /** A block that carries one deposit and nothing else has an index of one row. */
  lemma SingleDeposit(cfg: Config, model: ModelVersion, chain: seq<Body>, n: nat, tx: nat, depositor: Address,
                      token: Address, amount: nat)
    requires ValidConfig(cfg) && n < |chain| && chain[n].logs == [DepositLog(cfg, tx, depositor, token, amount)]
    requires cfg.isAddress(cfg.pool) && cfg.isAddress(depositor) && cfg.isAddress(token) && amount <= MAX_U128
    ensures Clean(cfg, model, chain, n, n + 1)
    ensures IndexOf(cfg, model, chain, n, n + 1) == [DepositRow(cfg, chain, n, tx, depositor, token, amount)]
  {
    hide EventsIn, IndexOf, Clean, ValidConfig;
    var log := DepositLog(cfg, tx, depositor, token, amount);
    var raw := AsEvent(HeaderAt(chain, n))(log);
    SingleEvent(QueryOf(cfg, model), chain, n, log);
    SingleRow(cfg, model, chain, n, n + 1, raw);
  }

  lemma SingleRow(cfg: Config, model: ModelVersion, chain: seq<Body>, from: nat, end: nat, raw: RawEvent)
    requires end <= |chain| && EventsIn(QueryOf(cfg, model), chain, from, end) == [raw]
    requires raw.block < |chain| && DecodePoolEvent(raw, 0, HeaderAt(chain, raw.block), cfg).Ok?
    ensures Clean(cfg, model, chain, from, end)
    ensures IndexOf(cfg, model, chain, from, end) == [DecodePoolEvent(raw, 0, HeaderAt(chain, raw.block), cfg).value]
  {
    hide DecodePoolEvent, EventsIn;
    SortOne(RawOrder(cfg), raw);
    assert [raw][..0] == [] && OrdinalAt([raw], 0) == 0;
    assert SortedEvents(cfg, model, chain, from, end) == [raw];
    var results := DecodeAll(cfg, chain, [raw]);
    assert results == [DecodeAt(cfg, chain, [raw], 0)];
    OkValuesAll(results);
  }

  lemma SortOne<T>(leq: (T, T) -> bool, x: T)
    ensures Sort(leq, [x]) == [x]
  {
    assert [x][1..] == [] && Sort(leq, [x][1..]) == [];
    assert Insert(leq, x, []) == [x];
  }

  lemma SingleEvent(query: Query, chain: seq<Body>, n: nat, log: RawLog)
    requires n < |chain| && chain[n].logs == [log] && Matches(query)(log)
    ensures EventsIn(query, chain, n, n + 1) == [AsEvent(HeaderAt(chain, n))(log)]
  {
    assert EventsIn(query, chain, n, n) == [];
    assert Filter([log], Matches(query)) == [log];
    assert EventsAt(query, chain, n) == [AsEvent(HeaderAt(chain, n))(log)];
  }

  // ----- order and paging of the provider's answer do not matter

  /** Any arrangement of the same raw events sorts to the same sequence, hence gets the same ordinals. */
  lemma ArrivalOrderIrrelevant(cfg: Config, model: ModelVersion, chain: seq<Body>, from: nat, end: nat,
                               received: seq<RawEvent>)
    requires ValidConfig(cfg) && end <= |chain|
    requires multiset(received) == multiset(EventsIn(QueryOf(cfg, model), chain, from, end))
    ensures Sort(RawOrder(cfg), received) == SortedEvents(cfg, model, chain, from, end)
  {
    RawOrderTotal(cfg);
    SortPermutation(RawOrder(cfg), received, EventsIn(QueryOf(cfg, model), chain, from, end));
  }
}
