/**
 What the one-shot ingestion records: its events come selector by selector and are numbered by position, yet they
 are the events of the index, and only their identities differ.
 */
module OneShot {

  import opened Wrappers
  import opened EngineTypes
  import opened Sequences
  import opened Chain
  import opened PoolEvents
  import opened Index
  import opened Snapshots
  import opened Store
  import opened PreflightTheorems
  import opened History

  // ----- asking selector by selector

  function SelectorQuery(cfg: Config, selector: nat): Query {
    Query(cfg.pool, {selector})
  }

  lemma FilterUnion<T(!new)>(s: seq<T>, p: T -> bool, q: T -> bool, either: T -> bool)
    requires forall x :: either(x) == (p(x) || q(x)) && !(p(x) && q(x))
    ensures multiset(Filter(s, p) + Filter(s, q)) == multiset(Filter(s, either))
  {
    forall x ensures multiset(Filter(s, p) + Filter(s, q))[x] == multiset(Filter(s, either))[x] {
      FilterMultiplicity(s, p, x);
      FilterMultiplicity(s, q, x);
      FilterMultiplicity(s, either, x);
    }
  }

  lemma BlockUnion(pool: Address, a: set<nat>, b: set<nat>, chain: seq<Body>, n: nat)
    requires n < |chain| && a !! b
    ensures multiset(EventsAt(Query(pool, a), chain, n)) + multiset(EventsAt(Query(pool, b), chain, n))
            == multiset(EventsAt(Query(pool, a + b), chain, n))
  {
    hide Filter, Map;
    var logs, view := chain[n].logs, AsEvent(HeaderAt(chain, n));
    var p, q, either := Matches(Query(pool, a)), Matches(Query(pool, b)), Matches(Query(pool, a + b));
    FilterUnion(logs, p, q, either);
    MapConcat(Filter(logs, p), Filter(logs, q), view);
    MapPermutation(Filter(logs, p) + Filter(logs, q), Filter(logs, either), view);
  }

  /** Asking for two disjoint sets of selectors in turn finds what asking for both at once finds. */
  lemma {:induction false} QueryUnion(pool: Address, a: set<nat>, b: set<nat>, chain: seq<Body>, from: nat, end: nat)
    requires end <= |chain| && a !! b
    ensures multiset(EventsIn(Query(pool, a), chain, from, end)) + multiset(EventsIn(Query(pool, b), chain, from, end))
            == multiset(EventsIn(Query(pool, a + b), chain, from, end))
  {
    if from < end {
      hide EventsAt;
      QueryUnion(pool, a, b, chain, from, end - 1);
      BlockUnion(pool, a, b, chain, end - 1);
    }
  }

  /** The events of all selectors of a model, asked for one by one. */
  lemma SelectorBySelector(cfg: Config, model: ModelVersion, chain: seq<Body>, from: nat, end: nat,
                           deposits: seq<RawEvent>, withdrawals: seq<RawEvent>, registrations: seq<RawEvent>)
    requires ValidConfig(cfg) && end <= |chain|
    requires multiset(deposits) == multiset(EventsIn(SelectorQuery(cfg, cfg.depositSelector), chain, from, end))
    requires multiset(withdrawals) == if model == V14
             then multiset(EventsIn(SelectorQuery(cfg, cfg.withdrawalSelector), chain, from, end)) else multiset{}
    requires multiset(registrations)
            == multiset(EventsIn(SelectorQuery(cfg, cfg.registrationSelector), chain, from, end))
    ensures multiset(deposits + withdrawals + registrations) == multiset(EventsIn(QueryOf(cfg, model), chain, from, end))
  {
    hide EventsIn;
    var d, w, r := {cfg.depositSelector}, {cfg.withdrawalSelector}, {cfg.registrationSelector};
    QueryUnion(cfg.pool, d, r, chain, from, end);
    assert Selectors(cfg, V13) == d + r;
    if model == V14 {
      QueryUnion(cfg.pool, d + r, w, chain, from, end);
      assert Selectors(cfg, V14) == (d + r) + w;
    }
  }

  // ----- what an event says apart from its number

  /** Stands for an event that cannot be decoded. */
  const NOTHING := PoolEvent(0, [], 0, 0, 0, EventId(0, 0, 0), 0, Registration(0))

  function Forget(): PoolEvent -> PoolEvent {
    (e: PoolEvent) => e.(ordinal := 0, eventId := EventId(e.block, e.tx, 0))
  }

  function Content(cfg: Config, chain: seq<Body>): RawEvent -> PoolEvent {
    (raw: RawEvent) =>
      if raw.block >= |chain| then NOTHING
      else
        var decoded := DecodePoolEvent(raw, 0, HeaderAt(chain, raw.block), cfg);
        if decoded.Ok? then decoded.value else NOTHING
  }

  /** The number given to an event decides neither whether it decodes nor what it says. */
  lemma NumberIrrelevant(raw: RawEvent, i: nat, j: nat, header: Header, cfg: Config)
    ensures DecodePoolEvent(raw, i, header, cfg).Ok? == DecodePoolEvent(raw, j, header, cfg).Ok?
    ensures DecodePoolEvent(raw, i, header, cfg).Ok? ==>
              Forget()(DecodePoolEvent(raw, i, header, cfg).value)
                      == Forget()(DecodePoolEvent(raw, j, header, cfg).value)
  {
  }

  /** Rows decoded from these events, under whatever numbers. */
  ghost predicate DecodedFrom(rows: seq<PoolEvent>, events: seq<RawEvent>, cfg: Config, chain: seq<Body>) {
    && |rows| == |events| && WithinChain(chain, events)
    && forall i :: 0 <= i < |rows| ==>
         DecodePoolEvent(events[i], rows[i].ordinal, HeaderAt(chain, events[i].block), cfg) == Ok(rows[i])
  }

  lemma ContentsOf(rows: seq<PoolEvent>, events: seq<RawEvent>, cfg: Config, chain: seq<Body>)
    requires DecodedFrom(rows, events, cfg, chain)
    ensures Map(rows, Forget()) == Map(events, Content(cfg, chain))
  {
    hide DecodePoolEvent;
    forall i | 0 <= i < |rows| ensures Forget()(rows[i]) == Content(cfg, chain)(events[i]) {
      var header := HeaderAt(chain, events[i].block);
      NumberIrrelevant(events[i], rows[i].ordinal, 0, header, cfg);
      SelfForget(events[i], header, cfg);
    }
  }

  lemma SelfForget(raw: RawEvent, header: Header, cfg: Config)
    ensures var decoded := DecodePoolEvent(raw, 0, header, cfg);
            decoded.Ok? ==> Forget()(decoded.value) == decoded.value
  {
  }

  lemma CleanBecauseDecoded(rows: seq<PoolEvent>, events: seq<RawEvent>, cfg: Config, model: ModelVersion,
                            chain: seq<Body>, from: nat, end: nat)
    requires ValidConfig(cfg) && end <= |chain| && DecodedFrom(rows, events, cfg, chain)
    requires multiset(events) == multiset(EventsIn(QueryOf(cfg, model), chain, from, end))
    ensures Clean(cfg, model, chain, from, end)
  {
    hide DecodePoolEvent, EventsIn, SortedEvents;
    var sorted := SortedEvents(cfg, model, chain, from, end);
    SegmentSorted(cfg, model, chain, from, end);
    PermutationBasics(sorted, events);
    forall i | 0 <= i < |sorted| ensures DecodeAt(cfg, chain, sorted, i).Ok? {
      assert sorted[i] in sorted && sorted[i] in events;
      var k :| 0 <= k < |events| && events[k] == sorted[i];
      NumberIrrelevant(sorted[i], rows[k].ordinal, OrdinalAt(sorted, i), HeaderAt(chain, sorted[i].block), cfg);
    }
  }

  lemma IndexDecodes(cfg: Config, model: ModelVersion, chain: seq<Body>, from: nat, end: nat)
    requires end <= |chain| && Clean(cfg, model, chain, from, end)
    ensures DecodedFrom(IndexOf(cfg, model, chain, from, end), SortedEvents(cfg, model, chain, from, end), cfg, chain)
  {
    hide DecodePoolEvent, SortedEvents;
    var sorted := SortedEvents(cfg, model, chain, from, end);
    var results, rows := DecodeAll(cfg, chain, sorted), IndexOf(cfg, model, chain, from, end);
    OkValuesAll(results);
    forall i | 0 <= i < |rows|
      ensures DecodePoolEvent(sorted[i], rows[i].ordinal, HeaderAt(chain, sorted[i].block), cfg) == Ok(rows[i])
    {
      assert results[i] == DecodeAt(cfg, chain, sorted, i) == Ok(rows[i]);
    }
  }

  /** Whatever the numbers, the rows say exactly what the index of the range says. */
  lemma SameContents(rows: seq<PoolEvent>, events: seq<RawEvent>, cfg: Config, model: ModelVersion,
                     chain: seq<Body>, from: nat, end: nat)
    requires ValidConfig(cfg) && end <= |chain| && DecodedFrom(rows, events, cfg, chain)
    requires multiset(events) == multiset(EventsIn(QueryOf(cfg, model), chain, from, end))
    ensures Clean(cfg, model, chain, from, end)
    ensures multiset(Map(rows, Forget())) == multiset(Map(IndexOf(cfg, model, chain, from, end), Forget()))
  {
    hide DecodedFrom, EventsIn, SortedEvents, IndexOf, Clean, Map;
    CleanBecauseDecoded(rows, events, cfg, model, chain, from, end);
    IndexDecodes(cfg, model, chain, from, end);
    ContentsOf(rows, events, cfg, chain);
    ContentsOf(IndexOf(cfg, model, chain, from, end), SortedEvents(cfg, model, chain, from, end), cfg, chain);
    SegmentSorted(cfg, model, chain, from, end);
    MapPermutation(events, SortedEvents(cfg, model, chain, from, end), Content(cfg, chain));
  }

  /** Within one list a position is the ordinal exactly after nothing but events of the same transaction. */
  lemma PositionIsOrdinal(events: seq<RawEvent>, k: nat)
    requires k < |events|
    ensures OrdinalAt(events, k) == k <==> forall i :: 0 <= i < k ==> SameTransaction(events[k])(events[i])
  {
    FullFilter(events[..k], SameTransaction(events[k]));
    assert forall i :: 0 <= i < k ==> events[..k][i] == events[i];
  }

  predicate OneTransaction(events: seq<RawEvent>) {
    forall i, j :: 0 <= i < |events| && 0 <= j < |events| ==> SameTransaction(events[i])(events[j])
  }

  ghost predicate Uses(rows: seq<PoolEvent>, id: EventId) {
    exists i :: 0 <= i < |rows| && rows[i].eventId == id
  }

  /** The two lists use the same identities. */
  ghost predicate SameIdentities(a: seq<PoolEvent>, b: seq<PoolEvent>) {
    forall id :: Uses(a, id) <==> Uses(b, id)
  }

  lemma IndexIdentity(cfg: Config, model: ModelVersion, chain: seq<Body>, from: nat, end: nat, j: nat)
    requires end <= |chain| && Clean(cfg, model, chain, from, end) && j < |IndexOf(cfg, model, chain, from, end)|
    ensures var sorted := SortedEvents(cfg, model, chain, from, end);
            && |IndexOf(cfg, model, chain, from, end)| == |sorted|
            && IndexOf(cfg, model, chain, from, end)[j].eventId == IdAt(sorted, j)
  {
    hide SortedEvents;
    var sorted := SortedEvents(cfg, model, chain, from, end);
    OkValuesAll(DecodeAll(cfg, chain, sorted));
    assert DecodeAll(cfg, chain, sorted)[j] == DecodeAt(cfg, chain, sorted, j);
  }

  lemma MatchingIdentitiesMeanOneTransaction(rows: seq<PoolEvent>, index: seq<PoolEvent>, events: seq<RawEvent>,
                                             sorted: seq<RawEvent>)
    requires |rows| == |events| == |index| == |sorted| && multiset(events) == multiset(sorted)
    requires forall i :: 0 <= i < |rows| ==> rows[i].eventId == EventId(events[i].block, events[i].tx, i)
    requires forall j :: 0 <= j < |index| ==> index[j].eventId == IdAt(sorted, j)
    ensures SameIdentities(rows, index) <==> OneTransaction(events)
  {
    hide OrdinalAt;
    PermutationBasics(events, sorted);
    if SameIdentities(rows, index) && events != [] {
      var last := |events| - 1;
      assert rows[last].eventId == EventId(events[last].block, events[last].tx, last);
      assert Uses(rows, rows[last].eventId);
      var j :| 0 <= j < |index| && index[j].eventId == rows[last].eventId;
      OrdinalBound(sorted, j);
      PositionIsOrdinal(sorted, last);
      forall i | 0 <= i < |events| ensures SameTransaction(sorted[last])(events[i]) {
        assert events[i] in sorted;
      }
    }
    if OneTransaction(events) {
      forall j | 0 <= j < |sorted| ensures index[j].eventId == rows[j].eventId {
        assert sorted[j] in events;
        forall i | 0 <= i < j ensures SameTransaction(sorted[j])(sorted[i]) {
          assert sorted[i] in events;
        }
        PositionIsOrdinal(sorted, j);
      }
      forall id ensures Uses(rows, id) <==> Uses(index, id) {
      }
    }
  }

  lemma OrdinalBound(events: seq<RawEvent>, j: nat)
    requires j < |events|
    ensures OrdinalAt(events, j) <= j
  {
  }

  /** The one-shot ingestion and the index use the same identities exactly when all events are of one transaction. */
  lemma IdentitiesAgree(rows: seq<PoolEvent>, events: seq<RawEvent>, cfg: Config, model: ModelVersion,
                        chain: seq<Body>, from: nat, end: nat)
    requires ValidConfig(cfg) && end <= |chain| && DecodedFrom(rows, events, cfg, chain)
    requires forall i :: 0 <= i < |rows| ==> rows[i].ordinal == i
    requires multiset(events) == multiset(EventsIn(QueryOf(cfg, model), chain, from, end))
    ensures SameIdentities(rows, IndexOf(cfg, model, chain, from, end)) <==> OneTransaction(events)
  {
    hide EventsIn, SortedEvents, IndexOf, Clean, OrdinalAt, SameIdentities, OneTransaction;
    CleanBecauseDecoded(rows, events, cfg, model, chain, from, end);
    SegmentSorted(cfg, model, chain, from, end);
    var index, sorted := IndexOf(cfg, model, chain, from, end), SortedEvents(cfg, model, chain, from, end);
    PermutationBasics(events, sorted);
    SameLength(cfg, model, chain, from, end);
    forall j | 0 <= j < |index| ensures index[j].eventId == IdAt(sorted, j) {
      IndexIdentity(cfg, model, chain, from, end, j);
    }
    MatchingIdentitiesMeanOneTransaction(rows, index, events, sorted);
  }

  // ----- two events for which they differ

  /** One block with two deposits of different transactions. */
  function TwoTransactions(cfg: Config, depositor: Address, token: Address): seq<Body> {
    [Body(0, [DepositLog(cfg, 7, depositor, token, 5), DepositLog(cfg, 8, depositor, token, 5)])]
  }

  function TwoEvents(cfg: Config, depositor: Address, token: Address): seq<RawEvent> {
    var header := HeaderAt(TwoTransactions(cfg, depositor, token), 0);
    [AsEvent(header)(DepositLog(cfg, 7, depositor, token, 5)), AsEvent(header)(DepositLog(cfg, 8, depositor, token, 5))]
  }

  /** As the one-shot ingestion numbers them. */
  function TwoRows(cfg: Config, depositor: Address, token: Address): seq<PoolEvent> {
    var hash := HeaderAt(TwoTransactions(cfg, depositor, token), 0).hash;
    [PoolEvent(0, hash, 0, 7, 0, EventId(0, 7, 0), cfg.depositSelector, Deposit(depositor, token, 5)),
     PoolEvent(0, hash, 0, 8, 1, EventId(0, 8, 1), cfg.depositSelector, Deposit(depositor, token, 5))]
  }

  lemma TwoAreMatched(cfg: Config, model: ModelVersion, depositor: Address, token: Address)
    ensures EventsIn(QueryOf(cfg, model), TwoTransactions(cfg, depositor, token), 0, 1)
            == TwoEvents(cfg, depositor, token)
  {
    var chain, query := TwoTransactions(cfg, depositor, token), QueryOf(cfg, model);
    var x, y := DepositLog(cfg, 7, depositor, token, 5), DepositLog(cfg, 8, depositor, token, 5);
    assert [x, y][1..] == [y] && Filter([y], Matches(query)) == [y];
    assert Filter([x, y], Matches(query)) == [x, y];
    assert EventsIn(query, chain, 0, 0) == [];
    assert EventsAt(query, chain, 0) == TwoEvents(cfg, depositor, token);
  }

  /** Both are clean and say the same either way, but the second has another identity in the index. */
  lemma IdentitiesMayDiffer(cfg: Config, model: ModelVersion, depositor: Address, token: Address)
    requires ValidConfig(cfg) && cfg.isAddress(cfg.pool) && cfg.isAddress(depositor) && cfg.isAddress(token)
    ensures var chain, rows := TwoTransactions(cfg, depositor, token), TwoRows(cfg, depositor, token);
            && DecodedFrom(rows, TwoEvents(cfg, depositor, token), cfg, chain) && Clean(cfg, model, chain, 0, 1)
            && multiset(Map(rows, Forget())) == multiset(Map(IndexOf(cfg, model, chain, 0, 1), Forget()))
            && !SameIdentities(rows, IndexOf(cfg, model, chain, 0, 1))
  {
    hide EventsIn, IndexOf, Clean, SameIdentities, ValidConfig, Map, Forget;
    var chain, rows := TwoTransactions(cfg, depositor, token), TwoRows(cfg, depositor, token);
    var events := TwoEvents(cfg, depositor, token);
    TwoAreMatched(cfg, model, depositor, token);
    SameContents(rows, events, cfg, model, chain, 0, 1);
    IdentitiesAgree(rows, events, cfg, model, chain, 0, 1);
    assert !SameTransaction(events[1])(events[0]);
  }

  lemma SameLength(cfg: Config, model: ModelVersion, chain: seq<Body>, from: nat, end: nat)
    requires end <= |chain| && Clean(cfg, model, chain, from, end)
    ensures |IndexOf(cfg, model, chain, from, end)| == |SortedEvents(cfg, model, chain, from, end)|
  {
    OkValuesAll(DecodeAll(cfg, chain, SortedEvents(cfg, model, chain, from, end)));
  }

  lemma {:induction false} FullFilter<T>(s: seq<T>, p: T -> bool)
    ensures |Filter(s, p)| == |s| <==> forall i :: 0 <= i < |s| ==> p(s[i])
  {
    if s != [] {
      FullFilter(s[1..], p);
      assert forall i :: 0 < i < |s| ==> s[i] == s[1..][i - 1];
    }
  }

  // ----- the evaluator does not see the numbers

  lemma KindContents(rows: seq<PoolEvent>, kind: PoolEvent -> bool)
    requires forall e :: kind(Forget()(e)) == kind(e)
    ensures Filter(Map(rows, Forget()), kind) == Map(Filter(rows, kind), Forget())
  {
    FilterMap(rows, Forget(), kind, kind);
  }

  lemma KindViews<T(!new)>(a: seq<PoolEvent>, b: seq<PoolEvent>, kind: PoolEvent -> bool, view: PoolEvent -> T)
    requires multiset(Map(a, Forget())) == multiset(Map(b, Forget()))
    requires forall e :: kind(Forget()(e)) == kind(e)
    requires forall e :: view(Forget()(e)) == view(e)
    ensures multiset(Map(Filter(a, kind), view)) == multiset(Map(Filter(b, kind), view))
  {
    hide Map, Filter, Forget;
    KindContents(a, kind);
    KindContents(b, kind);
    FilterPermutation(Map(a, Forget()), Map(b, Forget()), kind);
    MapPermutation(Map(Filter(a, kind), Forget()), Map(Filter(b, kind), Forget()), view);
    MapMap(Filter(a, kind), Forget(), view, view);
    MapMap(Filter(b, kind), Forget(), view, view);
  }

  /** Events that say the same are the same evidence. */
  lemma SameContentsSameEvidence(a: seq<PoolEvent>, b: seq<PoolEvent>, intent: Intent, now: int, decimals: int)
    requires multiset(Map(a, Forget())) == multiset(Map(b, Forget()))
    ensures SameEvidence(HistoryInput(a, intent, now, decimals), HistoryInput(b, intent, now, decimals))
  {
    hide Map, Filter;
    KindViews(a, b, IsDeposit(), AsDeposit());
    KindViews(a, b, IsWithdrawal(), AsWithdrawal());
    KindViews(a, b, IsRegistration(), AsRegistration());
    PermutedEvidence(HistoryInput(a, intent, now, decimals), HistoryInput(b, intent, now, decimals));
  }

  lemma EarlyAddsNothing(early: seq<PoolEvent>, rows: seq<PoolEvent>, s: PublicSnapshot, intent: Intent, now: int,
                         decimals: int)
    requires Early(early, now) && NothingAtHorizon(early, now)
    ensures SameEvidence(HistoryInput(rows, intent, now, decimals), HistoryInput(early + rows, intent, now, decimals))
  {
    var shown := s.(depositObservations := Filter(rows, IsDeposit()),
                    withdrawalObservations := Some(Filter(rows, IsWithdrawal())),
                    registrationObservations := Filter(rows, IsRegistration()));
    SnapshotIsSameEvidence(shown, early, rows, intent, now, decimals);
  }
}
