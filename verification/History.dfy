/** The bounded history is enough: evaluating on the snapshot is evaluating on everything the pool ever did. */
module History {

  import opened Wrappers
  import opened EngineTypes
  import opened Sequences
  import opened Cohorts
  import opened CohortTheorems
  import opened Preflight
  import opened PreflightTheorems
  import opened Chain
  import opened PoolEvents
  import opened Index
  import opened Snapshots
  import opened Freshness
  import opened Store
  import opened IndexedStore
  import opened Publication
  import opened Refinement

  // ----- events as the evaluator reads them

  function Mover(detail: Detail): Address {
    match detail
    case Deposit(depositor, _, _) => depositor
    case Withdrawal(recipient, _, _) => recipient
    case Registration(account) => account
  }

  /** A registration moves nothing. */
  function MovedToken(detail: Detail): Address {
    if detail.Registration? then 0 else detail.token
  }

  function MovedAmount(detail: Detail): nat {
    if detail.Registration? then 0 else detail.amount
  }

  function AsDeposit(): PoolEvent -> DepositObservation {
    (e: PoolEvent) =>
      DepositObservation(e.block, e.timestamp, Tx(e.tx), Mover(e.detail), MovedToken(e.detail), MovedAmount(e.detail))
  }

  function AsWithdrawal(): PoolEvent -> WithdrawalObservation {
    (e: PoolEvent) =>
      WithdrawalObservation(e.block, e.timestamp, Tx(e.tx), Mover(e.detail), MovedToken(e.detail), MovedAmount(e.detail))
  }

  function AsRegistration(): PoolEvent -> RegistrationObservation {
    (e: PoolEvent) => RegistrationObservation(e.block, e.timestamp, Tx(e.tx), Mover(e.detail))
  }

  function AsCohort(): PoolEvent -> CohortObservation {
    (e: PoolEvent) =>
      CohortObservation(e.block, e.timestamp, Tx(e.tx), Mover(e.detail), MovedToken(e.detail), MovedAmount(e.detail))
  }

  /** What is evaluated when a preflight runs on a snapshot. */
  function SnapshotInput(s: PublicSnapshot, intent: Intent, now: int, decimals: int): PreflightInput {
    PreflightInput(intent, now,
                   Map(s.depositObservations, AsDeposit()),
                   Map(OrEmpty(s.withdrawalObservations), AsWithdrawal()),
                   Map(s.registrationObservations, AsRegistration()), decimals)
  }

  /** The same questions asked of a list of pool events. */
  function HistoryInput(rows: seq<PoolEvent>, intent: Intent, now: int, decimals: int): PreflightInput {
    PreflightInput(intent, now,
                   Map(Filter(rows, IsDeposit()), AsDeposit()),
                   Map(Filter(rows, IsWithdrawal()), AsWithdrawal()),
                   Map(Filter(rows, IsRegistration()), AsRegistration()), decimals)
  }

  // ----- what an early prefix contributes

  lemma MapMap<T, U, V>(s: seq<T>, f: T -> U, g: U -> V, h: T -> V)
    requires forall x :: x in s ==> g(f(x)) == h(x)
    ensures Map(Map(s, f), g) == Map(s, h)
  {
  }

  /** No event is later than the horizon. */
  predicate Early(rows: seq<PoolEvent>, now: int) {
    forall e :: e in rows ==> e.timestamp <= now - OBSERVATION_SECONDS
  }

  /** No event of this kind was made at the horizon itself, which is still observed. */
  predicate NoneAtHorizon(rows: seq<PoolEvent>, kind: PoolEvent -> bool, now: int) {
    forall e :: e in rows && kind(e) ==> e.timestamp != now - OBSERVATION_SECONDS
  }

  predicate NothingAtHorizon(rows: seq<PoolEvent>, now: int) {
    NoneAtHorizon(rows, IsDeposit(), now) && NoneAtHorizon(rows, IsWithdrawal(), now)
  }

  lemma EarlyOutside(early: seq<PoolEvent>, kind: PoolEvent -> bool, now: int)
    requires Early(early, now)
    ensures Filter(Map(Filter(early, kind), AsCohort()), InHorizon(now)) == [] <==> NoneAtHorizon(early, kind, now)
  {
    var members := Filter(early, kind);
    var past := Map(members, AsCohort());
    if NoneAtHorizon(early, kind, now) {
      forall i | 0 <= i < |members| ensures !InHorizon(now)(past[i]) {
        assert members[i] in members;
      }
      FilterNone(past, InHorizon(now));
    } else {
      var e :| e in early && kind(e) && e.timestamp == now - OBSERVATION_SECONDS;
      assert e in members;
      InMap(members, AsCohort(), e);
      assert AsCohort()(e) in Filter(past, InHorizon(now));
    }
  }

  lemma NothingAdded<T>(more: seq<T>, s: seq<T>)
    ensures multiset(more + s) == multiset(s) <==> more == []
  {
    if more == [] {
      assert more + s == s;
    } else {
      assert |multiset(more + s)| == |more + s| && |multiset(s)| == |s|;
    }
  }

  /** One kind of event: the snapshot's list is the whole history's exactly when none of the early ones is observed. */
  lemma KindSame(list: seq<PoolEvent>, early: seq<PoolEvent>, rows: seq<PoolEvent>, kind: PoolEvent -> bool, now: int)
    requires Early(early, now) && multiset(list) == multiset(Filter(rows, kind))
    ensures SameHorizon(now, Map(list, AsCohort()), Map(Filter(early + rows, kind), AsCohort()))
            <==> NoneAtHorizon(early, kind, now)
  {
    hide Filter, Map, NoneAtHorizon, Early;
    var shown, recent := Map(list, AsCohort()), Map(Filter(rows, kind), AsCohort());
    var past := Map(Filter(early, kind), AsCohort());
    FilterConcat(early, rows, kind);
    MapConcat(Filter(early, kind), Filter(rows, kind), AsCohort());
    FilterConcat(past, recent, InHorizon(now));
    EarlyOutside(early, kind, now);
    MapPermutation(list, Filter(rows, kind), AsCohort());
    FilterPermutation(shown, recent, InHorizon(now));
    NothingAdded(Filter(past, InHorizon(now)), Filter(recent, InHorizon(now)));
  }

  lemma RegistrationsSame(list: seq<PoolEvent>, early: seq<PoolEvent>, rows: seq<PoolEvent>, now: int,
                          r: RegistrationObservation)
    requires Early(early, now) && multiset(list) == multiset(Filter(rows, IsRegistration()))
    requires now - OBSERVATION_SECONDS < r.timestamp
    ensures r in Map(list, AsRegistration())
            <==> r in Map(Filter(early + rows, IsRegistration()), AsRegistration())
  {
    var kept, all := Filter(rows, IsRegistration()), Filter(early + rows, IsRegistration());
    PermutationBasics(list, kept);
    if r in Map(list, AsRegistration()) {
      var i :| 0 <= i < |list| && AsRegistration()(list[i]) == r;
      assert list[i] in list && list[i] in kept && list[i] in early + rows;
      InMap(all, AsRegistration(), list[i]);
    }
    if r in Map(all, AsRegistration()) {
      var i :| 0 <= i < |all| && AsRegistration()(all[i]) == r;
      assert all[i] in all && all[i] !in early && all[i] in kept && all[i] in list;
      InMap(list, AsRegistration(), all[i]);
    }
  }

  lemma InMap<T, U>(s: seq<T>, f: T -> U, x: T)
    requires x in s
    ensures f(x) in Map(s, f)
  {
    var i :| 0 <= i < |s| && s[i] == x;
    assert Map(s, f)[i] == f(x);
  }

  lemma SnapshotIsSameEvidence(s: PublicSnapshot, early: seq<PoolEvent>, rows: seq<PoolEvent>,
                               intent: Intent, now: int, decimals: int)
    requires Shows(s, rows) && Early(early, now)
    ensures SameEvidence(SnapshotInput(s, intent, now, decimals), HistoryInput(early + rows, intent, now, decimals))
            <==> NothingAtHorizon(early, now)
  {
    hide NoneAtHorizon, Filter, Map, SameHorizon;
    var withdrawals := OrEmpty(s.withdrawalObservations);
    KindSame(s.depositObservations, early, rows, IsDeposit(), now);
    KindSame(withdrawals, early, rows, IsWithdrawal(), now);
    MapMap(s.depositObservations, AsDeposit(), DepositAsCohort(), AsCohort());
    MapMap(Filter(early + rows, IsDeposit()), AsDeposit(), DepositAsCohort(), AsCohort());
    MapMap(withdrawals, AsWithdrawal(), WithdrawalAsCohort(), AsCohort());
    MapMap(Filter(early + rows, IsWithdrawal()), AsWithdrawal(), WithdrawalAsCohort(), AsCohort());
    var a, b := SnapshotInput(s, intent, now, decimals), HistoryInput(early + rows, intent, now, decimals);
    forall r: RegistrationObservation | a.now - CHANNEL_SECONDS <= r.timestamp < a.now
      ensures r in a.registrations <==> r in b.registrations
    {
      RegistrationsSame(s.registrationObservations, early, rows, now, r);
    }
  }

  // ----- the theorem

  /** Events below the source block are no later than the source. */
  lemma BelowSourceIsEarly(cfg: Config, model: ModelVersion, chain: seq<Body>, source: nat, now: int)
    requires Monotone(chain) && source < |chain| && chain[source].timestamp <= now - OBSERVATION_SECONDS
    ensures Early(IndexOf(cfg, model, chain, 0, source), now)
    ensures chain[source].timestamp < now - OBSERVATION_SECONDS ==>
              NothingAtHorizon(IndexOf(cfg, model, chain, 0, source), now)
  {
    forall e | e in IndexOf(cfg, model, chain, 0, source) ensures e.timestamp <= chain[source].timestamp {
      IndexRow(cfg, model, chain, 0, source, e);
      assert chain[e.block].timestamp <= chain[source].timestamp;
    }
  }

  /** Every event of the pool up to the observed block, as the model version indexes them. */
  function PoolHistory(cfg: Config, model: ModelVersion, chain: seq<Body>, observed: nat): seq<PoolEvent>
    requires observed < |chain|
  {
    IndexOf(cfg, model, chain, 0, observed + 1)
  }

  /**
   With a source no later than the horizon, which is all that the validator demands, the snapshot that a load
   returns holds the evidence of the whole pool history exactly when no deposit or withdrawal below the source block
   was made at the horizon.
   */
  lemma SnapshotHoldsTheEvidence(db: Db, cfg: Config, digest: SnapshotJson.Tree -> nat, chain: seq<Body>, head: nat,
                                 s: PublicSnapshot, hash: nat, intent: Intent, now: int, decimals: int)
    requires ValidConfig(cfg) && Monotone(chain) && Anchored(db, cfg)
    requires PublishedAs(db, cfg, digest, chain, head, s, hash)
    requires s.facts.sourceFrom.timestamp <= now - OBSERVATION_SECONDS
    ensures s.facts.observed.block < |chain| && LoadComplete(db, cfg, digest).Ok?
    ensures s.facts.sourceFrom.block <= s.facts.observed.block
    ensures var loaded := SnapshotInput(LoadComplete(db, cfg, digest).value, intent, now, decimals);
            var pool := PoolHistory(cfg, db.state.model, chain, s.facts.observed.block);
            SameEvidence(loaded, HistoryInput(pool, intent, now, decimals))
            <==> NothingAtHorizon(IndexOf(cfg, db.state.model, chain, 0, s.facts.sourceFrom.block), now)
  {
    hide SameEvidence, Anchored, LoadComplete, IndexOf, Shows, NoRowBelow, Early, NothingAtHorizon;
    var from, end, model := s.facts.sourceFrom.block, s.facts.observed.block + 1, db.state.model;
    SourceHeader(db, cfg, chain);
    SnapshotShowsIndex(s, db, cfg, chain, head);
    CanonicalShows(cfg, s, IndexOf(cfg, model, chain, from, end));
    BelowSourceIsEarly(cfg, model, chain, from, now);
    IndexSplit(cfg, model, chain, 0, from, end);
    SnapshotIsSameEvidence(Canonical(cfg, s), IndexOf(cfg, model, chain, 0, from),
                           IndexOf(cfg, model, chain, from, end), intent, now, decimals);
  }

  /**
   A source strictly before the horizon is therefore enough: both model versions give the same cohort, signals, band
   and recommendation on the loaded snapshot as on the whole pool history.
   */
  lemma BoundedHistorySuffices(db: Db, cfg: Config, digest: SnapshotJson.Tree -> nat, chain: seq<Body>, head: nat,
                               s: PublicSnapshot, hash: nat, intent: Intent, now: int, decimals: int)
    requires ValidConfig(cfg) && Monotone(chain) && Anchored(db, cfg)
    requires PublishedAs(db, cfg, digest, chain, head, s, hash)
    requires s.facts.sourceFrom.timestamp < now - OBSERVATION_SECONDS
    ensures s.facts.observed.block < |chain| && LoadComplete(db, cfg, digest).Ok?
    ensures var loaded := SnapshotInput(LoadComplete(db, cfg, digest).value, intent, now, decimals);
            var pool := PoolHistory(cfg, db.state.model, chain, s.facts.observed.block);
            && EvaluatePreflight(loaded) == EvaluatePreflight(HistoryInput(pool, intent, now, decimals))
            && EvaluatePreflightV14(loaded) == EvaluatePreflightV14(HistoryInput(pool, intent, now, decimals))
  {
    hide EvaluatePreflight, EvaluatePreflightV14, SameEvidence, Anchored, LoadComplete, IndexOf, NoRowBelow;
    hide NothingAtHorizon, Early, PoolHistory;
    SnapshotHoldsTheEvidence(db, cfg, digest, chain, head, s, hash, intent, now, decimals);
    SourceHeader(db, cfg, chain);
    BelowSourceIsEarly(cfg, db.state.model, chain, s.facts.sourceFrom.block, now);
    var loaded := SnapshotInput(LoadComplete(db, cfg, digest).value, intent, now, decimals);
    var pool := PoolHistory(cfg, db.state.model, chain, s.facts.observed.block);
    EvaluateSame(loaded, HistoryInput(pool, intent, now, decimals));
    EvaluateSameV14(loaded, HistoryInput(pool, intent, now, decimals));
  }

  // ----- one amount at the horizon

  /**
   A source exactly at the horizon is not enough, because the horizon itself is observed: with dropped events no
   later than the horizon, an amount keeps its matches exactly when none of them was made at the horizon.
   */
  lemma HorizonIsInclusive(token: Address, amount: int, now: int, dropped: seq<CohortObservation>,
                           kept: seq<CohortObservation>)
    requires forall o :: o in dropped ==> o.timestamp <= now - OBSERVATION_SECONDS
    ensures |Matching(token, amount, now, dropped + kept)| == |Matching(token, amount, now, kept)|
            <==> !exists o :: o in dropped && o.timestamp == now - OBSERVATION_SECONDS
                              && o.token == token && o.amount == amount
  {
    FilterConcat(dropped, kept, SeenIn(token, now));
    FilterConcat(Observed(token, now, dropped), Observed(token, now, kept), OfAmount(amount));
    var lost := Matching(token, amount, now, dropped);
    assert forall o :: o in lost ==> o in Observed(token, now, dropped) && OfAmount(amount)(o);
    if lost != [] {
      var o := lost[0];
      assert o in lost && o in dropped && o.timestamp == now - OBSERVATION_SECONDS;
    }
    forall o | o in dropped && o.timestamp == now - OBSERVATION_SECONDS && o.token == token && o.amount == amount
      ensures o in lost
    {
      assert o in Observed(token, now, dropped);
    }
  }
}
