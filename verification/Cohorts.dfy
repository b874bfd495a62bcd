/**
 Cohort statistics over three nested windows: 30 days of the token, 30 days of the exact amount, and
 the last 24 hours of the exact amount, each with the proposed action added at the end.
 */
module Cohorts {

  import opened EngineTypes
  import opened Sequences
  import opened Burst

  function SeenIn(token: Address, now: int): CohortObservation -> bool {
    (o: CohortObservation) => now - OBSERVATION_SECONDS <= o.timestamp < now && o.token == token
  }

  function OfAmount(amount: int): CohortObservation -> bool {
    (o: CohortObservation) => o.amount == amount
  }

  function Since(start: int): CohortObservation -> bool {
    (o: CohortObservation) => o.timestamp >= start
  }

  function TimeOf(): CohortObservation -> int {
    (o: CohortObservation) => o.timestamp
  }

  function ActorOf(): CohortObservation -> Address {
    (o: CohortObservation) => o.actor
  }

  function TxOf(): CohortObservation -> TxHash {
    (o: CohortObservation) => o.tx
  }

  function Observed(token: Address, now: int, observations: seq<CohortObservation>): seq<CohortObservation> {
    Filter(observations, SeenIn(token, now))
  }

  function Matching(token: Address, amount: int, now: int, observations: seq<CohortObservation>):
    seq<CohortObservation>
  {
    Filter(Observed(token, now, observations), OfAmount(amount))
  }

  function Trailing(token: Address, amount: int, now: int, observations: seq<CohortObservation>):
    seq<CohortObservation>
  {
    Filter(Matching(token, amount, now, observations), Since(now - COHORT_SECONDS))
  }

  function Projection(actor: Address, token: Address, amount: int, now: int): CohortObservation {
    CohortObservation(MAX_SAFE_INTEGER, now, ProjectedTx, actor, token, amount)
  }

  function TopMultiplicityAmong(actors: seq<Address>, among: seq<Address>): nat {
    if among == [] then 0
    else
      var rest := TopMultiplicityAmong(actors, among[1..]);
      var first := multiset(actors)[among[0]];
      if first >= rest then first else rest
  }

  /** How often the most frequent actor occurs. */
  function TopMultiplicity(actors: seq<Address>): nat {
    TopMultiplicityAmong(actors, actors)
  }

  function ActiveDays(timestamps: seq<int>): set<int> {
    set t | t in timestamps :: t / DAY
  }

  function FailuresOf(projected: nat, addresses: nat, topShare: Ratio, days: nat, burst: Ratio): seq<Failure> {
    (if projected <= THIN_COHORT then [ThinCohort] else [])
    + (if addresses < MIN_ADDRESSES then [LowAddressDiversity] else [])
    + (if topShare.Exceeds(MAX_TOP_SHARE) then [TopAddressConcentration] else [])
    + (if days < MIN_ACTIVE_DAYS then [InsufficientActiveDays] else [])
    + (if burst.Exceeds(MAX_BURST_SHARE) then [BurstConcentration] else [])
  }

  /** What a cohort is worth once its live part, its durable part and the token's traffic are known. */
  function Assess(live: seq<CohortObservation>, durable: seq<CohortObservation>, traffic: nat): CohortQuality
    requires live != []
  {
    var actors := Map(live, ActorOf());
    var times := Map(durable, TimeOf());
    var addresses := |set a | a in actors|;
    var topShare := Ratio(TopMultiplicity(actors), |live|);
    var days := |ActiveDays(times)|;
    var burst := BurstShare(times);
    var failures := FailuresOf(|live|, addresses, topShare, days, burst);
    CohortQuality(|live| - 1, |live|, traffic, addresses, |set t | t in Map(live, TxOf())|, topShare, days, burst,
                  failures == [], failures)
  }

  function Cohort(actor: Address, token: Address, amount: int, now: int, observations: seq<CohortObservation>):
    CohortQuality
  {
    var projection := Projection(actor, token, amount, now);
    Assess(Trailing(token, amount, now, observations) + [projection],
           Matching(token, amount, now, observations) + [projection],
           |Filter(Observed(token, now, observations), Since(now - COHORT_SECONDS))|)
  }

  lemma {:induction false} TopMultiplicityAmongIsMax(actors: seq<Address>, among: seq<Address>)
    ensures forall a :: a in among ==> multiset(actors)[a] <= TopMultiplicityAmong(actors, among)
    ensures among != [] ==> exists a :: a in among && multiset(actors)[a] == TopMultiplicityAmong(actors, among)
  {
    if among != [] {
      TopMultiplicityAmongIsMax(actors, among[1..]);
      assert among[0] in among && forall a :: a in among[1..] ==> a in among;
      if multiset(actors)[among[0]] < TopMultiplicityAmong(actors, among[1..]) {
        var a :| a in among[1..] && multiset(actors)[a] == TopMultiplicityAmong(actors, among[1..]);
        assert a in among;
      }
    }
  }

  lemma TopMultiplicityIsMax(actors: seq<Address>, top: nat)
    requires actors != []
    requires forall a :: a in actors ==> multiset(actors)[a] <= top
    requires exists a :: a in actors && multiset(actors)[a] == top
    ensures top == TopMultiplicity(actors)
  {
    TopMultiplicityAmongIsMax(actors, actors);
  }

  ghost predicate Tallies(counts: map<Address, nat>, actors: seq<Address>) {
    && (forall a :: a in counts ==> a in actors && counts[a] == multiset(actors)[a])
    && (forall a :: a in actors ==> a in counts)
  }

  function Bump(counts: map<Address, nat>, actor: Address): map<Address, nat> {
    counts[actor := (if actor in counts then counts[actor] else 0) + 1]
  }

  ghost predicate TallyOf(cohort: seq<CohortObservation>, counts: map<Address, nat>, transactions: set<TxHash>) {
    && Tallies(counts, Map(cohort, ActorOf()))
    && transactions == set t | t in Map(cohort, TxOf())
  }

  lemma TallyStep(cohort: seq<CohortObservation>, k: nat, counts: map<Address, nat>, transactions: set<TxHash>)
    requires k < |cohort| && TallyOf(cohort[..k], counts, transactions)
    ensures TallyOf(cohort[..k + 1], Bump(counts, cohort[k].actor), transactions + {cohort[k].tx})
  {
    var actors, txs := Map(cohort[..k], ActorOf()), Map(cohort[..k], TxOf());
    assert Map(cohort[..k + 1], ActorOf()) == actors + [cohort[k].actor];
    assert Map(cohort[..k + 1], TxOf()) == txs + [cohort[k].tx];
    assert cohort[k].actor !in counts ==> cohort[k].actor !in actors;
  }

  /** One pass over the projected cohort: how often each actor occurs, and which transactions. */
  method Tally(cohort: seq<CohortObservation>)
    returns (addressCounts: map<Address, nat>, transactions: set<TxHash>)
    ensures TallyOf(cohort, addressCounts, transactions)
  {
    addressCounts, transactions := map[], {};
    for k := 0 to |cohort|
      invariant TallyOf(cohort[..k], addressCounts, transactions)
    {
      TallyStep(cohort, k, addressCounts, transactions);
      addressCounts := Bump(addressCounts, cohort[k].actor);
      transactions := transactions + {cohort[k].tx};
    }
    assert cohort[..|cohort|] == cohort;
  }

  method Largest(counts: map<Address, nat>) returns (top: nat)
    requires counts.Keys != {}
    ensures exists a :: a in counts && counts[a] == top
    ensures forall a :: a in counts ==> counts[a] <= top
  {
    var a :| a in counts;
    top := counts[a];
    var rest := counts.Keys - {a};
    while rest != {}
      invariant rest <= counts.Keys
      invariant exists b :: b in counts && counts[b] == top
      invariant forall b :: b in counts && b !in rest ==> counts[b] <= top
      decreases |rest|
    {
      var b :| b in rest;
      top := if counts[b] > top then counts[b] else top;
      rest := rest - {b};
    }
  }

  /** The statistics both model versions derive from a non-empty projected cohort. */
  method AssessCohort(live: seq<CohortObservation>, durable: seq<CohortObservation>, traffic: nat)
    returns (q: CohortQuality)
    requires live != []
    ensures q == Assess(live, durable, traffic)
  {
    var addressCounts, transactions := Tally(live);
    ghost var actors := Map(live, ActorOf());
    assert actors[0] in addressCounts;
    var top := Largest(addressCounts);
    TopMultiplicityIsMax(actors, top);
    assert addressCounts.Keys == set a | a in actors;
    var topShare := Ratio(top, |live|);
    var times := Map(durable, TimeOf());
    var days := |ActiveDays(times)|;
    var burst := MaximumBurstShare(times);
    var failures := FailuresOf(|live|, |addressCounts|, topShare, days, burst);
    assert |addressCounts| == |addressCounts.Keys|;
    q := CohortQuality(|live| - 1, |live|, traffic, |addressCounts|, |transactions|, topShare, days, burst,
                       failures == [], failures);
  }
}
