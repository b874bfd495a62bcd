/** What a cohort does and does not depend on, and what being healthy implies. */
module CohortTheorems {

  import opened EngineTypes
  import opened Sequences
  import opened Burst
  import opened Cohorts

  function InHorizon(now: int): CohortObservation -> bool {
    (o: CohortObservation) => now - OBSERVATION_SECONDS <= o.timestamp < now
  }

  function OfToken(token: Address): CohortObservation -> bool {
    (o: CohortObservation) => o.token == token
  }

  /** Two evidence sources agree when they hold the same observations inside the 30-day horizon. */
  ghost predicate SameHorizon(now: int, a: seq<CohortObservation>, b: seq<CohortObservation>) {
    multiset(Filter(a, InHorizon(now))) == multiset(Filter(b, InHorizon(now)))
  }

  lemma ObservedSame(token: Address, now: int, a: seq<CohortObservation>, b: seq<CohortObservation>)
    requires SameHorizon(now, a, b)
    ensures multiset(Observed(token, now, a)) == multiset(Observed(token, now, b))
  {
    FilterFilter(a, InHorizon(now), OfToken(token), SeenIn(token, now));
    FilterFilter(b, InHorizon(now), OfToken(token), SeenIn(token, now));
    FilterPermutation(Filter(a, InHorizon(now)), Filter(b, InHorizon(now)), OfToken(token));
  }

  lemma MatchingSame(token: Address, amount: int, now: int, a: seq<CohortObservation>, b: seq<CohortObservation>)
    requires SameHorizon(now, a, b)
    ensures multiset(Matching(token, amount, now, a)) == multiset(Matching(token, amount, now, b))
    ensures |Matching(token, amount, now, a)| == |Matching(token, amount, now, b)|
  {
    ObservedSame(token, now, a, b);
    FilterPermutation(Observed(token, now, a), Observed(token, now, b), OfAmount(amount));
  }

  lemma TopMultiplicityPermutation(a: seq<Address>, b: seq<Address>)
    requires a != [] && multiset(a) == multiset(b)
    ensures TopMultiplicity(a) == TopMultiplicity(b)
  {
    PermutationBasics(a, b);
    TopMultiplicityAmongIsMax(b, b);
    TopMultiplicityIsMax(a, TopMultiplicity(b));
  }

  lemma AssessPermutation(live: seq<CohortObservation>, live': seq<CohortObservation>,
                          durable: seq<CohortObservation>, durable': seq<CohortObservation>, traffic: nat)
    requires live != [] && live' != []
    requires multiset(live) == multiset(live') && multiset(durable) == multiset(durable')
    ensures Assess(live, durable, traffic) == Assess(live', durable', traffic)
  {
    PermutationBasics(live, live');
    PermutationBasics(durable, durable');
    assert Map(live, ActorOf()) != [];
    MapPermutation(live, live', ActorOf());
    PermutationBasics(Map(live, ActorOf()), Map(live', ActorOf()));
    TopMultiplicityPermutation(Map(live, ActorOf()), Map(live', ActorOf()));
    MapPermutation(live, live', TxOf());
    PermutationBasics(Map(live, TxOf()), Map(live', TxOf()));
    MapPermutation(durable, durable', TimeOf());
    PermutationBasics(Map(durable, TimeOf()), Map(durable', TimeOf()));
    TopWindowPermutation(Map(durable, TimeOf()), Map(durable', TimeOf()));
    assert (set a | a in Map(live, ActorOf())) == (set a | a in Map(live', ActorOf()));
    assert (set t | t in Map(live, TxOf())) == (set t | t in Map(live', TxOf()));
    assert ActiveDays(Map(durable, TimeOf())) == ActiveDays(Map(durable', TimeOf()));
  }

  /** A cohort depends only on which observations lie inside the horizon, not on their order or on others. */
  lemma CohortSame(actor: Address, token: Address, amount: int, now: int,
                   a: seq<CohortObservation>, b: seq<CohortObservation>)
    requires SameHorizon(now, a, b)
    ensures Cohort(actor, token, amount, now, a) == Cohort(actor, token, amount, now, b)
    ensures Matching(token, amount, now, a) == [] <==> Matching(token, amount, now, b) == []
  {
    ObservedSame(token, now, a, b);
    MatchingSame(token, amount, now, a, b);
    FilterPermutation(Matching(token, amount, now, a), Matching(token, amount, now, b), Since(now - COHORT_SECONDS));
    FilterPermutation(Observed(token, now, a), Observed(token, now, b), Since(now - COHORT_SECONDS));
    var projection := [Projection(actor, token, amount, now)];
    AssessPermutation(Trailing(token, amount, now, a) + projection, Trailing(token, amount, now, b) + projection,
                      Matching(token, amount, now, a) + projection, Matching(token, amount, now, b) + projection,
                      |Filter(Observed(token, now, a), Since(now - COHORT_SECONDS))|);
  }

  function Before(start: int): CohortObservation -> bool {
    (o: CohortObservation) => o.timestamp < start
  }

  /** The last 24 hours and the proposed action all fall into one closed window. */
  lemma RecentWindow(token: Address, amount: int, now: int, projection: CohortObservation,
                     observations: seq<CohortObservation>)
    requires projection.timestamp == now
    ensures var times := Map(Matching(token, amount, now, observations) + [projection], TimeOf());
            TopWindow(times) >= |Trailing(token, amount, now, observations)| + 1
  {
    var matching := Matching(token, amount, now, observations);
    var start := now - COHORT_SECONDS;
    forall o | o in matching ensures Since(start)(o) == Within(start)(TimeOf()(o)) {
      assert o in Observed(token, now, observations);
    }
    FilterMap(matching + [projection], TimeOf(), Within(start), Since(start));
    FilterConcat(matching, [projection], Since(start));
    TopWindowIsGlobalMax(Map(matching + [projection], TimeOf()), start);
  }

  function DayOf(): CohortObservation -> int {
    (o: CohortObservation) => o.timestamp / DAY
  }

  function RecentDays(now: int): (days: set<int>)
    ensures |days| <= 2
  {
    {now / DAY, now / DAY - 1}
  }

  lemma RecentDay(t: int, now: int)
    requires now - COHORT_SECONDS <= t <= now
    ensures t / DAY in RecentDays(now)
  {
  }

  /** A day of the durable cohort is recent, or the day of some older match. */
  lemma DayOfMatch(matching: seq<CohortObservation>, i: nat, now: int)
    requires i < |matching| && matching[i].timestamp < now
    ensures DayOf()(matching[i]) in RecentDays(now)
            || InImage(Filter(matching, Before(now - COHORT_SECONDS)), DayOf(), DayOf()(matching[i]))
  {
    if matching[i].timestamp >= now - COHORT_SECONDS {
      RecentDay(matching[i].timestamp, now);
    } else {
      assert Before(now - COHORT_SECONDS)(matching[i]);
      var older := Filter(matching, Before(now - COHORT_SECONDS));
      assert matching[i] in older;
      var j :| 0 <= j < |older| && older[j] == matching[i];
      assert DayOf()(older[j]) == DayOf()(matching[i]);
    }
  }

  lemma DaysOfMatches(matching: seq<CohortObservation>, projection: CohortObservation, now: int, d: int)
    requires projection.timestamp == now && forall i :: 0 <= i < |matching| ==> matching[i].timestamp < now
    requires d in ActiveDays(Map(matching + [projection], TimeOf()))
    ensures d in RecentDays(now) || InImage(Filter(matching, Before(now - COHORT_SECONDS)), DayOf(), d)
  {
    var times := Map(matching + [projection], TimeOf());
    var i :| 0 <= i < |times| && times[i] / DAY == d;
    if i < |matching| {
      DayOfMatch(matching, i, now);
    }
  }

  lemma SplitBound(days: set<int>, recent: set<int>, older: seq<CohortObservation>)
    requires forall d :: d in days ==> d in recent || InImage(older, DayOf(), d)
    ensures |days| <= |recent| + |older|
  {
    forall d | d in days - recent ensures InImage(older, DayOf(), d) {
      assert d in days;
    }
    ImageBound(older, DayOf(), days - recent);
    SubsetSize(days, (days - recent) + recent);
  }

  /** The recent window touches at most two days, so older matches must supply the others. */
  lemma OlderDays(token: Address, amount: int, now: int, projection: CohortObservation,
                  observations: seq<CohortObservation>)
    requires projection.timestamp == now
    ensures var matching := Matching(token, amount, now, observations);
            |ActiveDays(Map(matching + [projection], TimeOf()))|
            <= 2 + |matching| - |Trailing(token, amount, now, observations)|
  {
    var matching := Matching(token, amount, now, observations);
    var start := now - COHORT_SECONDS;
    FilterSplit(matching, Since(start), Before(start));
    forall i | 0 <= i < |matching| ensures matching[i].timestamp < now {
      assert matching[i] in Observed(token, now, observations);
    }
    var days := ActiveDays(Map(matching + [projection], TimeOf()));
    forall d | d in days ensures d in RecentDays(now) || InImage(Filter(matching, Before(start)), DayOf(), d) {
      DaysOfMatches(matching, projection, now, d);
    }
    SplitBound(days, RecentDays(now), Filter(matching, Before(start)));
  }

  /**
   What no single check states: a healthy cohort has at least five exact matches in the last 24 hours,
   at least five older ones, and at most three fifths of the projected total inside the last day.
   */
  lemma HealthyBounds(actor: Address, token: Address, amount: int, now: int, observations: seq<CohortObservation>)
    requires Cohort(actor, token, amount, now, observations).healthy
    ensures var t, m := |Trailing(token, amount, now, observations)|, |Matching(token, amount, now, observations)|;
            t >= 5 && m - t >= 5 && 5 * (t + 1) <= 3 * (m + 1)
  {
    var projection := Projection(actor, token, amount, now);
    RecentWindow(token, amount, now, projection, observations);
    OlderDays(token, amount, now, projection, observations);
    var cohort := Cohort(actor, token, amount, now, observations);
    assert cohort.failures == [];
    var times := Map(Matching(token, amount, now, observations) + [projection], TimeOf());
    assert cohort.maxBurstShare == Ratio(TopWindow(times), |times|);
  }
}
