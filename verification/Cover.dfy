/**
 The public cover ledger: for one token and action, the seven largest exact-amount cohorts of the last day as
 the evaluator judges them, and how many amounts of the last thirty days were seen for the first time.
 */
module Cover {

  import opened EngineTypes
  import opened Sequences
  import opened Sorting
  import opened Cohorts
  import opened Preflight
  import opened PreflightTheorems

  const ROW_LIMIT := 7
  const SUGGESTION_LIMIT := 5
  const SYNTHETIC_ACCOUNT: Address := 1

  type Decimals = d: int | 0 <= d <= 255

  /** v1.3 covers shields only. */
  datatype Ledger = ShieldsV13 | ShieldsV14 | WithdrawalsV14

  datatype Scene = Scene(
    ledger: Ledger, token: Address, decimals: Decimals, now: int,
    deposits: seq<DepositObservation>, withdrawals: seq<WithdrawalObservation>,
    registrations: seq<RegistrationObservation>)

  datatype Group = Group(amount: int, count: nat)

  datatype Row = Row(amount: int, existingMatches: nat, cohort: CohortQuality, band: Band)

  datatype ActionCover = ActionCover(
    trailingEvents: nat, distinctAddresses: nat, unmatchedExactShare: Ratio, rows: seq<Row>, suggestions: seq<int>)

  // ----- the evaluator, asked about one amount

  function CoverIntent(scene: Scene, amount: int): Intent {
    if scene.ledger.WithdrawalsV14? then
      Withdraw(SYNTHETIC_ACCOUNT, SYNTHETIC_ACCOUNT, scene.token, Exact(amount), scene.now + 60)
    else Shield(SYNTHETIC_ACCOUNT, scene.token, Exact(amount), scene.now + 60)
  }

  function InputFor(scene: Scene, amount: int): PreflightInput {
    PreflightInput(CoverIntent(scene, amount), scene.now, scene.deposits, scene.withdrawals, scene.registrations,
                   scene.decimals)
  }

  function ResultAt(scene: Scene, amount: int): (r: PreflightResult)
    ensures r.Supported?
  {
    if scene.ledger.ShieldsV13? then EvaluatePreflight(InputFor(scene, amount))
    else EvaluatePreflightV14(InputFor(scene, amount)).value
  }

  // ----- what the ledger says

  function CoverSource(scene: Scene): seq<CohortObservation> {
    ObservationsFor(CoverIntent(scene, 0), scene.deposits, scene.withdrawals)
  }

  function Seen(scene: Scene): seq<CohortObservation> {
    Observed(scene.token, scene.now, CoverSource(scene))
  }

  function Recent(scene: Scene): seq<CohortObservation> {
    Filter(Seen(scene), Since(scene.now - COHORT_SECONDS))
  }

  function AmountsIn(observations: seq<CohortObservation>): seq<int> {
    Distinct(Map(observations, AmountOf()))
  }

  function GroupIn(recent: seq<CohortObservation>): int -> Group {
    (amount: int) => Group(amount, |Filter(recent, OfAmount(amount))|)
  }

  /** More matches first, then the smaller amount. */
  function GroupOrder(): (Group, Group) -> bool {
    (x: Group, y: Group) => if x.count != y.count then x.count > y.count else x.amount <= y.amount
  }

  function RowOrder(): (Row, Row) -> bool {
    (x: Row, y: Row) =>
      if x.existingMatches != y.existingMatches then x.existingMatches > y.existingMatches else x.amount <= y.amount
  }

  function Groups(scene: Scene): seq<Group> {
    Map(AmountsIn(Recent(scene)), GroupIn(Recent(scene)))
  }

  function Shortlist(scene: Scene): seq<Group> {
    Take(Sort(GroupOrder(), Groups(scene)), ROW_LIMIT)
  }

  function RowFor(scene: Scene): Group -> Row {
    (g: Group) => Row(g.amount, g.count, ResultAt(scene, g.amount).cohort, ResultAt(scene, g.amount).band)
  }

  function Rows(scene: Scene): seq<Row> {
    Map(Shortlist(scene), RowFor(scene))
  }

  function Suggested(): Row -> bool {
    (row: Row) => row.cohort.healthy && row.band == LowBand
  }

  function AmountOfRow(): Row -> int {
    (row: Row) => row.amount
  }

  function Share(unmatched: nat, total: nat): Ratio {
    if total == 0 then Ratio(0, 1) else Ratio(unmatched, total)
  }

  function CoverOf(scene: Scene): ActionCover {
    ActionCover(|Recent(scene)|, |set a | a in Map(Recent(scene), ActorOf())|,
                Share(|AmountsIn(Seen(scene))|, |Seen(scene)|), Rows(scene),
                Map(Take(Filter(Rows(scene), Suggested()), SUGGESTION_LIMIT), AmountOfRow()))
  }

  // ----- the single pass

  lemma DistinctSnoc(s: seq<int>, x: int)
    ensures Distinct(s + [x]) == if x in s then Distinct(s) else Distinct(s) + [x]
  {
    assert (s + [x])[..|s|] == s;
  }

  lemma AmountsSnoc(s: seq<CohortObservation>, o: CohortObservation)
    ensures AmountsIn(s + [o]) == if o.amount in Map(s, AmountOf()) then AmountsIn(s) else AmountsIn(s) + [o.amount]
  {
    MapConcat(s, [o], AmountOf());
    DistinctSnoc(Map(s, AmountOf()), o.amount);
  }

  /** What the maps hold after the observations seen so far, of which recent are the late ones. */
  ghost predicate Grouped(seen: seq<CohortObservation>, recent: seq<CohortObservation>, amounts: seq<int>,
                          byAmount: map<int, seq<CohortObservation>>, prior: map<int, nat>, unmatched: nat)
  {
    && amounts == AmountsIn(recent) && unmatched == |AmountsIn(seen)|
    && (forall i :: 0 <= i < |amounts| ==> amounts[i] in byAmount)
    && (forall a :: a in byAmount ==> a in amounts)
    && (forall a :: a in byAmount ==> byAmount[a] == Filter(recent, OfAmount(a)))
    && (forall a :: a in prior <==> a in Map(seen, AmountOf()))
    && (forall a :: a in prior ==> prior[a] > 0)
  }

  function AddTo(byAmount: map<int, seq<CohortObservation>>, o: CohortObservation): map<int, seq<CohortObservation>> {
    byAmount[o.amount := (if o.amount in byAmount then byAmount[o.amount] else []) + [o]]
  }

  lemma CountStep(seen: seq<CohortObservation>, recent: seq<CohortObservation>, amounts: seq<int>,
                  byAmount: map<int, seq<CohortObservation>>, prior: map<int, nat>, unmatched: nat,
                  o: CohortObservation)
    requires Grouped(seen, recent, amounts, byAmount, prior, unmatched)
    ensures var count := if o.amount in prior then prior[o.amount] else 0;
            Grouped(seen + [o], recent, amounts, byAmount, prior[o.amount := count + 1],
                    if count == 0 then unmatched + 1 else unmatched)
  {
    hide Filter;
    MapConcat(seen, [o], AmountOf());
    AmountsSnoc(seen, o);
  }

  lemma GroupStep(seen: seq<CohortObservation>, recent: seq<CohortObservation>, amounts: seq<int>,
                  byAmount: map<int, seq<CohortObservation>>, prior: map<int, nat>, unmatched: nat,
                  o: CohortObservation)
    requires Grouped(seen, recent, amounts, byAmount, prior, unmatched)
    ensures Grouped(seen, recent + [o], if o.amount in byAmount then amounts else amounts + [o.amount],
                    AddTo(byAmount, o), prior, unmatched)
  {
    hide Filter, AmountsIn;
    AmountsSnoc(recent, o);
    AmountsAppear(recent, o.amount);
    var after := AddTo(byAmount, o);
    forall a | a in after ensures after[a] == Filter(recent + [o], OfAmount(a)) {
      FilterSnoc(recent, o, OfAmount(a));
    }
  }

  lemma AmountsAppear(recent: seq<CohortObservation>, amount: int)
    ensures amount in Map(recent, AmountOf()) <==> amount in AmountsIn(recent)
    ensures amount !in AmountsIn(recent) ==> Filter(recent, OfAmount(amount)) == []
  {
    if amount !in AmountsIn(recent) {
      forall i | 0 <= i < |recent| ensures !OfAmount(amount)(recent[i]) {
        assert Map(recent, AmountOf())[i] == recent[i].amount;
      }
      FilterNone(recent, OfAmount(amount));
    }
  }

  method GroupByAmount(seen: seq<CohortObservation>, start: int)
    returns (amounts: seq<int>, byAmount: map<int, seq<CohortObservation>>, unmatched: nat)
    ensures amounts == AmountsIn(Filter(seen, Since(start))) && unmatched == |AmountsIn(seen)|
    ensures forall i :: 0 <= i < |amounts| ==> amounts[i] in byAmount
    ensures forall a :: a in byAmount ==> byAmount[a] == Filter(Filter(seen, Since(start)), OfAmount(a))
  {
    hide AmountsIn, Grouped, Filter;
    amounts, byAmount, unmatched := [], map[], 0;
    var priorCounts: map<int, nat> := map[];
    NothingGrouped();
    assert seen[..0] == [] && Filter(seen[..0], Since(start)) == [] by {
      FilterNone(seen[..0], Since(start));
    }
    for k := 0 to |seen|
      invariant Grouped(seen[..k], Filter(seen[..k], Since(start)), amounts, byAmount, priorCounts, unmatched)
    {
      var o := seen[k];
      assert seen[..k + 1] == seen[..k] + [o];
      FilterSnoc(seen[..k], o, Since(start));
      CountStep(seen[..k], Filter(seen[..k], Since(start)), amounts, byAmount, priorCounts, unmatched, o);
      var prior := if o.amount in priorCounts then priorCounts[o.amount] else 0;
      if prior == 0 {
        unmatched := unmatched + 1;
      }
      priorCounts := priorCounts[o.amount := prior + 1];
      if o.timestamp >= start {
        GroupStep(seen[..k + 1], Filter(seen[..k], Since(start)), amounts, byAmount, priorCounts, unmatched, o);
        if o.amount !in byAmount {
          amounts := amounts + [o.amount];
        }
        byAmount := AddTo(byAmount, o);
      }
    }
    assert seen[..|seen|] == seen;
    AllGrouped(seen, Filter(seen, Since(start)), amounts, byAmount, priorCounts, unmatched);
  }

  lemma AllGrouped(seen: seq<CohortObservation>, recent: seq<CohortObservation>, amounts: seq<int>,
                   byAmount: map<int, seq<CohortObservation>>, prior: map<int, nat>, unmatched: nat)
    requires Grouped(seen, recent, amounts, byAmount, prior, unmatched)
    ensures amounts == AmountsIn(recent) && unmatched == |AmountsIn(seen)|
    ensures forall i :: 0 <= i < |amounts| ==> amounts[i] in byAmount
    ensures forall a :: a in byAmount ==> byAmount[a] == Filter(recent, OfAmount(a))
  {
  }

  lemma NothingGrouped()
    ensures Grouped([], [], [], map[], map[], 0)
  {
  }

  method CoverAction(scene: Scene) returns (c: ActionCover)
    ensures c == CoverOf(scene)
  {
    hide AmountsIn, ResultAt;
    var seen, start := Seen(scene), scene.now - COHORT_SECONDS;
    var trailing := Filter(seen, Since(start));
    var amounts, byAmount, unmatched := GroupByAmount(seen, start);
    var entries := seq(|amounts|, i requires 0 <= i < |amounts| => Group(amounts[i], |byAmount[amounts[i]]|));
    assert entries == Groups(scene);
    var shortlisted := Take(Sort(GroupOrder(), entries), ROW_LIMIT);
    var rows := Sort(RowOrder(), Map(shortlisted, RowFor(scene)));
    SecondSortChangesNothing(scene);
    var suggestions := Map(Take(Filter(rows, Suggested()), SUGGESTION_LIMIT), AmountOfRow());
    c := ActionCover(|trailing|, |set a | a in Map(trailing, ActorOf())|, Share(unmatched, |seen|), rows, suggestions);
  }

  // ----- what the ledger means

  lemma GroupOrderTotal()
    ensures TotalPreorder(GroupOrder())
  {
  }

  /** The shortlist is already in the order that the rows are sorted into. */
  lemma SecondSortChangesNothing(scene: Scene)
    ensures Sort(RowOrder(), Map(Shortlist(scene), RowFor(scene))) == Rows(scene)
  {
    hide ResultAt, Groups;
    var sorted, rows := Sort(GroupOrder(), Groups(scene)), Rows(scene);
    GroupOrderTotal();
    SortSorted(GroupOrder(), Groups(scene));
    forall i, j | 0 <= i < j < |rows| ensures RowOrder()(rows[i], rows[j]) {
      assert GroupOrder()(sorted[i], sorted[j]);
    }
    SortOfSorted(RowOrder(), rows);
  }

  lemma RecentOfAmount(scene: Scene, amount: int)
    ensures |Filter(Recent(scene), OfAmount(amount))| == |Trailing(scene.token, amount, scene.now, CoverSource(scene))|
  {
    hide Filter;
    var start := scene.now - COHORT_SECONDS;
    FilterFilter(Seen(scene), Since(start), OfAmount(amount), LateOf(start, amount));
    FilterFilter(Seen(scene), OfAmount(amount), Since(start), LateOf(start, amount));
  }

  function LateOf(start: int, amount: int): CohortObservation -> bool {
    (o: CohortObservation) => o.timestamp >= start && o.amount == amount
  }

  lemma CohortCounts(actor: Address, token: Address, amount: int, now: int, observations: seq<CohortObservation>)
    ensures Cohort(actor, token, amount, now, observations).existingMatches
            == |Trailing(token, amount, now, observations)|
    ensures Cohort(actor, token, amount, now, observations).trafficEvents
            == |Filter(Observed(token, now, observations), Since(now - COHORT_SECONDS))|
  {
  }

  lemma RowCohort(scene: Scene, amount: int)
    ensures ResultAt(scene, amount).cohort
            == Cohort(SYNTHETIC_ACCOUNT, scene.token, amount, scene.now, CoverSource(scene))
  {
    hide Cohort, FactsFor, SignalsV13, SignalsV14, BandForV14, RecommendationV13, RecommendationV14;
  }

  /**
   Every row agrees with the evaluator: the grouped count is the number of existing matches of its cohort, and
   the token's trailing events are the traffic of its cohort.
   */
  lemma RowsAgreeWithEvaluator(scene: Scene)
    ensures forall row :: row in CoverOf(scene).rows ==>
              && row.existingMatches == row.cohort.existingMatches > 0
              && row.cohort.trafficEvents == CoverOf(scene).trailingEvents
              && row.cohort == ResultAt(scene, row.amount).cohort && row.band == ResultAt(scene, row.amount).band
  {
    hide ResultAt, Assess;
    var groups := Groups(scene);
    SortMembers(GroupOrder(), groups);
    forall row | row in Rows(scene)
      ensures row.existingMatches == row.cohort.existingMatches > 0
              && row.cohort.trafficEvents == |Recent(scene)|
              && row.cohort == ResultAt(scene, row.amount).cohort && row.band == ResultAt(scene, row.amount).band
    {
      var i :| 0 <= i < |Rows(scene)| && Rows(scene)[i] == row;
      assert Shortlist(scene)[i] == Sort(GroupOrder(), groups)[i];
      assert Shortlist(scene)[i] in groups;
      RowOfGroup(scene, Shortlist(scene)[i]);
    }
  }

  lemma RowOfGroup(scene: Scene, g: Group)
    requires g in Groups(scene)
    ensures g.count == ResultAt(scene, g.amount).cohort.existingMatches > 0
    ensures ResultAt(scene, g.amount).cohort.trafficEvents == |Recent(scene)|
  {
    hide ResultAt, Cohort, Filter, Observed, Trailing, CoverSource;
    var amounts, recent := Map(Recent(scene), AmountOf()), Recent(scene);
    var i :| 0 <= i < |Groups(scene)| && Groups(scene)[i] == g;
    assert g.amount == Distinct(amounts)[i] && g.amount in amounts;
    var j :| 0 <= j < |amounts| && amounts[j] == g.amount;
    assert recent[j] in recent && recent[j] in Filter(recent, OfAmount(g.amount));
    RecentOfAmount(scene, g.amount);
    RowCohort(scene, g.amount);
    CohortCounts(SYNTHETIC_ACCOUNT, scene.token, g.amount, scene.now, CoverSource(scene));
  }

  /** Rows are the first seven of all groups: each group left out comes after every row. */
  lemma RowsAreTheTop(scene: Scene)
    ensures |CoverOf(scene).rows| == if |Groups(scene)| <= ROW_LIMIT then |Groups(scene)| else ROW_LIMIT
    ensures forall g :: g in Groups(scene) ==>
              g in Shortlist(scene) || forall row :: row in CoverOf(scene).rows ==>
                      GroupOrder()(Group(row.amount, row.existingMatches), g)
    ensures forall g :: g in Shortlist(scene) ==> g in Groups(scene)
    ensures forall i, j :: 0 <= i < j < |CoverOf(scene).rows| ==>
            RowOrder()(CoverOf(scene).rows[i], CoverOf(scene).rows[j])
  {
    hide ResultAt, Groups;
    var groups, sorted, rows := Groups(scene), Sort(GroupOrder(), Groups(scene)), Rows(scene);
    GroupOrderTotal();
    SortSorted(GroupOrder(), groups);
    SortMembers(GroupOrder(), groups);
    forall g | g in groups && g !in Shortlist(scene)
      ensures forall row :: row in rows ==> GroupOrder()(Group(row.amount, row.existingMatches), g)
    {
      var j :| 0 <= j < |sorted| && sorted[j] == g;
      assert j >= |rows|;
      forall row | row in rows ensures GroupOrder()(Group(row.amount, row.existingMatches), g) {
        var i :| 0 <= i < |rows| && rows[i] == row;
        assert GroupOrder()(sorted[i], sorted[j]);
      }
    }
  }

  lemma {:induction false} DistinctCounts(s: seq<int>)
    ensures |Distinct(s)| == |set x | x in s|
  {
    if s != [] {
      var init, last := s[..|s| - 1], s[|s| - 1];
      DistinctCounts(init);
      DistinctSnoc(init, last);
      assert s == init + [last];
      var earlier, all := set x | x in init, set x | x in s;
      assert all == earlier + {last};
      if last in init {
        assert all == earlier;
      }
    }
  }

  /** The share counts the distinct amounts among the observations of the last thirty days. */
  lemma UnmatchedCountsAmounts(scene: Scene)
    requires Seen(scene) != []
    ensures CoverOf(scene).unmatchedExactShare == Ratio(|set o | o in Seen(scene) :: o.amount|, |Seen(scene)|)
  {
    hide ResultAt;
    var amounts := Map(Seen(scene), AmountOf());
    DistinctCounts(amounts);
    assert (set x | x in amounts) == (set o | o in Seen(scene) :: o.amount) by {
      forall o | o in Seen(scene) ensures o.amount in amounts {
        var i :| 0 <= i < |Seen(scene)| && Seen(scene)[i] == o;
        assert amounts[i] == o.amount;
      }
    }
  }

  // ----- order independence

  ghost predicate SameScene(a: Scene, b: Scene) {
    && a.ledger == b.ledger && a.token == b.token && a.decimals == b.decimals && a.now == b.now
    && multiset(a.deposits) == multiset(b.deposits) && multiset(a.withdrawals) == multiset(b.withdrawals)
    && multiset(a.registrations) == multiset(b.registrations)
  }

  lemma SameResult(a: Scene, b: Scene, amount: int)
    requires SameScene(a, b)
    ensures ResultAt(a, amount) == ResultAt(b, amount)
  {
    hide EvaluatePreflight, EvaluatePreflightV14;
    PermutedEvidence(InputFor(a, amount), InputFor(b, amount));
    EvaluateSame(InputFor(a, amount), InputFor(b, amount));
    EvaluateSameV14(InputFor(a, amount), InputFor(b, amount));
  }

  lemma SameSource(a: Scene, b: Scene)
    requires SameScene(a, b)
    ensures multiset(Seen(a)) == multiset(Seen(b)) && multiset(Recent(a)) == multiset(Recent(b))
  {
    hide Filter, Map;
    MapPermutation(a.deposits, b.deposits, DepositAsCohort());
    MapPermutation(a.withdrawals, b.withdrawals, WithdrawalAsCohort());
    FilterPermutation(CoverSource(a), CoverSource(b), SeenIn(a.token, a.now));
    FilterPermutation(Seen(a), Seen(b), Since(a.now - COHORT_SECONDS));
  }

  lemma SameAmounts(a: seq<CohortObservation>, b: seq<CohortObservation>)
    requires multiset(a) == multiset(b)
    ensures multiset(AmountsIn(a)) == multiset(AmountsIn(b)) && |AmountsIn(a)| == |AmountsIn(b)|
  {
    MapPermutation(a, b, AmountOf());
    PermutationBasics(Map(a, AmountOf()), Map(b, AmountOf()));
    DistinctSame(AmountsIn(a), AmountsIn(b));
    PermutationBasics(AmountsIn(a), AmountsIn(b));
  }

  lemma SameGroups(a: Scene, b: Scene)
    requires SameScene(a, b)
    ensures Sort(GroupOrder(), Groups(a)) == Sort(GroupOrder(), Groups(b))
  {
    SameSource(a, b);
    SameAmounts(Recent(a), Recent(b));
    forall x ensures GroupIn(Recent(a))(x) == GroupIn(Recent(b))(x) {
      FilterPermutation(Recent(a), Recent(b), OfAmount(x));
    }
    assert Map(AmountsIn(Recent(b)), GroupIn(Recent(a))) == Groups(b);
    MapPermutation(AmountsIn(Recent(a)), AmountsIn(Recent(b)), GroupIn(Recent(a)));
    GroupOrderTotal();
    SortPermutation(GroupOrder(), Groups(a), Groups(b));
  }

  lemma SameRows(a: Scene, b: Scene)
    requires SameScene(a, b)
    ensures Rows(a) == Rows(b)
  {
    hide ResultAt, Groups;
    SameGroups(a, b);
    forall g ensures RowFor(a)(g) == RowFor(b)(g) {
      SameResult(a, b, g.amount);
    }
  }

  /** The ledger does not depend on the order in which observations are listed. */
  lemma CoverForgetsOrder(a: Scene, b: Scene)
    requires SameScene(a, b)
    ensures CoverOf(a) == CoverOf(b)
  {
    hide Rows, AmountsIn, Seen, Recent;
    SameSource(a, b);
    SameAmounts(Seen(a), Seen(b));
    PermutationBasics(Seen(a), Seen(b));
    SameRows(a, b);
    PermutationBasics(Recent(a), Recent(b));
    MapPermutation(Recent(a), Recent(b), ActorOf());
    PermutationBasics(Map(Recent(a), ActorOf()), Map(Recent(b), ActorOf()));
    assert (set x | x in Map(Recent(a), ActorOf())) == (set x | x in Map(Recent(b), ActorOf()));
  }
}
