/** The burst share: how much of a cohort fits into one closed 24-hour window. */
module Burst {

  import opened EngineTypes
  import opened Sequences
  import opened Sorting

  function TimeOrder(): (int, int) -> bool {
    (x, y) => x <= y
  }

  function Within(start: int): int -> bool {
    t => start <= t <= start + COHORT_SECONDS
  }

  /** How many timestamps fall into the closed window that opens at start. */
  function WindowCount(timestamps: seq<int>, start: int): nat {
    |Filter(timestamps, Within(start))|
  }

  function TopWindowAmong(timestamps: seq<int>, starts: seq<int>): nat {
    if starts == [] then 0
    else
      var rest := TopWindowAmong(timestamps, starts[1..]);
      var first := WindowCount(timestamps, starts[0]);
      if first >= rest then first else rest
  }

  /** The fullest window that opens at one of the timestamps. */
  function TopWindow(timestamps: seq<int>): nat {
    TopWindowAmong(timestamps, timestamps)
  }

  lemma {:induction false} TopWindowAmongIsMax(timestamps: seq<int>, starts: seq<int>)
    ensures forall x :: x in starts ==> WindowCount(timestamps, x) <= TopWindowAmong(timestamps, starts)
    ensures starts != [] ==>
      exists x :: x in starts && WindowCount(timestamps, x) == TopWindowAmong(timestamps, starts)
  {
    if starts != [] {
      TopWindowAmongIsMax(timestamps, starts[1..]);
      assert starts[0] in starts && forall x :: x in starts[1..] ==> x in starts;
      if WindowCount(timestamps, starts[0]) < TopWindowAmong(timestamps, starts[1..]) {
        var x :| x in starts[1..] && WindowCount(timestamps, x) == TopWindowAmong(timestamps, starts[1..]);
        assert x in starts;
      }
    }
  }

  lemma {:induction false} LeastMember(s: seq<int>) returns (least: int)
    requires s != []
    ensures least in s && forall x :: x in s ==> least <= x
  {
    least := s[0];
    if |s| > 1 {
      var rest := LeastMember(s[1..]);
      least := if rest < least then rest else least;
      assert s == [s[0]] + s[1..];
    }
  }

  /** No window anywhere on the time line, opened at an observation or not, is fuller than TopWindow. */
  lemma TopWindowIsGlobalMax(timestamps: seq<int>, start: int)
    ensures WindowCount(timestamps, start) <= TopWindow(timestamps)
  {
    TopWindowAmongIsMax(timestamps, timestamps);
    var inside := Within(start);
    var members := Filter(timestamps, inside);
    if members != [] {
      var least := LeastMember(members);
      assert inside(least);
      var later := Within(least);
      forall t | t in timestamps && inside(t) ensures later(t) {
        assert t in members;
      }
      FilterMonotone(timestamps, inside, later);
      assert WindowCount(timestamps, start) <= WindowCount(timestamps, least);
    }
  }

  lemma WindowCountPermutation(a: seq<int>, b: seq<int>, start: int)
    requires multiset(a) == multiset(b)
    ensures WindowCount(a, start) == WindowCount(b, start)
  {
    FilterPermutation(a, b, Within(start));
  }

  lemma TopWindowPermutation(a: seq<int>, b: seq<int>)
    requires multiset(a) == multiset(b)
    ensures TopWindow(a) == TopWindow(b)
  {
    PermutationBasics(a, b);
    TopWindowAmongIsMax(a, a);
    TopWindowAmongIsMax(b, b);
    if a != [] {
      var x :| x in a && WindowCount(a, x) == TopWindow(a);
      var y :| y in b && WindowCount(b, y) == TopWindow(b);
      WindowCountPermutation(a, b, x);
      WindowCountPermutation(a, b, y);
    }
  }

  predicate Ascending(s: seq<int>) {
    forall i, j :: 0 <= i < j < |s| ==> s[i] <= s[j]
  }

  lemma SortAscends(s: seq<int>)
    ensures Ascending(Sort(TimeOrder(), s))
  {
    SortSorted(TimeOrder(), s);
    var ordered := Sort(TimeOrder(), s);
    forall i, j | 0 <= i < j < |ordered| ensures ordered[i] <= ordered[j] {
      assert TimeOrder()(ordered[i], ordered[j]);
    }
  }

  /** In a sorted sequence the two pointers bracket a window, exactly so at the first of equal values. */
  lemma BracketedWindow(ordered: seq<int>, left: nat, right: nat)
    requires Ascending(ordered)
    requires left < right <= |ordered|
    requires forall k :: left <= k < right ==> ordered[k] <= ordered[left] + COHORT_SECONDS
    requires forall k :: right <= k < |ordered| ==> ordered[k] > ordered[left] + COHORT_SECONDS
    ensures right - left <= WindowCount(ordered, ordered[left])
    ensures left == 0 || ordered[left - 1] < ordered[left] ==> right - left == WindowCount(ordered, ordered[left])
  {
    hide Filter;
    var inside := Within(ordered[left]);
    var before, between, after := ordered[..left], ordered[left..right], ordered[right..];
    FilterThree(before, between, after, inside);
    assert ordered == before + between + after;
    FilterAll(between, inside);
    FilterNone(after, inside);
    if left == 0 || ordered[left - 1] < ordered[left] {
      FilterNone(before, inside);
    }
  }

  lemma FilterThree(a: seq<int>, b: seq<int>, c: seq<int>, p: int -> bool)
    ensures Filter(a + b + c, p) == Filter(a, p) + Filter(b, p) + Filter(c, p)
  {
    hide Filter;
    FilterConcat(a + b, c, p);
    FilterConcat(a, b, p);
  }

  predicate AllWithin(ordered: seq<int>, count: nat, limit: int)
    requires count <= |ordered|
  {
    forall k :: 0 <= k < count ==> ordered[k] <= limit
  }

  ghost predicate Covered(ordered: seq<int>, count: nat, maximum: nat)
    requires count <= |ordered|
  {
    forall j :: 0 <= j < count ==> WindowCount(ordered, ordered[j]) <= maximum
  }

  /** One step of the outer loop: where the inner loop stops decides this window. */
  lemma WindowStep(ordered: seq<int>, left: nat, right: nat, maximum: nat)
    requires Ascending(ordered)
    requires left < right <= |ordered|
    requires AllWithin(ordered, right, ordered[left] + COHORT_SECONDS)
    requires right < |ordered| ==> ordered[right] > ordered[left] + COHORT_SECONDS
    requires maximum <= TopWindow(ordered)
    requires Covered(ordered, left, maximum)
    ensures right - left <= TopWindow(ordered)
    ensures Covered(ordered, left + 1, if maximum >= right - left then maximum else right - left)
  {
    BracketedWindow(ordered, left, right);
    TopWindowIsGlobalMax(ordered, ordered[left]);
    if left > 0 && ordered[left - 1] == ordered[left] {
      assert WindowCount(ordered, ordered[left - 1]) <= maximum;
    }
  }

  lemma TopWindowReached(ordered: seq<int>, maximum: nat)
    requires ordered != [] && maximum <= TopWindow(ordered)
    requires Covered(ordered, |ordered|, maximum)
    ensures maximum == TopWindow(ordered)
  {
    TopWindowAmongIsMax(ordered, ordered);
    var x :| x in ordered && WindowCount(ordered, x) == TopWindow(ordered);
  }

  /**
   The two-pointer scan over ordered timestamps. The right pointer never moves back, so advances,
   which counts every step of the inner loop over the whole scan, stays within their number.
   */
  method ScanWindows(ordered: seq<int>) returns (maximum: nat, ghost advances: nat)
    requires ordered != [] && Ascending(ordered)
    ensures maximum == TopWindow(ordered)
    ensures advances <= |ordered|
  {
    hide TopWindow, WindowCount;
    var right: nat := 0;
    advances := 0;
    maximum := 0;
    for left := 0 to |ordered|
      invariant left <= right <= |ordered| && advances == right
      invariant if left == 0 then right == 0 else AllWithin(ordered, right, ordered[left - 1] + COHORT_SECONDS)
      invariant maximum <= TopWindow(ordered)
      invariant Covered(ordered, left, maximum)
    {
      var leftTimestamp := ordered[left];
      while right < |ordered|
        invariant left <= right <= |ordered| && advances == right
        invariant AllWithin(ordered, right, leftTimestamp + COHORT_SECONDS)
      {
        if ordered[right] - leftTimestamp > COHORT_SECONDS {
          break;
        }
        right := right + 1;
        advances := advances + 1;
      }
      WindowStep(ordered, left, right, maximum);
      maximum := if maximum >= right - left then maximum else right - left;
    }
    TopWindowReached(ordered, maximum);
  }

  /** The share of timestamps that the fullest window holds; an empty input counts as all of it. */
  function BurstShare(timestamps: seq<int>): Ratio {
    if timestamps == [] then Ratio(1, 1) else Ratio(TopWindow(timestamps), |timestamps|)
  }

  method MaximumBurstShare(timestamps: seq<int>) returns (share: Ratio)
    ensures share == BurstShare(timestamps)
  {
    if |timestamps| == 0 {
      return Ratio(1, 1);
    }
    var ordered := Sort(TimeOrder(), timestamps);
    SortAscends(timestamps);
    var maximum, _ := ScanWindows(ordered);
    TopWindowPermutation(ordered, timestamps);
    share := Ratio(maximum, |ordered|);
  }
}
