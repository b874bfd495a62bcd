/** Block headers gathered into a table, refused when two of them disagree about one block. */
module Headers {

  import opened Sequences
  import opened Sorting
  import opened Chain
  import opened Snapshots

  /** The table has exactly these headers, each under its number. */
  ghost predicate TableOf(table: map<nat, Header>, headers: seq<Header>) {
    && (forall n :: n in table ==> table[n] in headers && table[n].number == n)
    && (forall h :: h in headers ==> h.number in table && table[h.number] == h)
  }

  ghost predicate Ascending(headers: seq<Header>) {
    forall i, j :: 0 <= i < j < |headers| ==> headers[i].number < headers[j].number
  }

  ghost predicate SameMembers<T(!new)>(a: seq<T>, b: seq<T>) {
    forall x :: x in a <==> x in b
  }

  /** Succeeds exactly when no two headers disagree about a block; then lists each block once, in order. */
  method UniqueHeaders(headers: seq<Header>) returns (ok: bool, table: map<nat, Header>, ordered: seq<Header>)
    ensures ok <==> DistinctBlocks(headers)
    ensures ok ==> TableOf(table, headers)
    ensures ok ==> Ascending(ordered) && SameMembers(ordered, headers)
  {
    table := map[];
    var listed: seq<Header> := [];
    for k := 0 to |headers|
      invariant TableOf(table, headers[..k])
      invariant SameMembers(listed, headers[..k])
      invariant forall i, j :: 0 <= i < j < |listed| ==> listed[i].number != listed[j].number
    {
      var h := headers[k];
      assert headers[..k + 1] == headers[..k] + [h];
      if h.number in table {
        if table[h.number] != h {
          assert table[h.number] in headers;
          return false, map[], [];
        }
      } else {
        listed := listed + [h];
        table := table[h.number := h];
      }
    }
    assert headers[..|headers|] == headers;
    ordered := Sort(ReferenceOrder(), listed);
    SortedByNumber(listed);
    return true, table, ordered;
  }

  lemma SortedByNumber(listed: seq<Header>)
    requires forall i, j :: 0 <= i < j < |listed| ==> listed[i].number != listed[j].number
    ensures Ascending(Sort(ReferenceOrder(), listed)) && SameMembers(Sort(ReferenceOrder(), listed), listed)
  {
    hide Sort, Filter;
    var ordered := Sort(ReferenceOrder(), listed);
    SortSorted(ReferenceOrder(), listed);
    SortMembers(ReferenceOrder(), listed);
    forall i, j | 0 <= i < j < |ordered| ensures ordered[i].number < ordered[j].number {
      assert ReferenceOrder()(ordered[i], ordered[j]);
      StillDistinct(listed, ordered, i, j);
    }
  }

  lemma StillDistinct(listed: seq<Header>, ordered: seq<Header>, i: nat, j: nat)
    requires forall i, j :: 0 <= i < j < |listed| ==> listed[i].number != listed[j].number
    requires multiset(ordered) == multiset(listed) && i < j < |ordered|
    ensures ordered[i].number != ordered[j].number
  {
    if ordered[i].number == ordered[j].number {
      SameNumberOnce(listed, ordered[i].number);
      FilterPermutation(ordered, listed, OfNumber(ordered[i].number));
      TwoMembers(ordered, OfNumber(ordered[i].number), i, j);
      assert false;
    }
  }

  function OfNumber(n: nat): Header -> bool {
    (h: Header) => h.number == n
  }

  lemma {:induction false} SameNumberOnce(listed: seq<Header>, n: nat)
    requires forall i, j :: 0 <= i < j < |listed| ==> listed[i].number != listed[j].number
    ensures |Filter(listed, OfNumber(n))| <= 1
  {
    if listed != [] {
      if listed[0].number == n {
        forall i | 0 <= i < |listed| - 1 ensures !OfNumber(n)(listed[1..][i]) {
          assert listed[0].number != listed[i + 1].number;
        }
        FilterNone(listed[1..], OfNumber(n));
      } else {
        SameNumberOnce(listed[1..], n);
      }
    }
  }

  lemma TwoMembers<T>(s: seq<T>, p: T -> bool, i: nat, j: nat)
    requires i < j < |s| && p(s[i]) && p(s[j])
    ensures |Filter(s, p)| >= 2
  {
    assert s == s[..j] + s[j..];
    FilterConcat(s[..j], s[j..], p);
    assert s[..j][i] in s[..j] && s[j..][0] in s[j..];
  }

  /** In an ascending list, two blocks with consecutive numbers are neighbours. */
  lemma ConsecutiveAreNeighbours(ordered: seq<Header>, x: Header, y: Header)
    requires Ascending(ordered) && x in ordered && y in ordered && y.number == x.number + 1
    ensures exists i :: 0 < i < |ordered| && ordered[i - 1] == x && ordered[i] == y
  {
    var i :| 0 <= i < |ordered| && ordered[i] == x;
    var j :| 0 <= j < |ordered| && ordered[j] == y;
    assert i < j && ordered[j - 1].number < ordered[j].number;
    assert ordered[j - 1] == x;
  }
}
