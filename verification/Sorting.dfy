/**
 Sorting by a comparator, as an ordinary function. The comparator is a total preorder; where it
 tells apart every two distinct elements of the input, the sorted sequence depends only on the
 multiset of elements, which is what makes results independent of arrival order.
 */
module Sorting {

  import opened Sequences

  ghost predicate TotalPreorder<T(!new)>(leq: (T, T) -> bool) {
    && (forall x, y :: leq(x, y) || leq(y, x))
    && (forall x, y, z :: leq(x, y) && leq(y, z) ==> leq(x, z))
  }

  /** The comparator separates any two distinct members of s. */
  ghost predicate Separates<T(!new)>(leq: (T, T) -> bool, s: seq<T>) {
    forall x, y :: x in s && y in s && leq(x, y) && leq(y, x) ==> x == y
  }

  ghost predicate Sorted<T>(leq: (T, T) -> bool, s: seq<T>) {
    forall i, j :: 0 <= i < j < |s| ==> leq(s[i], s[j])
  }

  function Insert<T>(leq: (T, T) -> bool, x: T, s: seq<T>): (r: seq<T>)
    ensures multiset(r) == multiset(s) + multiset{x}
    ensures |r| == |s| + 1
  {
    if s == [] then [x]
    else if leq(x, s[0]) then [x] + s
    else
      assert s == [s[0]] + s[1..];
      [s[0]] + Insert(leq, x, s[1..])
  }

  function Sort<T>(leq: (T, T) -> bool, s: seq<T>): (r: seq<T>)
    ensures multiset(r) == multiset(s)
    ensures |r| == |s|
  {
    if s == [] then []
    else
      assert s == [s[0]] + s[1..];
      Insert(leq, s[0], Sort(leq, s[1..]))
  }

  lemma SortMembers<T(!new)>(leq: (T, T) -> bool, s: seq<T>)
    ensures forall x :: x in Sort(leq, s) ==> x in s
    ensures forall x :: x in s ==> x in Sort(leq, s)
  {
    PermutationBasics(Sort(leq, s), s);
  }

  lemma {:induction false} InsertSorted<T(!new)>(leq: (T, T) -> bool, x: T, s: seq<T>)
    requires TotalPreorder(leq) && Sorted(leq, s)
    ensures Sorted(leq, Insert(leq, x, s))
  {
    if s != [] && !leq(x, s[0]) {
      InsertSorted(leq, x, s[1..]);
      var tail := Insert(leq, x, s[1..]);
      forall j | 0 <= j < |tail|
        ensures leq(s[0], tail[j])
      {
        assert tail[j] in multiset(tail);
        assert tail[j] in multiset(s[1..]) + multiset{x};
        if tail[j] != x {
          assert tail[j] in s[1..];
        }
      }
    }
  }

  lemma {:induction false} SortSorted<T(!new)>(leq: (T, T) -> bool, s: seq<T>)
    requires TotalPreorder(leq)
    ensures Sorted(leq, Sort(leq, s))
  {
    if s != [] {
      SortSorted(leq, s[1..]);
      InsertSorted(leq, s[0], Sort(leq, s[1..]));
    }
  }

  lemma SortedTail<T>(leq: (T, T) -> bool, s: seq<T>)
    requires Sorted(leq, s) && s != []
    ensures Sorted(leq, s[1..])
  {
    forall i, j | 0 <= i < j < |s| - 1 ensures leq(s[1..][i], s[1..][j]) {
      assert leq(s[i + 1], s[j + 1]);
    }
  }

  /** Two sorted arrangements of the same elements are the same sequence. */
  lemma {:induction false} SortedUnique<T(!new)>(leq: (T, T) -> bool, a: seq<T>, b: seq<T>)
    requires Sorted(leq, a) && Sorted(leq, b)
    requires multiset(a) == multiset(b)
    requires Separates(leq, a)
    ensures a == b
    decreases |a|
  {
    PermutationBasics(a, b);
    if a != [] {
      assert a[0] in b && b[0] in a;
      var i :| 0 <= i < |b| && b[i] == a[0];
      var j :| 0 <= j < |a| && a[j] == b[0];
      assert i == 0 || leq(b[0], a[0]);
      assert j == 0 || leq(a[0], b[0]);
      assert a[0] == b[0];
      DropFirst(a, b);
      assert a == [a[0]] + a[1..] && b == [b[0]] + b[1..];
      SortedTail(leq, a);
      SortedTail(leq, b);
      assert forall x :: x in a[1..] ==> x in a;
      SortedUnique(leq, a[1..], b[1..]);
    }
  }

  /** Sorting forgets the order its input arrived in. */
  lemma SortPermutation<T(!new)>(leq: (T, T) -> bool, a: seq<T>, b: seq<T>)
    requires TotalPreorder(leq)
    requires multiset(a) == multiset(b)
    requires Separates(leq, a)
    ensures Sort(leq, a) == Sort(leq, b)
  {
    SortSorted(leq, a);
    SortSorted(leq, b);
    SortMembers(leq, a);
    SortedUnique(leq, Sort(leq, a), Sort(leq, b));
  }

  /** The first element after sorting is a least element. */
  lemma SortHead<T(!new)>(leq: (T, T) -> bool, s: seq<T>)
    requires TotalPreorder(leq) && s != []
    ensures Sort(leq, s)[0] in s
    ensures forall x :: x in s ==> leq(Sort(leq, s)[0], x)
  {
    var ordered := Sort(leq, s);
    SortSorted(leq, s);
    SortMembers(leq, s);
    assert ordered[0] in ordered;
    forall x | x in s ensures leq(ordered[0], x) {
      var k :| 0 <= k < |ordered| && ordered[k] == x;
      assert k > 0 || leq(x, x);
    }
  }

  /** A sorted sequence is left as it is, ties included. */
  lemma {:induction false} SortOfSorted<T(!new)>(leq: (T, T) -> bool, s: seq<T>)
    requires Sorted(leq, s)
    ensures Sort(leq, s) == s
  {
    if s != [] {
      SortOfSorted(leq, s[1..]);
      assert |s| > 1 ==> leq(s[0], s[1]);
    }
  }
}
