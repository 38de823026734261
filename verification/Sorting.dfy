/** `sort.Slice` on a copy: some permutation in ascending order, and when that permutation is unique. */
module Sorting {
  /** No element comes before an earlier one. */
  ghost predicate Ascends<T>(before: (T, T) -> bool, s: seq<T>) {
    forall i, j :: 0 <= i < j < |s| ==> !before(s[j], s[i])
  }

  ghost predicate StrictlyAscends<T>(before: (T, T) -> bool, s: seq<T>) {
    forall i, j :: 0 <= i < j < |s| ==> before(s[i], s[j])
  }

  /** "Not after" is a total preorder. */
  ghost predicate WeakOrder<T(!new)>(before: (T, T) -> bool) {
    && (forall a, b :: !(before(a, b) && before(b, a)))
    && (forall a, b, c :: before(a, c) ==> before(a, b) || before(b, c))
  }

  function Insert<T>(before: (T, T) -> bool, x: T, s: seq<T>): seq<T> {
    if s == [] || !before(s[0], x) then [x] + s else [s[0]] + Insert(before, x, s[1..])
  }

  lemma {:induction false} InsertSorted<T(!new)>(before: (T, T) -> bool, x: T, s: seq<T>)
    requires WeakOrder(before) && Ascends(before, s)
    ensures Ascends(before, Insert(before, x, s)) && multiset(Insert(before, x, s)) == multiset(s) + multiset{x}
  {
    if s == [] || !before(s[0], x) {
      var r := [x] + s;
      forall i, j | 0 <= i < j < |r|
        ensures !before(r[j], r[i])
      {
        assert s != [] ==> before(r[j], s[0]) || before(s[0], x) || !before(r[j], x);
      }
    } else {
      InsertSorted(before, x, s[1..]);
      var tail := Insert(before, x, s[1..]);
      assert s == [s[0]] + s[1..];
      forall j | 0 <= j < |tail|
        ensures !before(tail[j], s[0])
      {
        assert tail[j] in multiset(tail);
        if tail[j] != x { assert tail[j] in s[1..]; }
      }
    }
  }

  /** A copy of `s` in ascending order. */
  method SortSlice<T(!new)>(before: (T, T) -> bool, s: seq<T>) returns (r: seq<T>)
    requires WeakOrder(before)
    ensures Ascends(before, r) && multiset(r) == multiset(s)
  {
    r := [];
    for i := 0 to |s|
      invariant Ascends(before, r) && multiset(r) == multiset(s[..i])
    {
      InsertSorted(before, s[i], r);
      r := Insert(before, s[i], r);
      assert s[..i + 1] == s[..i] + [s[i]];
    }
    assert s[..|s|] == s;
  }

  lemma SameHead<T(!new)>(before: (T, T) -> bool, a: seq<T>, b: seq<T>)
    requires multiset(a) == multiset(b) && a != [] && b != []
    requires Ascends(before, a) && StrictlyAscends(before, b)
    ensures a[0] == b[0]
  {
    assert b[0] in multiset(a) && a[0] in multiset(b);
    var i :| 0 <= i < |a| && a[i] == b[0];
    var j :| 0 <= j < |b| && b[j] == a[0];
    assert j > 0 ==> before(b[0], b[j]);
    assert i > 0 ==> !before(a[i], a[0]);
  }

  /** A permutation in strictly ascending order is the only one in ascending order. */
  lemma {:induction false} SortedUnique<T(!new)>(before: (T, T) -> bool, a: seq<T>, b: seq<T>)
    requires multiset(a) == multiset(b)
    requires Ascends(before, a) && StrictlyAscends(before, b)
    ensures a == b
    decreases |a|
  {
    assert |a| == |multiset(a)| == |multiset(b)| == |b|;
    if a != [] {
      SameHead(before, a, b);
      assert a == [a[0]] + a[1..] && b == [b[0]] + b[1..];
      assert multiset(a[1..]) == multiset(a) - multiset{a[0]};
      assert multiset(b[1..]) == multiset(b) - multiset{b[0]};
      SortedUnique(before, a[1..], b[1..]);
    }
  }

  /** Two strictly ascending sequences with the same elements are equal. */
  lemma {:induction false} SameElementsSameOrder<T(!new)>(before: (T, T) -> bool, a: seq<T>, b: seq<T>)
    requires WeakOrder(before) && StrictlyAscends(before, a) && StrictlyAscends(before, b)
    requires forall x :: x in a <==> x in b
    ensures a == b
  {
    assert (a != [] ==> a[0] in a) && (b != [] ==> b[0] in b);
    if a != [] && b != [] {
      assert a[0] in b && b[0] in a;
      var i :| 0 <= i < |a| && a[i] == b[0];
      var j :| 0 <= j < |b| && b[j] == a[0];
      assert a[0] == b[0];
      forall x
        ensures x in a[1..] <==> x in b[1..]
      {
        TailElements(before, a, x);
        TailElements(before, b, x);
      }
      SameElementsSameOrder(before, a[1..], b[1..]);
      assert a == [a[0]] + a[1..] && b == [b[0]] + b[1..];
    }
  }

  lemma TailElements<T(!new)>(before: (T, T) -> bool, s: seq<T>, x: T)
    requires WeakOrder(before) && StrictlyAscends(before, s) && s != []
    ensures x in s[1..] <==> x in s && x != s[0]
  {
  }
}
