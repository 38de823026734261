/** Ordered listings of finite sets of row ids: what a query with ORDER BY returns. */
module Listing {
  import opened Basics
  import Text

  /** A strict total order on the elements of `s`. */
  ghost predicate Orders<T(!new)>(before: (T, T) -> bool, s: set<T>) {
    && (forall a, b :: a in s && b in s && before(a, b) ==> a != b && !before(b, a))
    && (forall a, b, c :: a in s && b in s && c in s && before(a, b) && before(b, c) ==> before(a, c))
    && (forall a, b :: a in s && b in s && a != b ==> before(a, b) || before(b, a))
  }

  lemma {:induction false} FirstExists<T(!new)>(before: (T, T) -> bool, s: set<T>) returns (first: T)
    requires s != {} && Orders(before, s)
    ensures first in s && forall o :: o in s && o != first ==> before(first, o)
    decreases s
  {
    var x :| x in s;
    if s == {x} {
      first := x;
    } else {
      var f := FirstExists(before, s - {x});
      first := if before(f, x) then f else x;
    }
  }

  /** The elements of `s` in ascending order. */
  function Ascending<T(!new)>(before: (T, T) -> bool, s: set<T>): (r: seq<T>)
    requires Orders(before, s)
    ensures |r| == |s|
    ensures forall x :: x in r <==> x in s
    ensures forall i, j :: 0 <= i < j < |r| ==> before(r[i], r[j])
    decreases |s|
  {
    if s == {} then []
    else
      assert exists x :: x in s && forall o :: o in s && o != x ==> before(x, o) by {
        var first := FirstExists(before, s);
      }
      var x :| x in s && forall o :: o in s && o != x ==> before(x, o);
      [x] + Ascending(before, s - {x})
  }

  lemma TextOrders(s: set<string>)
    ensures Orders(Text.Less, s)
  {
    forall a, b | a in s && b in s && Text.Less(a, b)
      ensures a != b && !Text.Less(b, a)
    {
      Text.LessIrreflexive(a);
      if Text.Less(b, a) { Text.LessTransitive(a, b, a); }
    }
    forall a, b, c | a in s && b in s && c in s && Text.Less(a, b) && Text.Less(b, c)
      ensures Text.Less(a, c)
    {
      Text.LessTransitive(a, b, c);
    }
    forall a, b | a in s && b in s && a != b
      ensures Text.Less(a, b) || Text.Less(b, a)
    {
      Text.LessTotal(a, b);
    }
  }

  /** `ORDER BY id`. */
  function ById(s: set<Id>): (r: seq<Id>)
    ensures |r| == |s|
    ensures forall x :: x in r <==> x in s
    ensures forall i, j :: 0 <= i < j < |r| ==> r[i] != r[j]
  {
    TextOrders(s);
    Ascending(Text.Less, s)
  }
}
