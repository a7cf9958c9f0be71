/** Facts about Python lists used as queues: first index, removal of the first occurrence,
    and sequences without duplicates. */
module Lists {
  ghost predicate Distinct<T>(xs: seq<T>) {
    forall i, j :: 0 <= i < j < |xs| ==> xs[i] != xs[j]
  }

  ghost function Elements<T>(xs: seq<T>): set<T> {
    set x | x in xs
  }

  /** `xs.index(x)` */
  function IndexOf<T(==)>(xs: seq<T>, x: T): (i: nat)
    requires x in xs
    ensures i < |xs| && xs[i] == x && x !in xs[..i]
  {
    if xs[0] == x then 0 else 1 + IndexOf(xs[1..], x)
  }

  /** `xs.remove(x)`, guarded by `x in xs` */
  function RemoveFirst<T(==)>(xs: seq<T>, x: T): seq<T> {
    if xs == [] then [] else if xs[0] == x then xs[1..] else [xs[0]] + RemoveFirst(xs[1..], x)
  }

  lemma {:induction false} RemoveFirstAbsent<T>(xs: seq<T>, x: T)
    requires x !in xs
    ensures RemoveFirst(xs, x) == xs
  {
    if xs != [] {
      RemoveFirstAbsent(xs[1..], x);
      assert xs == [xs[0]] + xs[1..];
    }
  }

  lemma {:induction false} RemoveFirstCuts<T>(xs: seq<T>, x: T)
    requires x in xs
    ensures var i := IndexOf(xs, x); RemoveFirst(xs, x) == xs[..i] + xs[i + 1..]
  {
    if xs[0] != x {
      RemoveFirstCuts(xs[1..], x);
      var j := IndexOf(xs[1..], x);
      assert xs[..j + 1] == [xs[0]] + xs[1..][..j];
      assert xs[1..][j + 1..] == xs[j + 2..];
    }
  }

  lemma RemoveFirstKeepsDistinct<T>(xs: seq<T>, x: T)
    requires Distinct(xs)
    ensures Distinct(RemoveFirst(xs, x))
    ensures forall y :: y in RemoveFirst(xs, x) <==> y in xs && y != x
  {
    if x in xs {
      RemoveFirstCuts(xs, x);
      var i := IndexOf(xs, x);
      CutKeepsDistinct(xs, i);
    } else {
      RemoveFirstAbsent(xs, x);
    }
  }

  lemma CutKeepsDistinct<T>(xs: seq<T>, i: nat)
    requires Distinct(xs) && i < |xs|
    ensures Distinct(xs[..i] + xs[i + 1..])
    ensures forall y :: y in xs[..i] + xs[i + 1..] <==> y in xs && y != xs[i]
  {
    var ys := xs[..i] + xs[i + 1..];
    assert forall k :: 0 <= k < |ys| ==> ys[k] == xs[if k < i then k else k + 1];
    forall y | y in xs && y != xs[i] ensures y in ys {
      var j :| 0 <= j < |xs| && xs[j] == y;
      assert ys[if j < i then j else j - 1] == y;
    }
  }

  /** In a list without duplicates an element has one index. */
  lemma IndexIsUnique<T>(xs: seq<T>, x: T, i: nat)
    requires Distinct(xs) && i < |xs| && xs[i] == x
    ensures IndexOf(xs, x) == i
  {
    var j := IndexOf(xs, x);
  }

  lemma {:induction false} DistinctCardinality<T>(xs: seq<T>)
    requires Distinct(xs)
    ensures |Elements(xs)| == |xs|
  {
    if xs == [] {
    } else {
      var n := |xs| - 1;
      DistinctCardinality(xs[..n]);
      assert xs == xs[..n] + [xs[n]];
      assert Elements(xs) == Elements(xs[..n]) + {xs[n]};
      assert xs[n] !in xs[..n];
    }
  }
}
