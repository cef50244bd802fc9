/** The profiles both sides of a pairing support, as one canonical list. */
module Profiles {

  /** String order by code units, as the default array sort compares. */
  predicate Before(a: string, b: string)
    decreases |a|
  {
    if b == [] then false
    else if a == [] then true
    else a[0] < b[0] || (a[0] == b[0] && Before(a[1..], b[1..]))
  }

  lemma {:induction false} BeforeTotal(a: string, b: string)
    ensures a == b || Before(a, b) || Before(b, a)
    ensures !(Before(a, b) && Before(b, a))
    ensures Before(a, b) ==> a != b
    decreases |a|
  {
    if a != [] && b != [] {
      BeforeTotal(a[1..], b[1..]);
      assert a == [a[0]] + a[1..] && b == [b[0]] + b[1..];
    }
  }

  lemma {:induction false} BeforeTrans(a: string, b: string, c: string)
    requires Before(a, b) && Before(b, c)
    ensures Before(a, c)
    decreases |a|
  {
    if a != [] && a[0] == b[0] && b[0] == c[0] {
      BeforeTrans(a[1..], b[1..], c[1..]);
    }
  }

  /** Strictly ascending, so without duplicates. */
  ghost predicate Ascending(xs: seq<string>) {
    forall i, j :: 0 <= i < j < |xs| ==> Before(xs[i], xs[j])
  }

  lemma RestOf(xs: seq<string>, x: string)
    requires xs != [] && Ascending(xs)
    ensures x in xs[1..] <==> x in xs && x != xs[0]
  {
    assert xs == [xs[0]] + xs[1..];
    if x in xs[1..] {
      var j :| 0 <= j < |xs| - 1 && xs[1..][j] == x;
      BeforeTotal(xs[0], xs[j + 1]);
    }
  }

  lemma FirstIsIn(xs: seq<string>)
    requires xs != []
    ensures xs[0] in xs
  {
  }

  /** Two ascending lists with the same elements are the same list. */
  lemma {:induction false} AscendingUnique(xs: seq<string>, ys: seq<string>)
    requires Ascending(xs) && Ascending(ys)
    requires forall x :: x in xs <==> x in ys
    ensures xs == ys
    decreases |xs|
  {
    if xs == [] {
      if ys != [] {
        FirstIsIn(ys);
        assert false;
      }
    } else {
      assert xs[0] in ys && ys[0] in xs;
      BeforeTotal(xs[0], ys[0]);
      assert xs[0] == ys[0];
      forall x ensures x in xs[1..] <==> x in ys[1..] {
        RestOf(xs, x);
        RestOf(ys, x);
      }
      AscendingUnique(xs[1..], ys[1..]);
    }
  }

  /** Puts one string in its place of an ascending list. */
  function Insert(x: string, xs: seq<string>): (r: seq<string>)
    ensures forall y :: y in r <==> y == x || y in xs
  {
    if xs == [] then [x]
    else if Before(x, xs[0]) then [x] + xs
    else
      var r := Insert(x, xs[1..]);
      assert xs == [xs[0]] + xs[1..];
      [xs[0]] + r
  }

  lemma {:induction false} InsertAscends(x: string, xs: seq<string>)
    requires Ascending(xs) && x !in xs
    ensures Ascending(Insert(x, xs))
  {
    if xs != [] {
      BeforeTotal(x, xs[0]);
      if Before(x, xs[0]) {
        forall j | 0 < j < |xs| ensures Before(x, xs[j]) { BeforeTrans(x, xs[0], xs[j]); }
      } else {
        InsertAscends(x, xs[1..]);
        var r := Insert(x, xs[1..]);
        forall j | 0 <= j < |r| ensures Before(xs[0], r[j]) { assert r[j] in r; }
      }
    }
  }

  function Sorted(xs: seq<string>): (r: seq<string>)
    ensures forall y :: y in r <==> y in xs
  {
    if xs == [] then []
    else
      assert xs == xs[..|xs| - 1] + [xs[|xs| - 1]];
      Insert(xs[|xs| - 1], Sorted(xs[..|xs| - 1]))
  }

  ghost predicate Distinct(xs: seq<string>) {
    forall i, j :: 0 <= i < j < |xs| ==> xs[i] != xs[j]
  }

  lemma {:induction false} SortedAscends(xs: seq<string>)
    requires Distinct(xs)
    ensures Ascending(Sorted(xs))
  {
    if xs != [] {
      SortedAscends(xs[..|xs| - 1]);
      InsertAscends(xs[|xs| - 1], Sorted(xs[..|xs| - 1]));
    }
  }

  /** The elements of `a` that are also in `b`, each once, in the order of their first occurrence. */
  function Common(a: seq<string>, b: seq<string>): (r: seq<string>)
    ensures forall x :: x in r <==> x in a && x in b
  {
    if a == [] then []
    else
      var r := Common(a[..|a| - 1], b);
      var x := a[|a| - 1];
      assert a == a[..|a| - 1] + [x];
      if x in b && x !in r then r + [x] else r
  }

  lemma {:induction false} CommonDistinct(a: seq<string>, b: seq<string>)
    ensures Distinct(Common(a, b))
  {
    if a != [] {
      CommonDistinct(a[..|a| - 1], b);
    }
  }

  function Intersect(a: seq<string>, b: seq<string>): seq<string> {
    Sorted(Common(a, b))
  }

  method IntersectProfiles(a: seq<string>, b: seq<string>) returns (r: seq<string>)
    ensures r == Intersect(a, b)
    ensures forall x :: x in r <==> x in a && x in b
    ensures Ascending(r)
  {
    var seen: set<string> := {};
    r := [];
    for n := 0 to |a|
      invariant r == Common(a[..n], b)
      invariant forall x :: x in seen <==> x in r
    {
      assert a[..n + 1][..n] == a[..n];
      if a[n] in b && a[n] !in seen {
        seen := seen + {a[n]};
        r := r + [a[n]];
      }
    }
    assert a[..|a|] == a;
    CommonDistinct(a, b);
    SortedAscends(r);
    r := Sorted(r);
  }

  /** Both sides derive the same list, whichever of them is first, and however theirs were ordered or repeated. */
  lemma IntersectAgrees(a: seq<string>, b: seq<string>, a': seq<string>, b': seq<string>)
    requires forall x :: x in a <==> x in a'
    requires forall x :: x in b <==> x in b'
    ensures Intersect(a, b) == Intersect(b', a')
  {
    CommonDistinct(a, b);
    CommonDistinct(b', a');
    SortedAscends(Common(a, b));
    SortedAscends(Common(b', a'));
    AscendingUnique(Intersect(a, b), Intersect(b', a'));
  }
}
