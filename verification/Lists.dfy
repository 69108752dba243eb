/** Small operations on lists that several components share. */
module Lists {

  predicate NoRepeats<T(==)>(xs: seq<T>) {
    forall i, j | 0 <= i < j < |xs| :: xs[i] != xs[j]
  }

  /** A visit of exactly these elements, each once. */
  ghost predicate Visits<T(!new)>(order: seq<T>, elements: set<T>) {
    NoRepeats(order) && (forall x :: x in order <==> x in elements)
  }

  /** The list without any occurrence of x, the rest in order. */
  function Without<T(==)>(xs: seq<T>, x: T): seq<T> {
    if xs == [] then []
    else
      var n := |xs| - 1;
      if xs[n] != x then Without(xs[..n], x) + [xs[n]] else Without(xs[..n], x)
  }

  lemma {:induction false} WithoutIs<T>(xs: seq<T>, x: T, y: T)
    ensures y in Without(xs, x) <==> y in xs && y != x
  {
    if xs != [] {
      var n := |xs| - 1;
      assert xs == xs[..n] + [xs[n]];
      WithoutIs(xs[..n], x, y);
    }
  }

  /** The rest stays where it was: removing goes part by part. */
  lemma {:induction false} WithoutConcat<T>(xs: seq<T>, ys: seq<T>, x: T)
    ensures Without(xs + ys, x) == Without(xs, x) + Without(ys, x)
  {
    if ys == [] {
      assert xs + ys == xs;
    } else {
      var n := |ys| - 1;
      WithoutConcat(xs, ys[..n], x);
      assert (xs + ys)[..|xs| + n] == xs + ys[..n];
    }
  }

  lemma WithoutOne<T>(y: T, x: T)
    ensures Without([y], x) == if y == x then [] else [y]
  {
    assert [y][..0] == [];
  }
}
