/** Cosine similarity and the hash-bag embedder (ai/embeddings.py), over the reals. */
module Embeddings {
  /* ---------- facts about products ---------- */

  /** Multiplication under a name, so that proofs about vectors can keep products closed (`hide`). */
  function Times(x: real, y: real): real { x * y }

  lemma Positive(x: real, y: real)
    requires x > 0.0 && y > 0.0
    ensures Times(x, y) > 0.0
  {
  }

  lemma Negatives(x: real, y: real)
    requires x < 0.0 && y < 0.0
    ensures Times(x, y) > 0.0
  {
  }

  lemma Square(x: real)
    ensures Times(x, x) >= 0.0
    ensures x != 0.0 ==> Times(x, x) > 0.0
  {
    if x > 0.0 {
      Positive(x, x);
    } else if x < 0.0 {
      Negatives(x, x);
    }
  }

  lemma Commute(x: real, y: real)
    ensures Times(x, y) == Times(y, x)
  {
  }

  lemma Zero(x: real)
    ensures Times(x, 0.0) == 0.0 == Times(0.0, x)
  {
  }

  lemma Distribute(k: real, x: real, y: real)
    ensures Times(k, x + y) == Times(k, x) + Times(k, y)
    ensures Times(k, x - y) == Times(k, x) - Times(k, y)
  {
  }

  lemma Associate(x: real, y: real, z: real)
    ensures Times(Times(x, y), z) == Times(x, Times(y, z))
  {
  }

  lemma SignOfFactor(x: real, y: real)
    requires x > 0.0
    ensures Times(x, y) >= 0.0 ==> y >= 0.0
    ensures Times(x, y) == 0.0 <==> y == 0.0
  {
  }

  lemma SquareOfDifference(s: real, x: real, t: real, y: real)
    ensures var c := Times(s, x) - Times(t, y);
            Times(c, c) == Times(Times(s, s), Times(x, x)) - 2.0 * Times(Times(s, t), Times(x, y))
                           + Times(Times(t, t), Times(y, y))
  {
  }

  lemma DifferenceOfSquares(d: real, n: real)
    ensures Times(d - n, d + n) == Times(d, d) - Times(n, n)
    ensures Times(-d - n, -d + n) == Times(d, d) - Times(n, n)
  {
  }

  lemma SquareOrder(d: real, n: real)
    requires n > 0.0 && Times(d, d) <= Times(n, n)
    ensures -n <= d <= n
  {
    hide Times;
    DifferenceOfSquares(d, n);
    if d > n {
      Positive(d - n, d + n);
    }
    if d < -n {
      Positive(-d - n, -d + n);
    }
  }

  lemma EqualSquares(x: real, y: real)
    requires x >= 0.0 && y > 0.0 && Times(x, x) == Times(y, y)
    ensures x == y
  {
    hide Times;
    DifferenceOfSquares(x, y);
    Commute(x - y, x + y);
    SignOfFactor(x + y, x - y);
  }

  lemma SquareOfProduct(x: real, y: real)
    ensures Times(Times(x, y), Times(x, y)) == Times(Times(x, x), Times(y, y))
  {
  }

  lemma Quotient(d: real, n: real)
    requires n > 0.0
    ensures Times(d / n, n) == d
    ensures -n <= d <= n ==> -1.0 <= d / n <= 1.0
    ensures d / n == 1.0 <==> d == n
    ensures d > 0.0 ==> d / n > 0.0
  {
  }

  /* ---------- cosine ---------- */

  function Dot(a: seq<real>, b: seq<real>): real
    requires |a| == |b|
  {
    if a == [] then 0.0 else Times(a[0], b[0]) + Dot(a[1..], b[1..])
  }

  /** math.sqrt, of which only this is used. */
  ghost predicate IsSqrt(sqrt: real -> real) {
    forall x: real :: x >= 0.0 ==> sqrt(x) >= 0.0 && Times(sqrt(x), sqrt(x)) == x
  }

  function Cosine(sqrt: real -> real, a: seq<real>, b: seq<real>): real {
    if |a| != |b| || a == [] then 0.0 else Ratio(Dot(a, b), sqrt(Dot(a, a)), sqrt(Dot(b, b)))
  }

  function Ratio(dot: real, na: real, nb: real): real {
    if na != 0.0 && nb != 0.0 && Times(na, nb) != 0.0 then dot / Times(na, nb) else 0.0
  }

  /** The norms being nonzero is the only test the code needs: their product is then nonzero as well. */
  lemma RatioGuard(na: real, nb: real)
    requires na != 0.0 && nb != 0.0
    ensures Times(na, nb) != 0.0
  {
  }

  lemma {:induction false} DotSymmetric(a: seq<real>, b: seq<real>)
    requires |a| == |b|
    ensures Dot(a, b) == Dot(b, a)
  {
    hide Times;
    if a != [] {
      DotSymmetric(a[1..], b[1..]);
      Commute(a[0], b[0]);
    }
  }

  lemma CosineSymmetric(sqrt: real -> real, a: seq<real>, b: seq<real>)
    ensures Cosine(sqrt, a, b) == Cosine(sqrt, b, a)
  {
    hide Times;
    if |a| == |b| && a != [] {
      DotSymmetric(a, b);
      Commute(sqrt(Dot(a, a)), sqrt(Dot(b, b)));
    }
  }

  predicate Nonzero(a: seq<real>) { exists i :: 0 <= i < |a| && a[i] != 0.0 }

  lemma {:induction false} SquaresNonnegative(a: seq<real>)
    ensures Dot(a, a) >= 0.0
    ensures Dot(a, a) > 0.0 <==> Nonzero(a)
  {
    hide Times;
    if a != [] {
      SquaresNonnegative(a[1..]);
      Square(a[0]);
      Zero(0.0);
      assert forall i :: 1 <= i < |a| ==> a[i] == a[1..][i - 1];
      if Nonzero(a) && a[0] == 0.0 {
        var i :| 0 <= i < |a| && a[i] != 0.0;
        assert a[1..][i - 1] != 0.0;
      }
    }
  }

  /** s * a - t * b, entry by entry. */
  function Combine(s: real, a: seq<real>, t: real, b: seq<real>): (c: seq<real>)
    requires |a| == |b|
    ensures |c| == |a|
    ensures forall i :: 0 <= i < |a| ==> c[i] == Times(s, a[i]) - Times(t, b[i])
  {
    if a == [] then [] else [Times(s, a[0]) - Times(t, b[0])] + Combine(s, a[1..], t, b[1..])
  }

  lemma {:induction false} DotOfCombination(s: real, a: seq<real>, t: real, b: seq<real>)
    requires |a| == |b|
    ensures var c := Combine(s, a, t, b);
            Dot(c, c) == Times(Times(s, s), Dot(a, a)) - 2.0 * Times(Times(s, t), Dot(a, b))
                         + Times(Times(t, t), Dot(b, b))
  {
    hide Times;
    if a == [] {
      Zero(Times(s, s));
      Zero(Times(s, t));
      Zero(Times(t, t));
    } else {
      DotOfCombination(s, a[1..], t, b[1..]);
      assert Combine(s, a, t, b)[1..] == Combine(s, a[1..], t, b[1..]);
      SquareOfDifference(s, a[0], t, b[0]);
      Distribute(Times(s, s), Times(a[0], a[0]), Dot(a[1..], a[1..]));
      Distribute(Times(s, t), Times(a[0], b[0]), Dot(a[1..], b[1..]));
      Distribute(Times(t, t), Times(b[0], b[0]), Dot(b[1..], b[1..]));
    }
  }

  lemma Factor(aa: real, ab: real, bb: real)
    ensures Times(Times(bb, bb), aa) - 2.0 * Times(Times(bb, ab), ab) + Times(Times(ab, ab), bb)
            == Times(bb, Times(aa, bb) - Times(ab, ab))
  {
  }

  lemma {:induction false} DotWithZeros(a: seq<real>, b: seq<real>)
    requires |a| == |b| && !Nonzero(b)
    ensures Dot(a, b) == 0.0
  {
    hide Times;
    if a != [] {
      assert b[0] == 0.0;
      assert forall i :: 0 <= i < |b[1..]| ==> b[1..][i] == b[i + 1];
      DotWithZeros(a[1..], b[1..]);
      Zero(a[0]);
    }
  }

  /** The Cauchy-Schwarz inequality, with its case of equality. */
  lemma CauchySchwarz(a: seq<real>, b: seq<real>)
    requires |a| == |b|
    ensures var aa, ab, bb := Dot(a, a), Dot(a, b), Dot(b, b);
            && Times(ab, ab) <= Times(aa, bb)
            && (Times(ab, ab) == Times(aa, bb) && Nonzero(b) ==> !Nonzero(Combine(bb, a, ab, b)))
  {
    hide Times;
    var aa, ab, bb := Dot(a, a), Dot(a, b), Dot(b, b);
    SquaresNonnegative(b);
    if Nonzero(b) {
      var c := Combine(bb, a, ab, b);
      DotOfCombination(bb, a, ab, b);
      Factor(aa, ab, bb);
      SquaresNonnegative(c);
      SignOfFactor(bb, Times(aa, bb) - Times(ab, ab));
    } else {
      DotWithZeros(a, b);
      DotWithZeros(b, b);
      Zero(aa);
      Zero(0.0);
    }
  }

  lemma RatioInRange(aa: real, ab: real, bb: real, na: real, nb: real)
    requires Times(ab, ab) <= Times(aa, bb) && na >= 0.0 && nb >= 0.0 && Times(na, na) == aa && Times(nb, nb) == bb
    ensures -1.0 <= Ratio(ab, na, nb) <= 1.0
    ensures Ratio(ab, na, nb) == 1.0 ==> ab > 0.0 && Times(ab, ab) == Times(aa, bb) && bb > 0.0
  {
    hide Times;
    if na != 0.0 && nb != 0.0 {
      Positive(na, nb);
      Positive(nb, nb);
      SquareOfProduct(na, nb);
      SquareOrder(ab, Times(na, nb));
      Quotient(ab, Times(na, nb));
    }
  }

  lemma Root(sqrt: real -> real, x: real)
    requires IsSqrt(sqrt) && x >= 0.0
    ensures sqrt(x) >= 0.0 && Times(sqrt(x), sqrt(x)) == x
  {
  }

  /** What the cosine is: zero for vectors of different lengths or a zero vector, and otherwise the number that times
      both norms gives the dot product. */
  lemma CosineMeans(sqrt: real -> real, a: seq<real>, b: seq<real>)
    requires IsSqrt(sqrt)
    ensures |a| != |b| || !Nonzero(a) || !Nonzero(b) ==> Cosine(sqrt, a, b) == 0.0
    ensures |a| == |b| && Nonzero(a) && Nonzero(b) ==>
              var na, nb := sqrt(Dot(a, a)), sqrt(Dot(b, b));
              na > 0.0 && nb > 0.0 && Times(Cosine(sqrt, a, b), Times(na, nb)) == Dot(a, b)
  {
    hide Times;
    if |a| == |b| && a != [] {
      SquaresNonnegative(a);
      SquaresNonnegative(b);
      Root(sqrt, Dot(a, a));
      Root(sqrt, Dot(b, b));
      Zero(0.0);
      var na, nb := sqrt(Dot(a, a)), sqrt(Dot(b, b));
      Square(na);
      Square(nb);
      if Nonzero(a) && Nonzero(b) {
        Positive(na, nb);
        Quotient(Dot(a, b), Times(na, nb));
      }
    }
  }

  lemma CosineInRange(sqrt: real -> real, a: seq<real>, b: seq<real>)
    requires IsSqrt(sqrt)
    ensures -1.0 <= Cosine(sqrt, a, b) <= 1.0
  {
    hide Times;
    if |a| == |b| && a != [] {
      SquaresNonnegative(a);
      SquaresNonnegative(b);
      CauchySchwarz(a, b);
      Root(sqrt, Dot(a, a));
      Root(sqrt, Dot(b, b));
      RatioInRange(Dot(a, a), Dot(a, b), Dot(b, b), sqrt(Dot(a, a)), sqrt(Dot(b, b)));
    }
  }

  function Scale(k: real, b: seq<real>): (c: seq<real>)
    ensures |c| == |b|
    ensures forall i :: 0 <= i < |b| ==> c[i] == Times(k, b[i])
  {
    if b == [] then [] else [Times(k, b[0])] + Scale(k, b[1..])
  }

  lemma {:induction false} DotOfScaled(k: real, a: seq<real>, b: seq<real>)
    requires |a| == |b|
    ensures Dot(Scale(k, a), b) == Times(k, Dot(a, b))
  {
    hide Times;
    if a == [] {
      Zero(k);
    } else {
      assert Scale(k, a)[1..] == Scale(k, a[1..]);
      DotOfScaled(k, a[1..], b[1..]);
      Associate(k, a[0], b[0]);
      Distribute(k, Times(a[0], b[0]), Dot(a[1..], b[1..]));
    }
  }

  lemma DotOfBothScaled(k: real, a: seq<real>)
    ensures Dot(Scale(k, a), Scale(k, a)) == Times(k, Times(k, Dot(a, a)))
  {
    hide Times;
    DotOfScaled(k, a, Scale(k, a));
    DotSymmetric(a, Scale(k, a));
    DotOfScaled(k, a, a);
  }

  lemma ParallelRatio(k: real, bb: real, na: real, nb: real)
    requires k > 0.0 && bb > 0.0 && na >= 0.0 && nb >= 0.0
    requires Times(na, na) == Times(k, Times(k, bb)) && Times(nb, nb) == bb
    ensures Ratio(Times(k, bb), na, nb) == 1.0
  {
    hide Times;
    Zero(0.0);
    Positive(k, nb);
    SquareOfProduct(k, nb);
    Associate(k, k, bb);
    EqualSquares(na, Times(k, nb));
    Associate(k, nb, nb);
    Positive(k, bb);
    Quotient(Times(k, bb), Times(na, nb));
  }

  lemma ParallelMeansOne(sqrt: real -> real, k: real, b: seq<real>)
    requires IsSqrt(sqrt) && k > 0.0 && Nonzero(b)
    ensures Cosine(sqrt, Scale(k, b), b) == 1.0
  {
    hide Times;
    SquaresNonnegative(b);
    SquaresNonnegative(Scale(k, b));
    DotOfBothScaled(k, b);
    DotOfScaled(k, b, b);
    Root(sqrt, Dot(b, b));
    Root(sqrt, Dot(Scale(k, b), Scale(k, b)));
    ParallelRatio(k, Dot(b, b), sqrt(Dot(Scale(k, b), Scale(k, b))), sqrt(Dot(b, b)));
  }

  lemma QuotientEntry(x: real, y: real, ab: real, bb: real)
    requires bb > 0.0 && Times(bb, x) - Times(ab, y) == 0.0
    ensures x == Times(ab / bb, y)
  {
    hide Times;
    var k := ab / bb;
    Quotient(ab, bb);
    Commute(k, bb);
    Associate(bb, k, y);
    Distribute(bb, x, Times(k, y));
    SignOfFactor(bb, x - Times(k, y));
  }

  lemma OneMeansParallel(sqrt: real -> real, a: seq<real>, b: seq<real>)
    requires IsSqrt(sqrt) && Cosine(sqrt, a, b) == 1.0
    ensures Nonzero(b) && exists k: real :: k > 0.0 && a == Scale(k, b)
  {
    hide Times;
    var aa, ab, bb := Dot(a, a), Dot(a, b), Dot(b, b);
    SquaresNonnegative(a);
    SquaresNonnegative(b);
    CauchySchwarz(a, b);
    Root(sqrt, aa);
    Root(sqrt, bb);
    RatioInRange(aa, ab, bb, sqrt(aa), sqrt(bb));
    var c := Combine(bb, a, ab, b);
    forall i | 0 <= i < |a|
      ensures a[i] == Scale(ab / bb, b)[i]
    {
      assert c[i] == 0.0;
      QuotientEntry(a[i], b[i], ab, bb);
    }
    Quotient(ab, bb);
    assert a == Scale(ab / bb, b);
  }

  /** The cosine is one exactly for vectors that point the same way. */
  lemma CosineIsOneIff(sqrt: real -> real, a: seq<real>, b: seq<real>)
    requires IsSqrt(sqrt)
    ensures Cosine(sqrt, a, b) == 1.0 <==> Nonzero(b) && exists k: real :: k > 0.0 && a == Scale(k, b)
  {
    hide Times;
    if Cosine(sqrt, a, b) == 1.0 {
      OneMeansParallel(sqrt, a, b);
    }
    if Nonzero(b) && exists k: real :: k > 0.0 && a == Scale(k, b) {
      var k :| k > 0.0 && a == Scale(k, b);
      ParallelMeansOne(sqrt, k, b);
    }
  }

  lemma One(x: real)
    ensures Times(1.0, x) == x
  {
  }

  lemma SelfCosine(sqrt: real -> real, a: seq<real>)
    requires IsSqrt(sqrt)
    ensures Cosine(sqrt, a, a) == if Nonzero(a) then 1.0 else 0.0
  {
    hide Times;
    if Nonzero(a) {
      forall i | 0 <= i < |a|
        ensures a[i] == Scale(1.0, a)[i]
      {
        One(a[i]);
      }
      assert a == Scale(1.0, a);
      ParallelMeansOne(sqrt, 1.0, a);
    } else {
      DotWithZeros(a, a);
    }
  }
}
