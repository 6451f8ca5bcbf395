/**
 * The purity reduction of a joint spectral amplitude's singular values:
 * after normalising the vector s to unit length, the purity is the sum of
 * the fourth powers of its entries. The identity
 *   sum_k (s_k / |s|)^4 = (sum_k s_k^4) / (sum_k s_k^2)^2
 * lets the model state it without a square root.
 */
module Schmidt {
  import opened Wrappers
  import opened Numerics

  function SumSq(s: seq<real>): real {
    if |s| == 0 then 0.0 else Sq(s[0]) + SumSq(s[1..])
  }

  function SumQuad(s: seq<real>): real {
    if |s| == 0 then 0.0 else Sq(Sq(s[0])) + SumQuad(s[1..])
  }

  /** The number of nonzero entries (the Schmidt number of an exact decomposition). */
  function CountNonzero(s: seq<real>): nat {
    if |s| == 0 then 0 else (if s[0] != 0.0 then 1 else 0) + CountNonzero(s[1..])
  }

  predicate AllZero(s: seq<real>) {
    forall k :: 0 <= k < |s| ==> s[k] == 0.0
  }

  /**
   * The purity of the normalised singular values, None where the source
   * divides 0 by 0 (an all-zero vector yields NaN).
   */
  function Purity(s: seq<real>): (r: Option<real>)
    ensures r.None? <==> AllZero(s)
    ensures r.Some? ==> 0.0 < r.value <= 1.0
    ensures r.Some? ==> (r.value == 1.0 <==> CountNonzero(s) == 1)
  {
    SumSqZeroIff(s);
    if SumSq(s) == 0.0 then None
    else
      PurityBounds(s);
      Some(PurityRatio(s))
  }

  /** sum s_k^4 / (sum s_k^2)^2, the purity of a vector that is not all zero. */
  function PurityRatio(s: seq<real>): real
    requires SumSq(s) != 0.0
  {
    SqPositive(SumSq(s));
    SumQuad(s) / Sq(SumSq(s))
  }

  /**
   * The source's formulation: sum over k of (s_k / n)^4, where n is the
   * Euclidean norm of s (numpy.linalg.norm) and is given as a parameter.
   */
  function NormalizedQuartic(s: seq<real>, n: real): real
    requires n != 0.0
  {
    if |s| == 0 then 0.0 else Sq(Sq(s[0] / n)) + NormalizedQuartic(s[1..], n)
  }

  /** Dividing every entry by n divides the sum of fourth powers by n^4. */
  lemma {:induction false} NormalizedQuarticScales(s: seq<real>, n: real)
    requires n != 0.0
    ensures Sq(Sq(n)) != 0.0
    ensures NormalizedQuartic(s, n) == SumQuad(s) / Sq(Sq(n))
  {
    SqPositive(n);
    SqPositive(Sq(n));
    if |s| > 0 {
      NormalizedQuarticScales(s[1..], n);
      SqOfQuotient(s[0], n);
      SqOfQuotient(Sq(s[0]), Sq(n));
    }
  }

  /**
   * With n the norm (n != 0 and n^2 = sum s_k^2), the source's
   * sum((s / n)^4) is the purity.
   */
  lemma NormalizedPurity(s: seq<real>, n: real)
    requires n != 0.0 && Sq(n) == SumSq(s)
    ensures SumSq(s) != 0.0
    ensures Purity(s) == Some(NormalizedQuartic(s, n))
  {
    SqPositive(n);
    NormalizedQuarticScales(s, n);
  }

  lemma AllZeroCons(s: seq<real>)
    requires |s| > 0
    ensures AllZero(s) <==> s[0] == 0.0 && AllZero(s[1..])
  {
    if AllZero(s) {
      forall k | 0 <= k < |s[1..]| ensures s[1..][k] == 0.0 {
        assert s[1..][k] == s[k + 1];
      }
    }
    if s[0] == 0.0 && AllZero(s[1..]) {
      forall k | 0 <= k < |s| ensures s[k] == 0.0 {
        if k > 0 { assert s[k] == s[1..][k - 1]; }
      }
    }
  }

  /** The sum of squares is nonnegative and vanishes exactly on the zero vector. */
  lemma {:induction false} SumSqZeroIff(s: seq<real>)
    ensures SumSq(s) >= 0.0
    ensures SumSq(s) == 0.0 <==> AllZero(s)
  {
    if |s| > 0 {
      SumSqZeroIff(s[1..]);
      SqNonNegative(s[0]);
      SqZero(s[0]);
      AllZeroCons(s);
    }
  }

  /** Likewise for the sum of fourth powers. */
  lemma {:induction false} SumQuadZeroIff(s: seq<real>)
    ensures SumQuad(s) >= 0.0
    ensures SumQuad(s) == 0.0 <==> AllZero(s)
  {
    if |s| > 0 {
      SumQuadZeroIff(s[1..]);
      SqNonNegative(Sq(s[0]));
      SqZero(Sq(s[0]));
      SqZero(s[0]);
      AllZeroCons(s);
    }
  }

  /** A vector has no nonzero entry exactly when it is the zero vector. */
  lemma {:induction false} CountZeroIff(s: seq<real>)
    ensures CountNonzero(s) == 0 <==> AllZero(s)
  {
    if |s| > 0 {
      CountZeroIff(s[1..]);
      AllZeroCons(s);
    }
  }

  /**
   * (p + a)^2 = p^2 + 2 p a + a^2 bounds p^2 + b from above when a^2 >= b,
   * with equality exactly when p a = 0 and a^2 = b.
   */
  lemma SquareOfSumStep(p: real, a: real, b: real)
    requires p >= 0.0 && a >= 0.0 && Sq(a) >= b
    ensures Sq(p + a) >= Sq(p) + b
    ensures Sq(p + a) == Sq(p) + b <==> (p == 0.0 || a == 0.0) && Sq(a) == b
  {
    assert Sq(p + a) == Sq(p) + 2.0 * (p * a) + Sq(a);
    ProductNonNegative(p, a);
  }

  lemma ProductNonNegative(p: real, a: real)
    requires p >= 0.0 && a >= 0.0
    ensures p * a >= 0.0
    ensures p * a == 0.0 <==> p == 0.0 || a == 0.0
  {
    if p > 0.0 && a > 0.0 {
      assert p * a / p == a;
    }
  }

  /**
   * (sum s_k^2)^2 >= sum s_k^4, with equality exactly when at most one
   * entry is nonzero.
   */
  lemma {:induction false} SquareOfSumBound(s: seq<real>)
    ensures Sq(SumSq(s)) >= SumQuad(s)
    ensures Sq(SumSq(s)) == SumQuad(s) <==> CountNonzero(s) <= 1
  {
    if |s| > 0 {
      var rest := s[1..];
      SquareOfSumBound(rest);
      SumSqZeroIff(rest);
      CountZeroIff(rest);
      SumQuadZeroIff(rest);
      SqNonNegative(s[0]);
      SqZero(s[0]);
      SquareOfSumStep(Sq(s[0]), SumSq(rest), SumQuad(rest));
    }
  }

  lemma PurityBounds(s: seq<real>)
    requires SumSq(s) != 0.0
    ensures 0.0 < PurityRatio(s) <= 1.0
    ensures PurityRatio(s) == 1.0 <==> CountNonzero(s) == 1
  {
    SumSqZeroIff(s);
    SumQuadZeroIff(s);
    CountZeroIff(s);
    SquareOfSumBound(s);
    RatioAtMostOne(SumQuad(s), Sq(SumSq(s)));
  }

  lemma RatioAtMostOne(q: real, d: real)
    requires 0.0 < q <= d
    ensures 0.0 < q / d <= 1.0
    ensures q / d == 1.0 <==> q == d
  {
  }
}
