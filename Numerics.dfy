/**
 * The numerics the source takes from numpy, kept abstract, and the
 * sequence reductions (`max`, `min`, sums) it applies to real vectors.
 */
module Numerics {

  /**
   * numpy's transcendental functions (and pi) as uninterpreted values.
   * Nothing is known about them except what `Anchored` states.
   */
  datatype Transcendentals = Transcendentals(
    sqrt: real -> real,
    exp: real -> real,
    log: real -> real,
    cosh: real -> real,
    sinc: real -> real,
    pi: real)

  /** The only facts the model uses: exp(0) = cosh(0) = sinc(0) = 1. */
  predicate Anchored(t: Transcendentals) {
    t.exp(0.0) == 1.0 && t.cosh(0.0) == 1.0 && t.sinc(0.0) == 1.0
  }

  /** numpy.absolute on a real. */
  function Abs(x: real): real {
    if x < 0.0 then -x else x
  }

  /** The square of a real; facts about squares are stated on this term. */
  function Sq(x: real): real {
    x * x
  }

  lemma SqNonNegative(x: real)
    ensures Sq(x) >= 0.0
  {
  }

  /** A nonzero real has a positive square. */
  lemma SqPositive(x: real)
    requires x != 0.0
    ensures Sq(x) > 0.0
  {
    if x > 0.0 {
      assert Sq(x) / x == x;
    } else {
      assert Sq(x) == Sq(-x);
      assert Sq(-x) / (-x) == -x;
    }
  }

  lemma SqZero(x: real)
    ensures Sq(x) == 0.0 <==> x == 0.0
  {
    if x != 0.0 {
      SqPositive(x);
    }
  }

  /** The square of a quotient is the quotient of the squares. */
  lemma SqOfQuotient(x: real, n: real)
    requires n != 0.0
    ensures Sq(n) != 0.0 && Sq(x / n) == Sq(x) / Sq(n)
  {
    SqPositive(n);
    assert Sq(x / n) * Sq(n) == Sq(x);
  }

  /** Python's `max` / numpy's `np.max` over a non-empty vector. */
  function Max(s: seq<real>): (m: real)
    requires |s| > 0
    ensures m in s
    ensures forall k :: 0 <= k < |s| ==> s[k] <= m
  {
    if |s| == 1 then s[0]
    else
      var rest := Max(s[1..]);
      assert forall k :: 1 <= k < |s| ==> s[k] == s[1..][k - 1];
      if s[0] >= rest then s[0] else rest
  }

  /** Python's `min` / numpy's `np.min` over a non-empty vector. */
  function Min(s: seq<real>): (m: real)
    requires |s| > 0
    ensures m in s
    ensures forall k :: 0 <= k < |s| ==> m <= s[k]
  {
    if |s| == 1 then s[0]
    else
      var rest := Min(s[1..]);
      assert forall k :: 1 <= k < |s| ==> s[k] == s[1..][k - 1];
      if s[0] <= rest then s[0] else rest
  }

  /** The spread max - min of a non-empty vector is never negative. */
  lemma SpreadNonNegative(s: seq<real>)
    requires |s| > 0
    ensures Max(s) - Min(s) >= 0.0
  {
    assert Min(s) <= s[0] <= Max(s);
  }

  /** Every entry of `s` multiplied by `f` (numpy's array-times-scalar). */
  function Scale(s: seq<real>, f: real): (r: seq<real>)
    ensures |r| == |s|
    ensures forall k :: 0 <= k < |s| ==> r[k] == s[k] * f
  {
    seq(|s|, k requires 0 <= k < |s| => s[k] * f)
  }
}
