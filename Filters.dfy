/**
 * Spectral filters (Filters.py): transmission weights as functions of the
 * wavelength, and the dispatch from a filter-type name to a closure.
 */
module Filters {
  import opened Wrappers
  import opened Numerics

  /** The filter types offered to the user, in display order. */
  const FilterList: seq<string> := ["None", "Rectangular", "Gaussian"]

  /** Pass-through transmission: the arguments are ignored. */
  function NoFilter(wl: real, cwl: real, fwhm: real): real {
    1.0
  }

  /** The pass-through closure over a captured centre and width. */
  function NoFilterOnlyWl(cwl: real, fwhm: real): (f: real -> real)
    ensures forall wl :: f(wl) == NoFilter(wl, cwl, fwhm)
    ensures forall wl :: f(wl) == 1.0
  {
    wl => NoFilter(wl, cwl, fwhm)
  }

  /** Rectangular transmission: 0 when |cwl - wl| exceeds half the width, else 1. */
  function RectangularFilter(wl: real, cwl: real, fwhm: real): (r: real)
    ensures r == 0.0 || r == 1.0
    ensures r == 1.0 <==> cwl - fwhm / 2.0 <= wl <= cwl + fwhm / 2.0
  {
    if Abs(cwl - wl) > fwhm / 2.0 then 0.0 else 1.0
  }

  /** The rectangular transmission is symmetric about the centre wavelength. */
  lemma RectangularSymmetric(wl: real, cwl: real, fwhm: real)
    ensures RectangularFilter(wl, cwl, fwhm) == RectangularFilter(2.0 * cwl - wl, cwl, fwhm)
  {
    var r := RectangularFilter(wl, cwl, fwhm);
    var r' := RectangularFilter(2.0 * cwl - wl, cwl, fwhm);
    assert r == 1.0 <==> r' == 1.0;
  }

  /** Both band edges pass; just outside the band is blocked (1550 nm, 2 nm wide). */
  lemma RectangularEdges()
    ensures RectangularFilter(1551.0e-9, 1550.0e-9, 2.0e-9) == 1.0
    ensures RectangularFilter(1549.0e-9, 1550.0e-9, 2.0e-9) == 1.0
    ensures RectangularFilter(1551.01e-9, 1550.0e-9, 2.0e-9) == 0.0
  {
  }

  function RectangularFilterOnlyWl(cwl: real, fwhm: real): (f: real -> real)
    ensures forall wl :: f(wl) == RectangularFilter(wl, cwl, fwhm)
  {
    wl => RectangularFilter(wl, cwl, fwhm)
  }

  /** sqrt(2 ln 2), the ratio between a Gaussian's FWHM and twice its standard deviation. */
  function HalfWidthFactor(t: Transcendentals): real {
    t.sqrt(2.0 * t.log(2.0))
  }

  /** The square root and logarithm behave as such at 2 ln 2: sqrt(2 ln 2)^2 == 2 ln 2 != 0. */
  predicate ConsistentAtLn2(t: Transcendentals) {
    t.log(2.0) != 0.0 && HalfWidthFactor(t) * HalfWidthFactor(t) == 2.0 * t.log(2.0)
  }

  /**
   * The Gaussian filter width exactly as written, `fwhm/2*sqrt(2*log(2))`:
   * by operator precedence this is (fwhm / 2) * sqrt(2 ln 2).
   */
  function GaussianWidthAsWritten(t: Transcendentals, fwhm: real): real {
    fwhm / 2.0 * HalfWidthFactor(t)
  }

  /**
   * The standard deviation of a Gaussian with the given FWHM,
   * fwhm / (2 sqrt(2 ln 2)), as the pump envelope computes it.
   */
  function GaussianWidth(t: Transcendentals, fwhm: real): real
    requires HalfWidthFactor(t) != 0.0
  {
    fwhm / (2.0 * HalfWidthFactor(t))
  }

  /** The as-written width is the intended one multiplied by 2 ln 2 (about 1.386). */
  lemma GaussianWidthAsWrittenRatio(t: Transcendentals, fwhm: real)
    requires ConsistentAtLn2(t)
    ensures HalfWidthFactor(t) != 0.0
    ensures GaussianWidthAsWritten(t, fwhm) == GaussianWidth(t, fwhm) * (2.0 * t.log(2.0))
  {
    WidthRatio(fwhm, HalfWidthFactor(t));
  }

  lemma WidthRatio(f: real, r: real)
    requires r != 0.0
    ensures f / 2.0 * r == (f / (2.0 * r)) * (r * r)
  {
    assert (f / (2.0 * r)) * (2.0 * r) == f;
  }

  /**
   * The discrepancy on a concrete width: for a 2-unit FWHM and any
   * sqrt(2 ln 2) in (1.17, 1.18), the as-written width exceeds 1 while
   * the intended standard deviation is below 1.
   */
  lemma GaussianWidthDiscrepancy(t: Transcendentals)
    requires 1.17 < HalfWidthFactor(t) < 1.18
    ensures GaussianWidthAsWritten(t, 2.0) > 1.0
    ensures GaussianWidth(t, 2.0) < 1.0
    ensures GaussianWidthAsWritten(t, 2.0) != GaussianWidth(t, 2.0)
  {
    InverseBelowOne(HalfWidthFactor(t));
  }

  lemma InverseBelowOne(r: real)
    requires r > 1.0
    ensures 2.0 / (2.0 * r) < 1.0
  {
  }

  /**
   * Gaussian transmission exp(-(wl - cwl)^2 / (2 s^2)) for a width s, the
   * expression of `gaussianfilter` once s is computed. The source divides
   * by 2 s^2, so s must be nonzero.
   */
  function GaussianWithWidth(t: Transcendentals, wl: real, cwl: real, s: real): real
    requires s != 0.0
  {
    SqPositive(s);
    t.exp(-Sq(wl - cwl) / (2.0 * Sq(s)))
  }

  /** `gaussianfilter` exactly as written: the width is GaussianWidthAsWritten. */
  function GaussianFilterAsWritten(t: Transcendentals, wl: real, cwl: real, fwhm: real): real
    requires GaussianWidthAsWritten(t, fwhm) != 0.0
  {
    GaussianWithWidth(t, wl, cwl, GaussianWidthAsWritten(t, fwhm))
  }

  /** The Gaussian filter with the intended width, the standard deviation GaussianWidth. */
  function GaussianFilter(t: Transcendentals, wl: real, cwl: real, fwhm: real): real
    requires HalfWidthFactor(t) != 0.0 && GaussianWidth(t, fwhm) != 0.0
  {
    GaussianWithWidth(t, wl, cwl, GaussianWidth(t, fwhm))
  }

  /**
   * The intended width is a full width at half maximum: half the FWHM away
   * from the centre the exponent is -ln 2, so the transmission is exp(-ln 2) = 1/2.
   */
  lemma GaussianHalfMaximum(t: Transcendentals, cwl: real, fwhm: real)
    requires ConsistentAtLn2(t) && fwhm != 0.0
    ensures HalfWidthFactor(t) != 0.0 && GaussianWidth(t, fwhm) != 0.0
    ensures GaussianFilter(t, cwl + fwhm / 2.0, cwl, fwhm) == t.exp(-t.log(2.0))
    ensures GaussianFilter(t, cwl - fwhm / 2.0, cwl, fwhm) == t.exp(-t.log(2.0))
  {
    var r := HalfWidthFactor(t);
    HalfMaximumExponent(fwhm, r, t.log(2.0));
    GaussianAtOffset(t, fwhm / 2.0, cwl, GaussianWidth(t, fwhm), -t.log(2.0));
    GaussianAtOffset(t, -(fwhm / 2.0), cwl, GaussianWidth(t, fwhm), -t.log(2.0));
  }

  /** The transmission at cwl + d, once the exponent at offset d is known. */
  lemma GaussianAtOffset(t: Transcendentals, d: real, cwl: real, s: real, e: real)
    requires s != 0.0 && Sq(s) > 0.0
    requires Sq(-d) == Sq(d) && -Sq(d) / (2.0 * Sq(s)) == e
    ensures GaussianWithWidth(t, cwl + d, cwl, s) == t.exp(e)
  {
    assert cwl + d - cwl == d;
  }

  lemma HalfMaximumExponent(f: real, r: real, l: real)
    requires f != 0.0 && r * r == 2.0 * l && l != 0.0
    ensures r != 0.0 && f / (2.0 * r) != 0.0 && Sq(f / (2.0 * r)) > 0.0 && Sq(-(f / 2.0)) == Sq(f / 2.0)
    ensures -Sq(f / 2.0) / (2.0 * Sq(f / (2.0 * r))) == -l
  {
    assert r != 0.0;
    assert (f / (2.0 * r)) * (2.0 * r) == f;
    SqPositive(f / (2.0 * r));
    SqOfQuotient(f, 2.0 * r);
    SqOfQuotient(f, 2.0);
    assert Sq(2.0 * r) == 4.0 * (r * r);
  }

  /**
   * The filter as written is not at half maximum half the FWHM away from the
   * centre: there its exponent is -1 / (4 ln 2), not -ln 2.
   */
  lemma GaussianHalfWidthAsWritten(t: Transcendentals, cwl: real, fwhm: real)
    requires ConsistentAtLn2(t) && fwhm != 0.0
    ensures GaussianWidthAsWritten(t, fwhm) != 0.0
    ensures GaussianFilterAsWritten(t, cwl + fwhm / 2.0, cwl, fwhm) == t.exp(-1.0 / (4.0 * t.log(2.0)))
    ensures GaussianFilterAsWritten(t, cwl - fwhm / 2.0, cwl, fwhm) == t.exp(-1.0 / (4.0 * t.log(2.0)))
    ensures t.log(2.0) > 0.5 ==> -1.0 / (4.0 * t.log(2.0)) != -t.log(2.0)
  {
    var r := HalfWidthFactor(t);
    AsWrittenExponent(fwhm, r, t.log(2.0));
    var s := GaussianWidthAsWritten(t, fwhm);
    GaussianAtOffset(t, fwhm / 2.0, cwl, s, -1.0 / (4.0 * t.log(2.0)));
    GaussianAtOffset(t, -(fwhm / 2.0), cwl, s, -1.0 / (4.0 * t.log(2.0)));
  }

  lemma AsWrittenExponent(f: real, r: real, l: real)
    requires f != 0.0 && r * r == 2.0 * l && l != 0.0
    ensures f / 2.0 * r != 0.0 && Sq(f / 2.0 * r) > 0.0 && Sq(-(f / 2.0)) == Sq(f / 2.0)
    ensures -Sq(f / 2.0) / (2.0 * Sq(f / 2.0 * r)) == -1.0 / (4.0 * l)
    ensures l > 0.5 ==> -1.0 / (4.0 * l) != -l
  {
    assert r != 0.0;
    SqPositive(f / 2.0);
    SqPositive(f / 2.0 * r);
    assert Sq(f / 2.0 * r) == Sq(f / 2.0) * (r * r);
    assert 2.0 * Sq(f / 2.0 * r) == Sq(f / 2.0) * (4.0 * l);
    if l > 0.5 {
      assert 4.0 * l * l > 1.0;
    }
  }

  /**
   * Whatever the width, the Gaussian sees wl only through (wl - cwl)^2;
   * this holds for the filter as written and for the intended one alike.
   */
  lemma GaussianDependsOnOffsetSquared(t: Transcendentals, wl1: real, wl2: real, cwl: real, s: real)
    requires s != 0.0
    requires Sq(wl1 - cwl) == Sq(wl2 - cwl)
    ensures GaussianWithWidth(t, wl1, cwl, s) == GaussianWithWidth(t, wl2, cwl, s)
  {
  }

  /** Hence, for every width, it is symmetric about the centre wavelength. */
  lemma GaussianSymmetric(t: Transcendentals, wl: real, cwl: real, s: real)
    requires s != 0.0
    ensures GaussianWithWidth(t, wl, cwl, s) == GaussianWithWidth(t, 2.0 * cwl - wl, cwl, s)
  {
    assert 2.0 * cwl - wl - cwl == -(wl - cwl);
    assert Sq(-(wl - cwl)) == Sq(wl - cwl);
    GaussianDependsOnOffsetSquared(t, wl, 2.0 * cwl - wl, cwl, s);
  }

  /** For every width, two wavelengths mirrored about the centre see the same transmission. */
  lemma GaussianMirror(t: Transcendentals, wl1: real, wl2: real, cwl: real, s: real)
    requires s != 0.0
    requires wl1 - cwl == cwl - wl2
    ensures GaussianWithWidth(t, wl1, cwl, s) == GaussianWithWidth(t, wl2, cwl, s)
  {
    assert wl2 - cwl == -(wl1 - cwl);
    assert Sq(-(wl1 - cwl)) == Sq(wl1 - cwl);
    GaussianDependsOnOffsetSquared(t, wl1, wl2, cwl, s);
  }

  /** For every width, the transmission at the centre wavelength is exp(0), that is 1. */
  lemma GaussianPeak(t: Transcendentals, cwl: real, s: real)
    requires s != 0.0
    ensures GaussianWithWidth(t, cwl, cwl, s) == t.exp(0.0)
    ensures Anchored(t) ==> GaussianWithWidth(t, cwl, cwl, s) == 1.0
  {
    SqPositive(s);
    assert Sq(cwl - cwl) == 0.0;
    assert -Sq(cwl - cwl) / (2.0 * Sq(s)) == 0.0;
  }

  /**
   * The four shape facts for `gaussianfilter` exactly as written: symmetric,
   * mirrored, a function of the squared offset, and exp(0) at the centre.
   */
  lemma GaussianAsWrittenShape(t: Transcendentals, wl: real, wl': real, cwl: real, fwhm: real)
    requires GaussianWidthAsWritten(t, fwhm) != 0.0
    ensures GaussianFilterAsWritten(t, wl, cwl, fwhm) == GaussianFilterAsWritten(t, 2.0 * cwl - wl, cwl, fwhm)
    ensures wl - cwl == cwl - wl' ==> GaussianFilterAsWritten(t, wl, cwl, fwhm) == GaussianFilterAsWritten(t, wl', cwl, fwhm)
    ensures Sq(wl - cwl) == Sq(wl' - cwl) ==> GaussianFilterAsWritten(t, wl, cwl, fwhm) == GaussianFilterAsWritten(t, wl', cwl, fwhm)
    ensures GaussianFilterAsWritten(t, cwl, cwl, fwhm) == t.exp(0.0)
  {
    var s := GaussianWidthAsWritten(t, fwhm);
    GaussianSymmetric(t, wl, cwl, s);
    if wl - cwl == cwl - wl' {
      GaussianMirror(t, wl, wl', cwl, s);
    }
    GaussianPeak(t, cwl, s);
  }

  /** The closure `gaussianfilteronlywl` returns: gaussianfilter as written, cwl and fwhm captured. */
  function GaussianFilterOnlyWl(t: Transcendentals, cwl: real, fwhm: real): (f: real -> real)
    requires GaussianWidthAsWritten(t, fwhm) != 0.0
    ensures forall wl :: f(wl) == GaussianFilterAsWritten(t, wl, cwl, fwhm)
  {
    wl => GaussianFilterAsWritten(t, wl, cwl, fwhm)
  }

  /**
   * The filter closure for a type name: the exact, case-sensitive names
   * 'Rectangular' and 'Gaussian' give a closure; 'None' and every other
   * string give None (the latter by falling off the end of the if-chain).
   */
  function GetFilterFunction(t: Transcendentals, ftype: string, cwl: real, fwhm: real): (r: Option<real -> real>)
    requires ftype == "Gaussian" ==> GaussianWidthAsWritten(t, fwhm) != 0.0
    ensures r.Some? <==> ftype == "Rectangular" || ftype == "Gaussian"
    ensures ftype == "Rectangular" ==> r == Some(RectangularFilterOnlyWl(cwl, fwhm))
    ensures ftype == "Gaussian" ==> r == Some(GaussianFilterOnlyWl(t, cwl, fwhm))
  {
    if ftype == "None" then None
    else if ftype == "Rectangular" then Some(RectangularFilterOnlyWl(cwl, fwhm))
    else if ftype == "Gaussian" then Some(GaussianFilterOnlyWl(t, cwl, fwhm))
    else None
  }

  /** The offered list names exactly the three strings the dispatch tests. */
  lemma FilterListMatchesDispatch(t: Transcendentals, ftype: string, cwl: real, fwhm: real)
    requires ftype == "Gaussian" ==> GaussianWidthAsWritten(t, fwhm) != 0.0
    ensures |FilterList| == 3
    ensures ftype in FilterList <==> ftype == "None" || GetFilterFunction(t, ftype, cwl, fwhm).Some?
  {
  }

  /** Lower-case names, which the engine itself would accept, give no filter. */
  lemma DispatchIsCaseSensitive(t: Transcendentals, cwl: real, fwhm: real)
    ensures GetFilterFunction(t, "rectangular", cwl, fwhm) == None
    ensures GetFilterFunction(t, "gaussian", cwl, fwhm) == None
  {
  }
}
