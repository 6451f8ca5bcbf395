/**
 * The exact algebra of the joint-spectrum engine (JSI.py): energy
 * conservation, the pump envelopes at their peak, the pump-shape names, the
 * built-in rectangular filter, the filter weighting of a spectrum grid and
 * the post-processing of a Hong-Ou-Mandel (HOM) dip.
 *
 * Spectrum grids follow numpy.meshgrid(signalrange, idlerrange): the row
 * index runs over the idler wavelengths and the column index over the
 * signal wavelengths, so cell [a][b] belongs to (signal sig[b], idler id[a]).
 */
module JsiAlgebra {
  import opened Wrappers
  import opened Numerics
  import Text
  import Filters

  /** Constants.c, the speed of light in m/s. */
  const SpeedOfLight: real := 299792458.0

  // ---------------------------------------------------------------------
  // Energy conservation
  // ---------------------------------------------------------------------

  /** econv: 1/lp - 1/ls - 1/li, zero when the pump photon's energy is shared exactly. */
  function Econv(lp: real, ls: real, li: real): real
    requires lp != 0.0 && ls != 0.0 && li != 0.0
  {
    1.0 / lp - 1.0 / ls - 1.0 / li
  }

  /** The pump wavelength required by energy conservation, 1 / (1/ls + 1/li). */
  function LambdaP(ls: real, li: real): (r: real)
    requires ls != 0.0 && li != 0.0 && 1.0 / ls + 1.0 / li != 0.0
    ensures r != 0.0
  {
    1.0 / (1.0 / ls + 1.0 / li)
  }

  lemma Reciprocal(x: real)
    requires x != 0.0
    ensures 1.0 / x != 0.0 && 1.0 / (1.0 / x) == x
  {
  }

  lemma ReciprocalIff(p: real, x: real)
    requires p != 0.0 && x != 0.0
    ensures 1.0 / p == x <==> p == 1.0 / x
  {
    Reciprocal(x);
    Reciprocal(p);
  }

  /** econv vanishes at the pump wavelength lambdap computes. */
  lemma EconvAtLambdaP(ls: real, li: real)
    requires ls != 0.0 && li != 0.0 && 1.0 / ls + 1.0 / li != 0.0
    ensures Econv(LambdaP(ls, li), ls, li) == 0.0
  {
    Reciprocal(1.0 / ls + 1.0 / li);
  }

  /** ... and only there: lambdap is the unique zero of econv in lp. */
  lemma EconvZeroIff(lp: real, ls: real, li: real)
    requires lp != 0.0 && ls != 0.0 && li != 0.0 && 1.0 / ls + 1.0 / li != 0.0
    ensures Econv(lp, ls, li) == 0.0 <==> lp == LambdaP(ls, li)
  {
    ReciprocalIff(lp, 1.0 / ls + 1.0 / li);
  }

  /** Degenerate down-conversion: equal signal and idler wavelengths x need a pump at x/2. */
  lemma LambdaPDegenerate(x: real)
    requires x != 0.0
    ensures 1.0 / x + 1.0 / x != 0.0
    ensures LambdaP(x, x) == x / 2.0
  {
    assert 1.0 / x + 1.0 / x == 2.0 / x;
    assert (x / 2.0) * (2.0 / x) == 1.0;
  }

  /** lambdap does not depend on which photon is called the signal. */
  lemma LambdaPSymmetric(ls: real, li: real)
    requires ls != 0.0 && li != 0.0 && 1.0 / ls + 1.0 / li != 0.0
    ensures 1.0 / li + 1.0 / ls != 0.0
    ensures LambdaP(ls, li) == LambdaP(li, ls)
  {
  }

  /** For positive wavelengths the pump is bluer than both down-converted photons. */
  lemma LambdaPBelowBoth(ls: real, li: real)
    requires ls > 0.0 && li > 0.0
    ensures 1.0 / ls + 1.0 / li != 0.0
    ensures 0.0 < LambdaP(ls, li) < ls && LambdaP(ls, li) < li
  {
    var s := 1.0 / ls + 1.0 / li;
    assert 1.0 / ls > 0.0 && 1.0 / li > 0.0;
    ReciprocalBelow(1.0 / ls, s);
    ReciprocalBelow(1.0 / li, s);
    Reciprocal(ls);
    Reciprocal(li);
  }

  lemma ReciprocalBelow(a: real, b: real)
    requires 0.0 < a < b
    ensures 0.0 < 1.0 / b < 1.0 / a
  {
    assert (1.0 / b) * b == 1.0;
    assert (1.0 / a) * a == 1.0;
  }

  // ---------------------------------------------------------------------
  // Pump envelopes
  // ---------------------------------------------------------------------

  /** The frequency mismatch 1/ls + 1/li - 1/lp that every pump envelope is a function of. */
  function Detuning(lp: real, ls: real, li: real): real
    requires lp != 0.0 && ls != 0.0 && li != 0.0
  {
    1.0 / ls + 1.0 / li - 1.0 / lp
  }

  /** PEAgauss: exp(-(pi c dl / sp)^2). */
  function PeaGauss(t: Transcendentals, lp: real, ls: real, li: real, sp: real): real
    requires lp != 0.0 && ls != 0.0 && li != 0.0 && sp != 0.0
  {
    t.exp(-Sq(t.pi * SpeedOfLight * Detuning(lp, ls, li) / sp))
  }

  /** The argument wfact * B = 2 pi c dl B shared by PEAsech and PEAsinc. */
  function EnvelopeArgument(t: Transcendentals, lp: real, ls: real, li: real, b: real): real
    requires lp != 0.0 && ls != 0.0 && li != 0.0
  {
    2.0 * t.pi * SpeedOfLight * Detuning(lp, ls, li) * b
  }

  /** PEAsech: 1 / cosh(2 pi c dl B). */
  function PeaSech(t: Transcendentals, lp: real, ls: real, li: real, b: real): real
    requires lp != 0.0 && ls != 0.0 && li != 0.0
    requires t.cosh(EnvelopeArgument(t, lp, ls, li, b)) != 0.0
  {
    1.0 / t.cosh(EnvelopeArgument(t, lp, ls, li, b))
  }

  /** PEAsinc: np.sinc(2 pi c dl B). */
  function PeaSinc(t: Transcendentals, lp: real, ls: real, li: real, b: real): real
    requires lp != 0.0 && ls != 0.0 && li != 0.0
  {
    t.sinc(EnvelopeArgument(t, lp, ls, li, b))
  }

  /**
   * When the pump wavelength is the energy-conserving one, every pump
   * envelope takes its peak value: exactly 1 given exp(0) = cosh(0) = sinc(0) = 1.
   */
  lemma EnvelopesPeakAtEnergyConservation(t: Transcendentals, ls: real, li: real, sp: real, b: real)
    requires Anchored(t)
    requires ls != 0.0 && li != 0.0 && 1.0 / ls + 1.0 / li != 0.0 && sp != 0.0
    ensures Detuning(LambdaP(ls, li), ls, li) == 0.0
    ensures PeaGauss(t, LambdaP(ls, li), ls, li, sp) == 1.0
    ensures EnvelopeArgument(t, LambdaP(ls, li), ls, li, b) == 0.0
    ensures PeaSech(t, LambdaP(ls, li), ls, li, b) == 1.0
    ensures PeaSinc(t, LambdaP(ls, li), ls, li, b) == 1.0
  {
    var lp := LambdaP(ls, li);
    EconvAtLambdaP(ls, li);
    assert Detuning(lp, ls, li) == -Econv(lp, ls, li);
    assert t.pi * SpeedOfLight * 0.0 / sp == 0.0;
    assert -Sq(0.0) == 0.0;
  }

  // ---------------------------------------------------------------------
  // Pump-shape names
  // ---------------------------------------------------------------------

  datatype PumpShape = Gaussian | Sech | Sinc

  /**
   * The dispatch of getplots and getpurity_vsTau: 'gaussian' or 'sinc'
   * after case folding, and sech^2 for every other name.
   */
  function ShapeWithSechDefault(name: string): PumpShape {
    var folded := Text.Casefold(name);
    if folded == "gaussian" then Gaussian
    else if folded == "sinc" then Sinc
    else Sech
  }

  /**
   * The dispatch of getpurity_vsL and getFWHMvstau: exactly 'gaussian',
   * 'sech^2' or 'sinc' after case folding; no shape for any other name.
   */
  function StrictShape(name: string): Option<PumpShape> {
    var folded := Text.Casefold(name);
    if folded == "gaussian" then Some(Gaussian)
    else if folded == "sech^2" then Some(Sech)
    else if folded == "sinc" then Some(Sinc)
    else None
  }

  /** The two dispatches agree on every name the strict one accepts; the lenient one sends the rest to sech^2. */
  lemma ShapeDispatchesAgree(name: string)
    ensures StrictShape(name).Some? ==> ShapeWithSechDefault(name) == StrictShape(name).value
    ensures StrictShape(name).None? ==> ShapeWithSechDefault(name) == Sech
    ensures ShapeWithSechDefault(name) != Sech ==> StrictShape(name) == Some(ShapeWithSechDefault(name))
  {
  }

  /** The selector's 'Gaussian' (as well as 'gaussian') names the Gaussian pump. */
  lemma GaussianNameResolves()
    ensures ShapeWithSechDefault("Gaussian") == Gaussian && StrictShape("Gaussian") == Some(Gaussian)
  {
    Text.CasefoldCapitalised("Gaussian");
    assert [('G' as int + 32) as char] + "aussian" == "gaussian";
  }

  /** The selector's 'Sech^2' names the sech^2 pump in both dispatches. */
  lemma SechNameResolves()
    ensures ShapeWithSechDefault("Sech^2") == Sech && StrictShape("Sech^2") == Some(Sech)
  {
    Text.CasefoldCapitalised("Sech^2");
    assert [('S' as int + 32) as char] + "ech^2" == "sech^2";
  }

  /** 'Sinc' names the sinc pump in both dispatches. */
  lemma SincNameResolves()
    ensures ShapeWithSechDefault("Sinc") == Sinc && StrictShape("Sinc") == Some(Sinc)
  {
    Text.CasefoldCapitalised("Sinc");
    assert [('S' as int + 32) as char] + "inc" == "sinc";
  }

  /** 'sech' without the square is sech^2 for the lenient dispatch and no shape for the strict one. */
  lemma BareSechName()
    ensures ShapeWithSechDefault("sech") == Sech && StrictShape("sech") == None
  {
    Text.CasefoldLowerAscii("sech");
  }

  // ---------------------------------------------------------------------
  // The built-in rectangular filter
  // ---------------------------------------------------------------------

  /** Centre lc and half bandwidth bwh of filterfunction, in metres. */
  const FilterCentre: real := 1546.2e-9
  const FilterHalfBandwidth: real := 1.5e-9

  /** filterfunction: the active branch filters the signal only. */
  function FilterFunction(ls: real, li: real): real {
    if ls < FilterCentre - FilterHalfBandwidth || ls > FilterCentre + FilterHalfBandwidth then 0.0 else 1.0
  }

  /**
   * filterfunction transmits exactly on the closed band lc - bwh <= ls <= lc + bwh,
   * ignores the idler, and is the rectangular filter of width 2 bwh around lc.
   */
  lemma FilterFunctionSignalOnly(ls: real, li: real, li2: real)
    ensures FilterFunction(ls, li) == 0.0 || FilterFunction(ls, li) == 1.0
    ensures FilterFunction(ls, li) == 1.0 <==> FilterCentre - FilterHalfBandwidth <= ls <= FilterCentre + FilterHalfBandwidth
    ensures FilterFunction(ls, li) == FilterFunction(ls, li2)
    ensures FilterFunction(ls, li) == Filters.RectangularFilter(ls, FilterCentre, 2.0 * FilterHalfBandwidth)
  {
  }

  // ---------------------------------------------------------------------
  // Complex grid cells and the filter weighting
  // ---------------------------------------------------------------------

  /** A complex number; the phase-matching amplitude carries exp(i dk L / 2). */
  datatype Complex = Complex(re: real, im: real)

  function CMul(a: Complex, b: Complex): Complex {
    Complex(a.re * b.re - a.im * b.im, a.re * b.im + a.im * b.re)
  }

  /** A complex number times a real weight. */
  function Weighted(z: Complex, w: real): Complex {
    Complex(z.re * w, z.im * w)
  }

  lemma WeightedCompose(z: Complex, v: real, w: real)
    ensures Weighted(Weighted(z, v), w) == Weighted(z, v * w)
  {
  }

  predicate Shaped<T>(g: seq<seq<T>>, rows: nat, cols: nat) {
    |g| == rows && forall a :: 0 <= a < rows ==> |g[a]| == cols
  }

  /** f evaluated on numpy.meshgrid(sig, id): row a is idler id[a], column b is signal sig[b]. */
  function Mesh<T>(sig: seq<real>, id: seq<real>, f: (real, real) -> T): (g: seq<seq<T>>)
    ensures Shaped(g, |id|, |sig|)
    ensures forall a, b :: 0 <= a < |id| && 0 <= b < |sig| ==> g[a][b] == f(sig[b], id[a])
  {
    seq(|id|, a requires 0 <= a < |id| => seq(|sig|, b requires 0 <= b < |sig| => f(sig[b], id[a])))
  }

  /** What a filter slot transmits at wl: the filter's value, and full transmission for no filter. */
  function Transmission(f: Option<real -> real>, wl: real): real {
    if f.None? then 1.0 else f.value(wl)
  }

  /** The intended weight of the cell at signal ls and idler li. */
  function FilterWeight(ls: real, li: real, sf: Option<real -> real>, idf: Option<real -> real>): real {
    Transmission(sf, ls) * Transmission(idf, li)
  }

  /**
   * The filter matrix as the nested loop of getplots builds it: one row per
   * signal wavelength, one entry per idler wavelength, with None read as
   * "no filter" (see FilterMatrixAsWritten for the code as written).
   */
  function FilterMatrix(sig: seq<real>, id: seq<real>, sf: Option<real -> real>, idf: Option<real -> real>): seq<seq<real>> {
    seq(|sig|, i requires 0 <= i < |sig| =>
      seq(|id|, j requires 0 <= j < |id| => Transmission(idf, id[j]) * Transmission(sf, sig[i])))
  }

  /** The matrix has len(signalrange) rows of len(idlerrange) entries, entry [i][j] the weight of (sig[i], id[j]). */
  lemma FilterMatrixEntries(sig: seq<real>, id: seq<real>, sf: Option<real -> real>, idf: Option<real -> real>)
    ensures Shaped(FilterMatrix(sig, id, sf, idf), |sig|, |id|)
    ensures forall i, j :: 0 <= i < |sig| && 0 <= j < |id| ==>
      FilterMatrix(sig, id, sf, idf)[i][j] == FilterWeight(sig[i], id[j], sf, idf)
  {
  }

  /**
   * The filter matrix applied to a meshgrid spectrum: the signal-major
   * matrix is read transposed, so that cell (signal b, idler a) is weighted
   * by fm[b][a].
   */
  function ApplyFilterMatrix(js: seq<seq<Complex>>, fm: seq<seq<real>>): (r: seq<seq<Complex>>)
    requires |js| > 0 ==> Shaped(js, |js|, |fm|)
    requires Shaped(fm, |fm|, |js|)
    ensures Shaped(r, |js|, |fm|)
  {
    seq(|js|, a requires 0 <= a < |js| =>
      seq(|fm|, b requires 0 <= b < |fm| => Weighted(js[a][b], fm[b][a])))
  }

  /** Filtering a meshgrid spectrum weights every cell with the filters at its own signal and idler wavelength. */
  lemma FilteredMesh(sig: seq<real>, id: seq<real>, f: (real, real) -> Complex, sf: Option<real -> real>, idf: Option<real -> real>)
    ensures |Mesh(sig, id, f)| > 0 ==> Shaped(Mesh(sig, id, f), |Mesh(sig, id, f)|, |FilterMatrix(sig, id, sf, idf)|)
    ensures Shaped(FilterMatrix(sig, id, sf, idf), |FilterMatrix(sig, id, sf, idf)|, |Mesh(sig, id, f)|)
    ensures Shaped(ApplyFilterMatrix(Mesh(sig, id, f), FilterMatrix(sig, id, sf, idf)), |id|, |sig|)
    ensures forall a, b :: 0 <= a < |id| && 0 <= b < |sig| ==>
      ApplyFilterMatrix(Mesh(sig, id, f), FilterMatrix(sig, id, sf, idf))[a][b]
        == Weighted(f(sig[b], id[a]), FilterWeight(sig[b], id[a], sf, idf))
  {
    FilterMatrixEntries(sig, id, sf, idf);
  }

  /** With both slots empty the weighting changes nothing. */
  lemma NoFiltersWeightOne(ls: real, li: real)
    ensures FilterWeight(ls, li, None, None) == 1.0
  {
  }

  /** One empty slot: the weight is the other filter's transmission alone. */
  lemma OneFilterWeight(ls: real, li: real, f: real -> real)
    ensures FilterWeight(ls, li, Some(f), None) == f(ls)
    ensures FilterWeight(ls, li, None, Some(f)) == f(li)
  {
  }

  // ---------------------------------------------------------------------
  // The filter blocks as written
  // ---------------------------------------------------------------------

  /**
   * getplots' loop as written: it calls both slots, so a None slot raises
   * TypeError as soon as there is a cell to fill.
   */
  function FilterMatrixAsWritten(sig: seq<real>, id: seq<real>, sf: Option<real -> real>, idf: Option<real -> real>): Result<seq<seq<real>>> {
    if |sig| > 0 && |id| > 0 && (sf.None? || idf.None?) then Failure(TypeError)
    else Success(FilterMatrix(sig, id, sf, idf))
  }

  /**
   * The loop as written fails exactly when one slot is empty and there is
   * a cell, and otherwise builds the intended matrix.
   */
  lemma FilterMatrixAsWrittenRaises(sig: seq<real>, id: seq<real>, sf: Option<real -> real>, idf: Option<real -> real>)
    requires sf.Some? || idf.Some?
    ensures FilterMatrixAsWritten(sig, id, sf, idf).Failure? <==>
      |sig| > 0 && |id| > 0 && (sf.None? || idf.None?)
    ensures FilterMatrixAsWritten(sig, id, sf, idf).Failure? ==> FilterMatrixAsWritten(sig, id, sf, idf).error == TypeError
    ensures FilterMatrixAsWritten(sig, id, sf, idf).Success? ==>
      FilterMatrixAsWritten(sig, id, sf, idf).value == FilterMatrix(sig, id, sf, idf)
  {
  }

  /** A signal filter alone, the selection 'None' for the idler, on one-point grids. */
  lemma SignalFilterAloneRaises()
    ensures FilterMatrixAsWritten([1550.0e-9], [1550.0e-9], Some(Filters.RectangularFilterOnlyWl(1550.0e-9, 2.0e-9)), None)
         == Failure(TypeError)
    ensures FilterMatrix([1550.0e-9], [1550.0e-9], Some(Filters.RectangularFilterOnlyWl(1550.0e-9, 2.0e-9)), None)
         == [[1.0]]
  {
    var f := Filters.RectangularFilterOnlyWl(1550.0e-9, 2.0e-9);
    assert f(1550.0e-9) == 1.0;
    var fm := FilterMatrix([1550.0e-9], [1550.0e-9], Some(f), None);
    assert fm[0][0] == Transmission(None, 1550.0e-9) * f(1550.0e-9) == 1.0;
    assert fm[0] == [1.0];
  }

  predicate Square<T>(g: seq<seq<T>>) {
    Shaped(g, |g|, |g|)
  }

  /** `JS * filtermatrix` in getplots for square grids: numpy's elementwise product, no transposition. */
  function ApplyElementwiseAsWritten(js: seq<seq<Complex>>, fm: seq<seq<real>>): (r: seq<seq<Complex>>)
    requires Square(js) && Shaped(fm, |js|, |js|)
    ensures Shaped(r, |js|, |js|)
  {
    seq(|js|, a requires 0 <= a < |js| =>
      seq(|js|, b requires 0 <= b < |js| => Weighted(js[a][b], fm[a][b])))
  }

  /** The matrix getpurity_vsTau builds: the idler filter at sig[i] times the signal filter at id[j]. */
  function FilterMatrixVsTauAsWritten(sig: seq<real>, id: seq<real>, sf: real -> real, idf: real -> real): seq<seq<real>> {
    seq(|sig|, i requires 0 <= i < |sig| =>
      seq(|id|, j requires 0 <= j < |id| => idf(sig[i]) * sf(id[j])))
  }

  /**
   * getpurity_vsL appends the row vector after the row loop, so only the
   * last row (built from sig[-1]) survives and numpy broadcasts it over
   * every row of the spectrum.
   */
  function FilterRowVsLAsWritten(sig: seq<real>, id: seq<real>, sf: real -> real, idf: real -> real): seq<real>
    requires |sig| > 0
  {
    seq(|id|, j requires 0 <= j < |id| => idf(sig[|sig| - 1]) * sf(id[j]))
  }

  function ApplyRowAsWritten(js: seq<seq<Complex>>, row: seq<real>): (r: seq<seq<Complex>>)
    requires |js| > 0 ==> Shaped(js, |js|, |row|)
    ensures |js| > 0 ==> Shaped(r, |js|, |row|)
  {
    seq(|js|, a requires 0 <= a < |js| =>
      seq(|row|, b requires 0 <= b < |row| => Weighted(js[a][b], row[b])))
  }

  /**
   * The misweighting example: a flat spectrum on sig = [1, 2], id = [3, 4],
   * a signal filter that passes only 1 and an idler filter that passes
   * everything.
   */
  const DemoSig: seq<real> := [1.0, 2.0]
  const DemoId: seq<real> := [3.0, 4.0]
  const DemoSignalFilter: real -> real := (x: real) => if x == 1.0 then 1.0 else 0.0
  const DemoIdlerFilter: real -> real := (x: real) => 1.0

  function DemoSpectrum(): (js: seq<seq<Complex>>)
    ensures Square(js) && |js| == 2
    ensures forall a, b :: 0 <= a < 2 && 0 <= b < 2 ==> js[a][b] == Complex(1.0, 0.0)
  {
    Mesh(DemoSig, DemoId, (ls: real, li: real) => Complex(1.0, 0.0))
  }

  function DemoFilterMatrix(): (fm: seq<seq<real>>)
    ensures Shaped(fm, 2, 2)
    ensures fm[0][0] == 1.0 && fm[0][1] == 1.0 && fm[1][0] == 0.0 && fm[1][1] == 0.0
  {
    FilterMatrixEntries(DemoSig, DemoId, Some(DemoSignalFilter), Some(DemoIdlerFilter));
    FilterMatrix(DemoSig, DemoId, Some(DemoSignalFilter), Some(DemoIdlerFilter))
  }

  /** The intended weighting keeps column 0 (signal 1) and blocks column 1 (signal 2). */
  lemma DemoIntended()
    ensures ApplyFilterMatrix(DemoSpectrum(), DemoFilterMatrix())[0][0] == Complex(1.0, 0.0)
    ensures ApplyFilterMatrix(DemoSpectrum(), DemoFilterMatrix())[0][1] == Complex(0.0, 0.0)
  {
  }

  /** getplots' elementwise product keeps cell [0][1], whose signal 2 the filter blocks. */
  lemma DemoGetplots()
    ensures ApplyElementwiseAsWritten(DemoSpectrum(), DemoFilterMatrix())[0][1] == Complex(1.0, 0.0)
  {
  }

  /** getpurity_vsTau's matrix blocks cell [0][0], whose signal 1 the filter passes. */
  lemma DemoVsTau()
    ensures Shaped(FilterMatrixVsTauAsWritten(DemoSig, DemoId, DemoSignalFilter, DemoIdlerFilter), 2, 2)
    ensures ApplyElementwiseAsWritten(DemoSpectrum(), FilterMatrixVsTauAsWritten(DemoSig, DemoId, DemoSignalFilter, DemoIdlerFilter))[0][0]
         == Complex(0.0, 0.0)
  {
    var tw := FilterMatrixVsTauAsWritten(DemoSig, DemoId, DemoSignalFilter, DemoIdlerFilter);
    assert tw[0][0] == DemoIdlerFilter(1.0) * DemoSignalFilter(3.0) == 0.0;
  }

  /** getpurity_vsL's surviving row (built from signal 2) blocks cell [0][0] as well. */
  lemma DemoVsL()
    ensures |FilterRowVsLAsWritten(DemoSig, DemoId, DemoSignalFilter, DemoIdlerFilter)| == 2
    ensures ApplyRowAsWritten(DemoSpectrum(), FilterRowVsLAsWritten(DemoSig, DemoId, DemoSignalFilter, DemoIdlerFilter))[0][0]
         == Complex(0.0, 0.0)
  {
    var row := FilterRowVsLAsWritten(DemoSig, DemoId, DemoSignalFilter, DemoIdlerFilter);
    assert row[0] == DemoIdlerFilter(2.0) * DemoSignalFilter(3.0) == 0.0;
  }

  /**
   * Filtering the example spectrum: the intended result keeps column 0
   * (signal 1) and blocks column 1. getplots keeps row 0 instead,
   * getpurity_vsTau blocks everything, and getpurity_vsL's single surviving
   * row (signal 2) blocks everything.
   */
  lemma FilterBlocksMisweight()
    ensures ApplyFilterMatrix(DemoSpectrum(), DemoFilterMatrix())[0][0] == Complex(1.0, 0.0)
    ensures ApplyFilterMatrix(DemoSpectrum(), DemoFilterMatrix())[0][1] == Complex(0.0, 0.0)
    ensures ApplyElementwiseAsWritten(DemoSpectrum(), DemoFilterMatrix())[0][1] == Complex(1.0, 0.0)
    ensures Shaped(FilterMatrixVsTauAsWritten(DemoSig, DemoId, DemoSignalFilter, DemoIdlerFilter), 2, 2)
    ensures ApplyElementwiseAsWritten(DemoSpectrum(), FilterMatrixVsTauAsWritten(DemoSig, DemoId, DemoSignalFilter, DemoIdlerFilter))[0][0]
         == Complex(0.0, 0.0)
    ensures ApplyRowAsWritten(DemoSpectrum(), FilterRowVsLAsWritten(DemoSig, DemoId, DemoSignalFilter, DemoIdlerFilter))[0][0]
         == Complex(0.0, 0.0)
  {
    DemoIntended();
    DemoGetplots();
    DemoVsTau();
    DemoVsL();
  }

  /** getplots' elementwise product pairs each cell with the filters at the transposed wavelengths. */
  lemma ElementwiseAsWrittenTransposes(sig: seq<real>, id: seq<real>, js: seq<seq<Complex>>, sf: real -> real, idf: real -> real, a: nat, b: nat)
    requires |sig| == |id| && Shaped(js, |id|, |sig|) && a < |id| && b < |sig|
    ensures Shaped(FilterMatrix(sig, id, Some(sf), Some(idf)), |js|, |js|)
    ensures ApplyElementwiseAsWritten(js, FilterMatrix(sig, id, Some(sf), Some(idf)))[a][b]
         == Weighted(js[a][b], sf(sig[a]) * idf(id[b]))
  {
    FilterMatrixEntries(sig, id, Some(sf), Some(idf));
  }

  // ---------------------------------------------------------------------
  // HOM dip post-processing
  // ---------------------------------------------------------------------

  /** HOMI = 0.5 - 0.5 |homf / norm| entry by entry. */
  function HomNormalize(overlaps: seq<real>, norm: real): (r: seq<real>)
    requires norm != 0.0
    ensures |r| == |overlaps|
  {
    seq(|overlaps|, k requires 0 <= k < |overlaps| => 0.5 - 0.5 * Abs(overlaps[k] / norm))
  }

  lemma AbsQuotient(m: real, n: real)
    requires n != 0.0
    ensures Abs(n) > 0.0
    ensures Abs(m / n) == Abs(m) / Abs(n)
  {
    if n < 0.0 {
      assert m / n == -(m / -n);
    }
    if m < 0.0 {
      assert m / Abs(n) == -((-m) / Abs(n));
    }
  }

  lemma QuotientAtMostOne(p: real, q: real)
    requires p >= 0.0 && q > 0.0
    ensures p / q >= 0.0
    ensures p / q <= 1.0 <==> p <= q
    ensures p / q == 0.0 <==> p == 0.0
    ensures p / q == 1.0 <==> p == q
  {
    assert (p / q) * q == p;
  }

  /**
   * Each normalised HOM value is at most 1/2, equals 1/2 exactly where the
   * overlap vanishes, and is nonnegative exactly where the overlap is no
   * larger in magnitude than the norm.
   */
  lemma HomNormalizeBounds(overlaps: seq<real>, norm: real, k: nat)
    requires norm != 0.0 && k < |overlaps|
    ensures HomNormalize(overlaps, norm)[k] <= 0.5
    ensures HomNormalize(overlaps, norm)[k] == 0.5 <==> overlaps[k] == 0.0
    ensures HomNormalize(overlaps, norm)[k] >= 0.0 <==> Abs(overlaps[k]) <= Abs(norm)
  {
    AbsQuotient(overlaps[k], norm);
    QuotientAtMostOne(Abs(overlaps[k]), Abs(norm));
  }

  /** vis = |(max - min) / max|, None where numpy divides by a zero maximum (NaN or inf). */
  function Visibility(h: seq<real>): Option<real>
    requires |h| > 0
  {
    if Max(h) == 0.0 then None else Some(SpreadRatio(Max(h), Min(h)))
  }

  function SpreadRatio(top: real, bottom: real): real
    requires top != 0.0
  {
    Abs((top - bottom) / top)
  }

  lemma SpreadRatioBounds(top: real, bottom: real)
    requires 0.0 <= bottom <= top && top > 0.0
    ensures 0.0 <= SpreadRatio(top, bottom) <= 1.0
    ensures SpreadRatio(top, bottom) == 0.0 <==> top == bottom
    ensures SpreadRatio(top, bottom) == 1.0 <==> bottom == 0.0
  {
    QuotientAtMostOne(top - bottom, top);
  }

  /**
   * For a dip curve with no negative value and a positive maximum the
   * visibility lies in [0, 1]; it is 0 exactly for a flat curve and 1
   * exactly when the curve touches zero.
   */
  lemma VisibilityBounds(h: seq<real>)
    requires |h| > 0 && Max(h) > 0.0
    requires forall k :: 0 <= k < |h| ==> h[k] >= 0.0
    ensures Visibility(h).Some?
    ensures 0.0 <= Visibility(h).value <= 1.0
    ensures Visibility(h).value == 0.0 <==> Max(h) == Min(h)
    ensures Visibility(h).value == 1.0 <==> Min(h) == 0.0
  {
    var top, bottom := Max(h), Min(h);
    var k :| 0 <= k < |h| && h[k] == bottom;
    assert 0.0 <= bottom <= top;
    SpreadRatioBounds(top, bottom);
  }

  /** The first floor(n/2) entries: the negative-delay half. */
  function NegativeHalf<T>(s: seq<T>): seq<T> {
    s[..|s| / 2]
  }

  /** The remaining entries: the positive-delay half. */
  function PositiveHalf<T>(s: seq<T>): seq<T> {
    s[|s| / 2..]
  }

  /** The halves concatenate back to the whole, and the positive half is at most one longer. */
  lemma HalvesRejoin<T>(s: seq<T>)
    ensures NegativeHalf(s) + PositiveHalf(s) == s
    ensures |NegativeHalf(s)| == |s| / 2
    ensures |PositiveHalf(s)| - |NegativeHalf(s)| == |s| % 2
  {
  }

  /** Every entry moved by c (`HOMI - 0.25`). */
  function Offset(s: seq<real>, c: real): (r: seq<real>)
    ensures |r| == |s|
    ensures forall k :: 0 <= k < |s| ==> r[k] == s[k] + c
  {
    seq(|s|, k requires 0 <= k < |s| => s[k] + c)
  }

  /**
   * The HOM dip width: for each half, the root of the linear interpolation
   * of HOMI - 1/4, started at the half's middle delay; the width is the
   * positive root minus the negative one. interp1d needs two points per
   * half, so fewer than four delays raise ValueError. `root(xs, ys, x0)`
   * stands for fsolve on interp1d(xs, ys) from x0.
   */
  function HomWidth(delays: seq<real>, homi: seq<real>, root: (seq<real>, seq<real>, real) -> real): (r: Result<real>)
    requires |delays| == |homi|
    ensures r.Failure? <==> |delays| < 4
    ensures r.Failure? ==> r.error == ValueError
  {
    if |delays| < 4 then Failure(ValueError)
    else
      var neg, pos := NegativeHalf(delays), PositiveHalf(delays);
      Success(root(pos, Offset(PositiveHalf(homi), -0.25), pos[|pos| / 2])
            - root(neg, Offset(NegativeHalf(homi), -0.25), neg[|neg| / 2]))
  }

  /**
   * The two root searches start at delay index floor(n/4) and
   * floor(n/2) + floor((n - floor(n/2))/2) of the whole delay axis.
   */
  lemma HomWidthSeeds(delays: seq<real>)
    requires |delays| >= 4
    ensures NegativeHalf(delays)[|NegativeHalf(delays)| / 2] == delays[|delays| / 2 / 2]
    ensures PositiveHalf(delays)[|PositiveHalf(delays)| / 2] == delays[|delays| / 2 + (|delays| - |delays| / 2) / 2]
  {
  }
}
