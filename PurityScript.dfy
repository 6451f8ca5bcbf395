/**
 * The stand-alone purity script: the same phase-matching algebra as the
 * engine, with its own refractive-index fits, an idler-only rectangular
 * filter, a numpts-point wavelength grid around twice the pump wavelength
 * and one purity per pulse width of a sweep.
 *
 * Spectrum grids follow numpy.meshgrid(signalrange, idlerrange) as in
 * JsiAlgebra: cell [a][b] belongs to (signal signalrange[b], idler
 * idlerrange[a]).
 */
module PurityScript {
  import opened Wrappers
  import opened Numerics
  import RefractiveIndex
  import Filters
  import JsiAlgebra
  import Schmidt

  // ---------------------------------------------------------------------
  // Script settings
  // ---------------------------------------------------------------------

  /** The script's settings block: crystal, sweep, grid and switches. */
  datatype ScriptSettings = ScriptSettings(
    pwl: real,          // pump wavelength in m
    pp: real,           // poling period in m, before thermal scaling
    t: real,            // crystal temperature in C
    cl: real,           // crystal length in m, before thermal scaling
    tauFrom: real,      // first and last autocorrelator pulse width in s
    tauTo: real,
    numtau: nat,        // pulse widths in the sweep
    numpts: nat,        // grid points per wavelength axis
    wlrange: real,      // width of the wavelength window in nm
    usefilter: bool,
    includegauss: bool,
    includeintensity: bool)

  /** Poling period (m) and temperature (C) of each of the two characterised sources. */
  const PolingPeriods: seq<real> := [46.24657e-6, 46.24156e-6]
  const Temperatures: seq<real> := [23.7, 25.15]
  /** The source the script is set up for. */
  const Source: nat := 1

  /** The values the script ships with. */
  const Defaults: ScriptSettings := ScriptSettings(
    773.1e-9, PolingPeriods[Source - 1], Temperatures[Source - 1], 30.0e-3,
    0.1e-12, 5.0e-12, 100, 200, 8.0,
    false, true, false)

  /** The idler filter: centre wavelength and half bandwidth in m. */
  const FilterCentre: real := 1546.2e-9
  const FilterHalfBandwidth: real := 1.5e-9

  // ---------------------------------------------------------------------
  // Refractive indices
  // ---------------------------------------------------------------------

  /** The script's ny, wavelength in m: Koenig's Sellmeier term plus the quadratic temperature correction. */
  function Ny(tr: Transcendentals, lin: real, t: real): real
    requires RefractiveIndex.KoenigDefined(lin * 1000000.0)
  {
    var l := lin * 1000000.0;
    (t - 25.0) * RefractiveIndex.Horner3(RefractiveIndex.A1Y, l)
      + (t - 25.0) * (t - 25.0) * RefractiveIndex.Horner3(RefractiveIndex.A2Y, l)
      + RefractiveIndex.KoenigSellmeier(tr, l)
  }

  /** Where the script's nz Sellmeier term is defined (l in um). */
  predicate NzDefined(l: real) {
    l != 0.0 && 1.0 - 0.0514852 / (l * l) != 0.0 && 1.0 - 100.00507 / (l * l) != 0.0
  }

  /** The script's nz Sellmeier term f3 (l in um); its second pole constant is 100.00507. */
  function NzSellmeier(tr: Transcendentals, l: real): real
    requires NzDefined(l)
  {
    tr.sqrt(Abs(-0.00968956 * l * l + 1.18431 / (1.0 - 0.0514852 / (l * l)) + 0.6603 / (1.0 - 100.00507 / (l * l)) + 2.12725))
  }

  /** The script's nz, wavelength in m. */
  function Nz(tr: Transcendentals, lin: real, t: real): real
    requires NzDefined(lin * 1000000.0)
  {
    var l := lin * 1000000.0;
    (t - 25.0) * RefractiveIndex.Horner3(RefractiveIndex.A1Z, l)
      + (t - 25.0) * (t - 25.0) * RefractiveIndex.Horner3(RefractiveIndex.A2Z, l)
      + NzSellmeier(tr, l)
  }

  /**
   * At 25 C ny and nz are their Sellmeier terms f3, and the script's ny is
   * the refractive-index class's PPKTP ny at the same wavelength in um.
   */
  lemma ScriptIndices(tr: Transcendentals, lin: real, t: real)
    requires RefractiveIndex.KoenigDefined(lin * 1000000.0) && NzDefined(lin * 1000000.0)
    ensures Ny(tr, lin, 25.0) == RefractiveIndex.KoenigSellmeier(tr, lin * 1000000.0)
    ensures Nz(tr, lin, 25.0) == NzSellmeier(tr, lin * 1000000.0)
    ensures Ny(tr, lin, t) == RefractiveIndex.NyKoenigIndex(tr, lin * 1000000.0, t)
  {
    var l := lin * 1000000.0;
    RefractiveIndex.QuadraticCorrectionProperties(RefractiveIndex.Horner3(RefractiveIndex.A1Y, l), RefractiveIndex.Horner3(RefractiveIndex.A2Y, l), t);
  }

  /**
   * The script's nz pole term differs from the refractive-index class's
   * (100.005) at every wavelength where both are defined.
   */
  lemma NzPoleDiffers(l: real)
    requires NzDefined(l) && RefractiveIndex.FradkinDefined(l)
    ensures 0.6603 / (1.0 - 100.00507 / (l * l)) != 0.6603 / (1.0 - 100.005 / (l * l))
  {
    PoleTermsDiffer(l * l);
  }

  lemma PoleTermsDiffer(x: real)
    requires x != 0.0 && 1.0 - 100.00507 / x != 0.0 && 1.0 - 100.005 / x != 0.0
    ensures 0.6603 / (1.0 - 100.00507 / x) != 0.6603 / (1.0 - 100.005 / x)
  {
    var p, q := 1.0 - 100.00507 / x, 1.0 - 100.005 / x;
    if 0.6603 / p == 0.6603 / q {
      QuotientsCancel(0.6603, p, q);
      QuotientsCancel(x, 100.00507, 100.005);
    }
  }

  /** c / p == c / q forces p == q for nonzero c. */
  lemma QuotientsCancel(c: real, p: real, q: real)
    requires c != 0.0 && p != 0.0 && q != 0.0 && c / p == c / q
    ensures p == q
  {
    assert (c / p) * p == c && (c / q) * q == c;
    assert (c / p) * (p - q) == 0.0;
  }

  // ---------------------------------------------------------------------
  // The idler filter
  // ---------------------------------------------------------------------

  /** The active branch of filterfunction: a rectangle on the idler wavelength only. */
  function FilterFunction(ls: real, li: real): (r: real)
    ensures r == 0.0 || r == 1.0
    ensures r == 1.0 <==> FilterCentre - FilterHalfBandwidth <= li <= FilterCentre + FilterHalfBandwidth
  {
    if li < FilterCentre - FilterHalfBandwidth || li > FilterCentre + FilterHalfBandwidth then 0.0 else 1.0
  }

  /** The script's filter is the rectangular filter of width 3 nm at 1546.2 nm applied to the idler, whatever the signal. */
  lemma FilterFunctionIsIdlerRectangle(ls: real, li: real)
    ensures FilterFunction(ls, li) == Filters.RectangularFilter(li, FilterCentre, 2.0 * FilterHalfBandwidth)
  {
  }

  // ---------------------------------------------------------------------
  // Grids and the filter matrix
  // ---------------------------------------------------------------------

  /** numpy.linspace(lo, hi, n): n evenly spaced points from lo to hi inclusive. */
  function Linspace(lo: real, hi: real, n: nat): (g: seq<real>)
    ensures |g| == n
    ensures n >= 1 ==> g[0] == lo
    ensures n >= 2 ==> g[n - 1] == hi
  {
    if n == 1 then [lo]
    else
      var g := seq(n, k requires 0 <= k < n => lo + (k as real) * ((hi - lo) / ((n - 1) as real)));
      StepsSpan(hi - lo, (n - 1) as real);
      g
  }

  lemma StepsSpan(d: real, m: real)
    requires m != 0.0
    ensures m * (d / m) == d
  {
  }

  /** The signal and idler grid: numpts points across wlrange nm centred on twice the pump wavelength. */
  function WavelengthGrid(pwl: real, wlrange: real, numpts: nat): seq<real> {
    Linspace(2.0 * pwl - 0.5 * wlrange * 1.0e-9, 2.0 * pwl + 0.5 * wlrange * 1.0e-9, numpts)
  }

  /**
   * The grid has numpts points from 2 pwl - wlrange/2 nm to 2 pwl + wlrange/2
   * nm, rising for a positive window, and mirror points average to 2 pwl.
   */
  lemma WavelengthGridProperties(pwl: real, wlrange: real, numpts: nat)
    ensures |WavelengthGrid(pwl, wlrange, numpts)| == numpts
    ensures numpts >= 1 ==> WavelengthGrid(pwl, wlrange, numpts)[0] == 2.0 * pwl - 0.5 * wlrange * 1.0e-9
    ensures numpts >= 2 ==> WavelengthGrid(pwl, wlrange, numpts)[numpts - 1] == 2.0 * pwl + 0.5 * wlrange * 1.0e-9
    ensures numpts >= 2 && wlrange > 0.0 ==>
      forall k :: 0 <= k < numpts - 1 ==> WavelengthGrid(pwl, wlrange, numpts)[k] < WavelengthGrid(pwl, wlrange, numpts)[k + 1]
    ensures numpts >= 2 ==>
      forall k :: 0 <= k < numpts ==> WavelengthGrid(pwl, wlrange, numpts)[k] + WavelengthGrid(pwl, wlrange, numpts)[numpts - 1 - k] == 4.0 * pwl
  {
    if numpts >= 2 {
      var lo, hi := 2.0 * pwl - 0.5 * wlrange * 1.0e-9, 2.0 * pwl + 0.5 * wlrange * 1.0e-9;
      var g := WavelengthGrid(pwl, wlrange, numpts);
      var m := (numpts - 1) as real;
      var step := (hi - lo) / m;
      StepsSpan(hi - lo, m);
      forall k | 0 <= k < numpts
        ensures g[k] == lo + (k as real) * step
      {
      }
      if wlrange > 0.0 {
        assert step > 0.0 by {
          PositiveQuotient(hi - lo, m);
        }
        forall k | 0 <= k < numpts - 1
          ensures g[k] < g[k + 1]
        {
          assert ((k + 1) as real) * step == (k as real) * step + step;
        }
      }
      forall k | 0 <= k < numpts
        ensures g[k] + g[numpts - 1 - k] == 4.0 * pwl
      {
        assert (k as real) * step + ((numpts - 1 - k) as real) * step == m * step;
      }
    }
  }

  lemma PositiveQuotient(d: real, m: real)
    requires d > 0.0 && m > 0.0
    ensures d / m > 0.0
  {
  }

  /** The script's filter matrix: row i for signal signalrange[i], entry j for idler idlerrange[j]. */
  function ScriptFilterMatrix(sig: seq<real>, id: seq<real>): (fm: seq<seq<real>>)
    ensures JsiAlgebra.Shaped(fm, |sig|, |id|)
    ensures forall i, j :: 0 <= i < |sig| && 0 <= j < |id| ==> fm[i][j] == FilterFunction(sig[i], id[j])
  {
    seq(|sig|, i requires 0 <= i < |sig| => seq(|id|, j requires 0 <= j < |id| => FilterFunction(sig[i], id[j])))
  }

  /** The nested append loop that builds the filter matrix when usefilter is set. */
  method BuildFilterMatrix(signalrange: seq<real>, idlerrange: seq<real>) returns (filtermatrix: seq<seq<real>>)
    ensures JsiAlgebra.Shaped(filtermatrix, |signalrange|, |idlerrange|)
    ensures forall i, j :: 0 <= i < |signalrange| && 0 <= j < |idlerrange| ==>
      filtermatrix[i][j] == FilterFunction(signalrange[i], idlerrange[j])
    ensures filtermatrix == ScriptFilterMatrix(signalrange, idlerrange)
  {
    filtermatrix := [];
    var i := 0;
    while i < |signalrange|
      invariant 0 <= i <= |signalrange|
      invariant filtermatrix == ScriptFilterMatrix(signalrange[..i], idlerrange)
    {
      var filtervector: seq<real> := [];
      var j := 0;
      while j < |idlerrange|
        invariant 0 <= j <= |idlerrange|
        invariant |filtervector| == j
        invariant forall l :: 0 <= l < j ==> filtervector[l] == FilterFunction(signalrange[i], idlerrange[l])
      {
        filtervector := filtervector + [FilterFunction(signalrange[i], idlerrange[j])];
        j := j + 1;
      }
      ghost var next := ScriptFilterMatrix(signalrange[..i + 1], idlerrange);
      assert next[i] == filtervector;
      assert next[..i] == ScriptFilterMatrix(signalrange[..i], idlerrange);
      assert next == next[..i] + [next[i]];
      filtermatrix := filtermatrix + [filtervector];
      i := i + 1;
    }
    assert signalrange[..|signalrange|] == signalrange;
  }

  // ---------------------------------------------------------------------
  // Filtering a spectrum grid
  // ---------------------------------------------------------------------

  /**
   * `Z * filtermatrix` as the script writes it, for its square grids:
   * numpy's elementwise product, so cell [a][b] is weighted by
   * filtermatrix[a][b].
   */
  function ElementwiseAsWritten(z: seq<seq<real>>, fm: seq<seq<real>>): (r: seq<seq<real>>)
    requires JsiAlgebra.Shaped(z, |z|, |z|) && JsiAlgebra.Shaped(fm, |z|, |z|)
    ensures JsiAlgebra.Shaped(r, |z|, |z|)
  {
    seq(|z|, a requires 0 <= a < |z| => seq(|z|, b requires 0 <= b < |z| => z[a][b] * fm[a][b]))
  }

  /** The intended weighting: cell [a][b] (signal b, idler a) by filtermatrix[b][a]. */
  function MatchedFilter(z: seq<seq<real>>, fm: seq<seq<real>>): (r: seq<seq<real>>)
    requires JsiAlgebra.Shaped(z, |z|, |fm|) && JsiAlgebra.Shaped(fm, |fm|, |z|)
    ensures JsiAlgebra.Shaped(r, |z|, |fm|)
  {
    seq(|z|, a requires 0 <= a < |z| => seq(|fm|, b requires 0 <= b < |fm| => z[a][b] * fm[b][a]))
  }

  /** Matched filtering keeps a cell of the spectrum exactly when its idler wavelength is in the band. */
  lemma MatchedFilterWeighsIdler(sig: seq<real>, id: seq<real>, f: (real, real) -> real, a: nat, b: nat)
    requires a < |id| && b < |sig|
    ensures JsiAlgebra.Shaped(JsiAlgebra.Mesh(sig, id, f), |id|, |ScriptFilterMatrix(sig, id)|)
    ensures JsiAlgebra.Shaped(ScriptFilterMatrix(sig, id), |sig|, |JsiAlgebra.Mesh(sig, id, f)|)
    ensures MatchedFilter(JsiAlgebra.Mesh(sig, id, f), ScriptFilterMatrix(sig, id))[a][b]
         == f(sig[b], id[a]) * FilterFunction(sig[b], id[a])
  {
  }

  /**
   * The elementwise product on the script's square grid weights cell
   * [a][b] by the band test of grid[b], the cell's signal wavelength.
   */
  lemma ElementwiseWeighsSignal(grid: seq<real>, f: (real, real) -> real, a: nat, b: nat)
    requires a < |grid| && b < |grid|
    ensures JsiAlgebra.Shaped(JsiAlgebra.Mesh(grid, grid, f), |grid|, |grid|)
    ensures ElementwiseAsWritten(JsiAlgebra.Mesh(grid, grid, f), ScriptFilterMatrix(grid, grid))[a][b]
         == f(grid[b], grid[a]) * FilterFunction(grid[a], grid[b])
  {
  }

  /**
   * On the grid [1546.2 nm, 1556.2 nm] and a flat spectrum, the cell with
   * signal 1556.2 nm and idler 1546.2 nm lies in the idler band, yet the
   * elementwise product blocks it and passes the mirrored cell instead.
   */
  lemma FilterOnSignalAxis()
    ensures var grid := [FilterCentre, FilterCentre + 1.0e-8];
      var z := JsiAlgebra.Mesh(grid, grid, (ls: real, li: real) => 1.0);
      var fm := ScriptFilterMatrix(grid, grid);
      JsiAlgebra.Shaped(z, 2, 2)
      && ElementwiseAsWritten(z, fm)[0][1] == 0.0 && MatchedFilter(z, fm)[0][1] == 1.0
      && ElementwiseAsWritten(z, fm)[1][0] == 1.0 && MatchedFilter(z, fm)[1][0] == 0.0
  {
    var grid := [FilterCentre, FilterCentre + 1.0e-8];
    var fm := ScriptFilterMatrix(grid, grid);
    assert fm[0][1] == 0.0 && fm[1][0] == 1.0 && fm[0][0] == 1.0 && fm[1][1] == 0.0;
  }

  // ---------------------------------------------------------------------
  // The purity sweep
  // ---------------------------------------------------------------------

  /** The two pump shapes the script evaluates. */
  datatype PulseShape = SechSquared | Gaussian

  /**
   * JSAsech or JSAgauss at one grid cell: pulse shape, signal and idler
   * wavelength, autocorrelator pulse width, temperature, poling period and
   * crystal length in; the amplitude out.
   */
  type Amplitude = (PulseShape, real, real, real, real, real, real) -> real

  /** What one sweep point is computed from. */
  datatype Setup = Setup(
    amp: Amplitude,
    svd: seq<seq<real>> -> seq<real>,
    grid: seq<real>,    // signalrange and idlerrange, the same linspace
    t: real,
    pp: real,
    cl: real,
    usefilter: bool)

  /** The amplitude grid, or with intensity its square cell by cell (JSIsech, JSIgauss). */
  function Spectrum(s: Setup, shape: PulseShape, intensity: bool, tau: real): (z: seq<seq<real>>)
    ensures JsiAlgebra.Shaped(z, |s.grid|, |s.grid|)
  {
    JsiAlgebra.Mesh(s.grid, s.grid, (ls: real, li: real) =>
      if intensity then Sq(s.amp(shape, ls, li, tau, s.t, s.pp, s.cl)) else s.amp(shape, ls, li, tau, s.t, s.pp, s.cl))
  }

  /**
   * The purity of one spectrum: filtered when usefilter is set, by the
   * elementwise product with the filter matrix as the script writes it
   * (ElementwiseWeighsSignal says where that puts the band test), reduced to
   * its singular values, normalised and summed to the fourth power. It is
   * undefined (NaN) for an all-zero spectrum and otherwise in (0, 1].
   */
  function PurityAt(s: Setup, shape: PulseShape, intensity: bool, tau: real): (r: Option<real>)
    ensures r.Some? ==> 0.0 < r.value <= 1.0
  {
    var z := Spectrum(s, shape, intensity, tau);
    var fm := ScriptFilterMatrix(s.grid, s.grid);
    Schmidt.Purity(s.svd(if s.usefilter then ElementwiseAsWritten(z, fm) else z))
  }

  /** One spectrum of one sweep point: build the grid, filter it if asked, and reduce it to its purity. */
  method PurityPoint(s: Setup, shape: PulseShape, intensity: bool, tau: real, filtermatrix: seq<seq<real>>)
    returns (p: Option<real>)
    requires s.usefilter ==> filtermatrix == ScriptFilterMatrix(s.grid, s.grid)
    ensures p == PurityAt(s, shape, intensity, tau)
  {
    var z := Spectrum(s, shape, intensity, tau);
    if s.usefilter {
      z := ElementwiseAsWritten(z, filtermatrix);
    }
    var sv := s.svd(z);
    p := Schmidt.Purity(sv);
  }

  /** The purities of a sweep: one per pulse width, in order. */
  function SweepPurities(s: Setup, shape: PulseShape, intensity: bool, taurange: seq<real>): (r: seq<Option<real>>)
    ensures |r| == |taurange|
    ensures forall k :: 0 <= k < |taurange| ==> r[k] == PurityAt(s, shape, intensity, taurange[k])
  {
    seq(|taurange|, k requires 0 <= k < |taurange| => PurityAt(s, shape, intensity, taurange[k]))
  }

  /**
   * The sweep loop: for each pulse width one sech^2 amplitude purity, and
   * with the flags the intensity and Gaussian purities, each list in
   * taurange order.
   */
  method PuritySweep(s: Setup, includegauss: bool, includeintensity: bool, taurange: seq<real>, filtermatrix: seq<seq<real>>)
    returns (purityA: seq<Option<real>>, purityI: seq<Option<real>>, purityAg: seq<Option<real>>, purityIg: seq<Option<real>>)
    requires s.usefilter ==> filtermatrix == ScriptFilterMatrix(s.grid, s.grid)
    ensures purityA == SweepPurities(s, SechSquared, false, taurange)
    ensures purityI == if includeintensity then SweepPurities(s, SechSquared, true, taurange) else []
    ensures purityAg == if includegauss then SweepPurities(s, Gaussian, false, taurange) else []
    ensures purityIg == if includegauss && includeintensity then SweepPurities(s, Gaussian, true, taurange) else []
  {
    purityA, purityI, purityAg, purityIg := [], [], [], [];
    var i := 0;
    while i < |taurange|
      invariant 0 <= i <= |taurange|
      invariant purityA == SweepPurities(s, SechSquared, false, taurange[..i])
      invariant purityI == if includeintensity then SweepPurities(s, SechSquared, true, taurange[..i]) else []
      invariant purityAg == if includegauss then SweepPurities(s, Gaussian, false, taurange[..i]) else []
      invariant purityIg == if includegauss && includeintensity then SweepPurities(s, Gaussian, true, taurange[..i]) else []
    {
      var tau := taurange[i];
      var p := PurityPoint(s, SechSquared, false, tau, filtermatrix);
      purityA := purityA + [p];
      if includeintensity {
        p := PurityPoint(s, SechSquared, true, tau, filtermatrix);
        purityI := purityI + [p];
      }
      if includegauss {
        p := PurityPoint(s, Gaussian, false, tau, filtermatrix);
        purityAg := purityAg + [p];
        if includeintensity {
          p := PurityPoint(s, Gaussian, true, tau, filtermatrix);
          purityIg := purityIg + [p];
        }
      }
      SweepPuritiesSnoc(s, taurange, i);
      i := i + 1;
    }
    assert taurange[..|taurange|] == taurange;
  }

  /** Extending the swept prefix by one pulse width appends that width's purity, for every spectrum kind. */
  lemma SweepPuritiesSnoc(s: Setup, taurange: seq<real>, i: nat)
    requires i < |taurange|
    ensures forall shape: PulseShape, intensity: bool {:trigger SweepPurities(s, shape, intensity, taurange[..i + 1])} ::
      SweepPurities(s, shape, intensity, taurange[..i + 1])
        == SweepPurities(s, shape, intensity, taurange[..i]) + [PurityAt(s, shape, intensity, taurange[i])]
  {
  }

  // ---------------------------------------------------------------------
  // The script
  // ---------------------------------------------------------------------

  /** What the script leaves behind: the scaled crystal, its grids, the filter matrix and the purity lists. */
  datatype Outcome = Outcome(
    pp: real,
    cl: real,
    taurange: seq<real>,
    signalrange: seq<real>,
    idlerrange: seq<real>,
    filtermatrix: seq<seq<real>>,
    purityA: seq<Option<real>>,
    purityI: seq<Option<real>>,
    purityAg: seq<Option<real>>,
    purityIg: seq<Option<real>>)

  /** The sweep setup the script's outcome was computed from. */
  function SetupOf(cfg: ScriptSettings, amp: Amplitude, svd: seq<seq<real>> -> seq<real>, o: Outcome): Setup {
    Setup(amp, svd, o.signalrange, cfg.t, o.pp, o.cl, cfg.usefilter)
  }

  /**
   * The script from the thermal scaling to the end of the sweep. Poling
   * period and crystal length are scaled once by the thermal-expansion
   * factor of the crystal temperature; both wavelength axes are the same
   * numpts-point grid; the filter matrix is built only with usefilter; and
   * every purity list has one entry per pulse width, computed with the
   * scaled crystal.
   */
  method RunScript(cfg: ScriptSettings, amp: Amplitude, svd: seq<seq<real>> -> seq<real>) returns (o: Outcome)
    ensures o.pp == cfg.pp * RefractiveIndex.ThermExpFactor(cfg.t)
    ensures o.cl == cfg.cl * RefractiveIndex.ThermExpFactor(cfg.t)
    ensures o.taurange == Linspace(cfg.tauFrom, cfg.tauTo, cfg.numtau)
    ensures o.signalrange == WavelengthGrid(cfg.pwl, cfg.wlrange, cfg.numpts) && o.idlerrange == o.signalrange
    ensures o.filtermatrix == if cfg.usefilter then ScriptFilterMatrix(o.signalrange, o.idlerrange) else []
    ensures o.purityA == SweepPurities(SetupOf(cfg, amp, svd, o), SechSquared, false, o.taurange)
    ensures o.purityI == if cfg.includeintensity then SweepPurities(SetupOf(cfg, amp, svd, o), SechSquared, true, o.taurange) else []
    ensures o.purityAg == if cfg.includegauss then SweepPurities(SetupOf(cfg, amp, svd, o), Gaussian, false, o.taurange) else []
    ensures o.purityIg == if cfg.includegauss && cfg.includeintensity then SweepPurities(SetupOf(cfg, amp, svd, o), Gaussian, true, o.taurange) else []
  {
    var pp, cl := cfg.pp, cfg.cl;
    pp := pp * RefractiveIndex.ThermExpFactor(cfg.t);
    cl := cl * RefractiveIndex.ThermExpFactor(cfg.t);
    var taurange := Linspace(cfg.tauFrom, cfg.tauTo, cfg.numtau);
    var signalrange := WavelengthGrid(cfg.pwl, cfg.wlrange, cfg.numpts);
    var idlerrange := WavelengthGrid(cfg.pwl, cfg.wlrange, cfg.numpts);
    var filtermatrix: seq<seq<real>> := [];
    if cfg.usefilter {
      filtermatrix := BuildFilterMatrix(signalrange, idlerrange);
    }
    var s := Setup(amp, svd, signalrange, cfg.t, pp, cl, cfg.usefilter);
    var purityA, purityI, purityAg, purityIg := PuritySweep(s, cfg.includegauss, cfg.includeintensity, taurange, filtermatrix);
    o := Outcome(pp, cl, taurange, signalrange, idlerrange, filtermatrix, purityA, purityI, purityAg, purityIg);
  }

  // ---------------------------------------------------------------------
  // Energy conservation and thermal expansion in the script
  // ---------------------------------------------------------------------

  /** For positive signal and idler wavelengths lambdap is defined, below both, and satisfies econv exactly. */
  lemma ScriptEnergyConservation(ls: real, li: real)
    requires ls > 0.0 && li > 0.0
    ensures 1.0 / ls + 1.0 / li != 0.0
    ensures 0.0 < JsiAlgebra.LambdaP(ls, li) < ls && JsiAlgebra.LambdaP(ls, li) < li
    ensures JsiAlgebra.Econv(JsiAlgebra.LambdaP(ls, li), ls, li) == 0.0
  {
    JsiAlgebra.LambdaPBelowBoth(ls, li);
    JsiAlgebra.EconvAtLambdaP(ls, li);
  }

  /**
   * The shipped source (1, at 23.7 C) shrinks the crystal, source 2 at
   * 25.15 C stretches it, and 25 C leaves it alone.
   */
  lemma ScriptThermExpFactor()
    ensures Defaults.t == Temperatures[0] == 23.7
    ensures RefractiveIndex.ThermExpFactor(Temperatures[0]) < 1.0
    ensures RefractiveIndex.ThermExpFactor(Temperatures[1]) > 1.0
    ensures RefractiveIndex.ThermExpFactor(25.0) == 1.0
  {
  }
}
