/**
 * The bookkeeping of the JSI class (JSI.py): the fields its methods
 * overwrite, the nested loop that builds the filter matrix, the purity
 * sweeps, the warm-started crossing-point sweeps, the HOM result
 * collection and the FWHM post-processing.
 *
 * The numerics are parameters. `Physics` gives the pump envelope and the
 * phase-matching amplitude at one (signal, idler) point; singular values,
 * fsolve and the "rounds to zero" test are functions passed in.
 */
module JsiEngine {
  import opened Wrappers
  import opened Numerics
  import Schmidt
  import Text
  import RefractiveIndex
  import opened JsiAlgebra

  /** The pump settings an envelope depends on. */
  datatype Pulse = Pulse(shape: PumpShape, pwl: real, tau: real, usetaucf: bool)

  /** The crystal settings the phase matching depends on: temperature, poling period, length, QPM order. */
  datatype Crystal = Crystal(temp: real, pp: real, length: real, order: int)

  /**
   * envelope(pulse, ls, li): PEAgauss / PEAsech / PEAsinc with the width
   * derived from tau; matching(crystal, ls, li): PMA(deltak(...), L).
   */
  datatype Physics = Physics(envelope: (Pulse, real, real) -> real, matching: (Crystal, real, real) -> Complex)

  /** The joint spectral amplitude at one point: pea * pma. */
  function JsaCell(ph: Physics, pulse: Pulse, crystal: Crystal, ls: real, li: real): Complex {
    Weighted(ph.matching(crystal, ls, li), ph.envelope(pulse, ls, li))
  }

  /** The joint spectrum of getplots: the amplitude, or its square (numpy's `** 2`) for the JSI. */
  function JsCell(ph: Physics, pulse: Pulse, crystal: Crystal, intensity: bool, ls: real, li: real): Complex {
    var jsa := JsaCell(ph, pulse, crystal, ls, li);
    if intensity then CMul(jsa, jsa) else jsa
  }

  function PeCell(ph: Physics, pulse: Pulse, intensity: bool, ls: real, li: real): real {
    var pea := ph.envelope(pulse, ls, li);
    if intensity then Sq(pea) else pea
  }

  function PmCell(ph: Physics, crystal: Crystal, intensity: bool, ls: real, li: real): Complex {
    var pma := ph.matching(crystal, ls, li);
    if intensity then CMul(pma, pma) else pma
  }

  /** [PE, PM, JS] as getplots returns them. */
  datatype Spectra = Spectra(pe: seq<seq<real>>, pm: seq<seq<Complex>>, js: seq<seq<Complex>>)

  function JsaGrid(ph: Physics, pulse: Pulse, crystal: Crystal, sig: seq<real>, id: seq<real>): seq<seq<Complex>> {
    Mesh(sig, id, (ls: real, li: real) => JsaCell(ph, pulse, crystal, ls, li))
  }

  /**
   * getplots' result: the three meshgrid spectra, with the joint spectrum
   * multiplied by the filter matrix when a filter is given.
   */
  function Plots(ph: Physics, pulse: Pulse, crystal: Crystal, intensity: bool, sig: seq<real>, id: seq<real>,
                 sf: Option<real -> real>, idf: Option<real -> real>): Spectra
  {
    var u := Unfiltered(ph, pulse, crystal, intensity, sig, id);
    if sf.None? && idf.None? then u
    else Spectra(u.pe, u.pm, ApplyFilterMatrix(u.js, FilterMatrix(sig, id, sf, idf)))
  }

  /** The three meshgrid spectra before filtering. */
  function Unfiltered(ph: Physics, pulse: Pulse, crystal: Crystal, intensity: bool, sig: seq<real>, id: seq<real>): (u: Spectra)
    ensures Shaped(u.js, |id|, |sig|)
  {
    Spectra(Mesh(sig, id, (ls: real, li: real) => PeCell(ph, pulse, intensity, ls, li)),
            Mesh(sig, id, (ls: real, li: real) => PmCell(ph, crystal, intensity, ls, li)),
            Mesh(sig, id, (ls: real, li: real) => JsCell(ph, pulse, crystal, intensity, ls, li)))
  }

  /** The amplitude grid one purity sweep point decomposes, filtered when the filter block applies. */
  function SweepSpectrum(ph: Physics, pulse: Pulse, crystal: Crystal, sig: seq<real>, id: seq<real>,
                         filtered: bool, sf: Option<real -> real>, idf: Option<real -> real>): seq<seq<Complex>>
  {
    var jsa := JsaGrid(ph, pulse, crystal, sig, id);
    if filtered then ApplyFilterMatrix(jsa, FilterMatrix(sig, id, sf, idf)) else jsa
  }

  // ---------------------------------------------------------------------
  // The loops
  // ---------------------------------------------------------------------

  /** The nested append loop of getplots: one filter vector per signal wavelength. */
  method BuildFilterMatrix(sig: seq<real>, id: seq<real>, sf: Option<real -> real>, idf: Option<real -> real>)
    returns (fm: seq<seq<real>>)
    ensures Shaped(fm, |sig|, |id|)
    ensures forall i, j :: 0 <= i < |sig| && 0 <= j < |id| ==> fm[i][j] == FilterWeight(sig[i], id[j], sf, idf)
    ensures fm == FilterMatrix(sig, id, sf, idf)
  {
    fm := [];
    var i := 0;
    while i < |sig|
      invariant 0 <= i <= |sig|
      invariant |fm| == i
      invariant forall k :: 0 <= k < i ==> fm[k] == FilterMatrix(sig, id, sf, idf)[k]
    {
      var filtervector: seq<real> := [];
      var j := 0;
      while j < |id|
        invariant 0 <= j <= |id|
        invariant |filtervector| == j
        invariant forall l :: 0 <= l < j ==> filtervector[l] == Transmission(idf, id[l]) * Transmission(sf, sig[i])
      {
        var filterval := Transmission(idf, id[j]) * Transmission(sf, sig[i]);
        filtervector := filtervector + [filterval];
        j := j + 1;
      }
      ghost var row := FilterMatrix(sig, id, sf, idf)[i];
      assert |row| == |id|;
      assert forall l :: 0 <= l < |id| ==> row[l] == filtervector[l];
      fm := fm + [filtervector];
      i := i + 1;
    }
    FilterMatrixEntries(sig, id, sf, idf);
  }

  /**
   * The purity loop of getpurity_vsTau / getpurity_vsL: one value per sweep
   * point, in sweep order, from the singular values at that point.
   */
  method PuritySweep(points: seq<real>, singular: real -> seq<real>) returns (purity: seq<Option<real>>)
    ensures |purity| == |points|
    ensures forall k :: 0 <= k < |points| ==> purity[k] == Schmidt.Purity(singular(points[k]))
  {
    purity := [];
    var i := 0;
    while i < |points|
      invariant 0 <= i <= |points|
      invariant |purity| == i
      invariant forall k :: 0 <= k < i ==> purity[k] == Schmidt.Purity(singular(points[k]))
    {
      var sA := singular(points[i]);
      purity := purity + [Schmidt.Purity(sA)];
      i := i + 1;
    }
  }

  /** The purity loop of getpurity_vsTau: the shape, pump and crystal fixed, one pulse width per point. */
  method PurityVsTauSweep(ph: Physics, shape: PumpShape, pumpwl: real, taurange: seq<real>, taucf: bool, crystal: Crystal,
                          sig: seq<real>, id: seq<real>, filtered: bool, sf: Option<real -> real>, idf: Option<real -> real>,
                          svd: seq<seq<Complex>> -> seq<real>)
    returns (purity: seq<Option<real>>)
    ensures |purity| == |taurange|
    ensures forall k :: 0 <= k < |taurange| ==>
      purity[k] == Schmidt.Purity(svd(SweepSpectrum(ph, Pulse(shape, pumpwl, taurange[k], taucf), crystal, sig, id, filtered, sf, idf)))
  {
    purity := PuritySweep(taurange, (x: real) =>
      svd(SweepSpectrum(ph, Pulse(shape, pumpwl, x, taucf), crystal, sig, id, filtered, sf, idf)));
  }

  /** The purity loop of getpurity_vsL: the pulse and the rest of the crystal fixed, one length per point. */
  method PurityVsLSweep(ph: Physics, pulse: Pulse, temp: real, pp: real, lrange: seq<real>, order: int,
                        sig: seq<real>, id: seq<real>, filtered: bool, sf: Option<real -> real>, idf: Option<real -> real>,
                        svd: seq<seq<Complex>> -> seq<real>)
    returns (purity: seq<Option<real>>)
    ensures |purity| == |lrange|
    ensures forall k :: 0 <= k < |lrange| ==>
      purity[k] == Schmidt.Purity(svd(SweepSpectrum(ph, pulse, Crystal(temp, pp, lrange[k], order), sig, id, filtered, sf, idf)))
  {
    purity := PuritySweep(lrange, (x: real) =>
      svd(SweepSpectrum(ph, pulse, Crystal(temp, pp, x, order), sig, id, filtered, sf, idf)));
  }

  /** Which argument of wlgaponlyT the crossing-point sweep varies; the other is fixed. */
  datatype Sweep = PumpWavelengths(pp: real) | PolingPeriods(pwl: real)

  /** fsolve(wlgaponlyT(pwl, PP), guess) for the sweep point; `solve` stands for the root search. */
  function SolveAt(solve: (real, real, real) -> real, sweep: Sweep, point: real, guess: real): real {
    match sweep
    case PumpWavelengths(pp) => solve(point, pp, guess)
    case PolingPeriods(pwl) => solve(pwl, point, guess)
  }

  /**
   * The crossing-point loop of getTcpVslp / getTcpVsPP: point 0 is seeded
   * with the start temperature and every later point with its predecessor's result.
   */
  method WarmStartSweep(points: seq<real>, seed: real, solve: (real, real, real) -> real, sweep: Sweep)
    returns (tcp: seq<real>)
    ensures |tcp| == |points|
    ensures |points| > 0 ==> tcp[0] == SolveAt(solve, sweep, points[0], seed)
    ensures forall j :: 1 <= j < |points| ==> tcp[j] == SolveAt(solve, sweep, points[j], tcp[j - 1])
  {
    tcp := [];
    var tguess := seed;
    var j := 0;
    while j < |points|
      invariant 0 <= j <= |points|
      invariant |tcp| == j
      invariant j == 0 ==> tguess == seed
      invariant j > 0 ==> tcp[0] == SolveAt(solve, sweep, points[0], seed)
      invariant forall k :: 1 <= k < j ==> tcp[k] == SolveAt(solve, sweep, points[k], tcp[k - 1])
    {
      if j > 0 {
        tguess := tcp[j - 1];
      }
      var tmp := SolveAt(solve, sweep, points[j], tguess);
      tcp := tcp + [tmp];
      j := j + 1;
    }
  }

  /**
   * The thread pool of getHOMinterference: tasks finish in any order
   * (`finishOrder`, which names every task at least once), each result is
   * stored with its future, and the futures are read back in submission
   * order, so result k is task k's.
   */
  method RunPool(n: nat, task: nat -> real, finishOrder: seq<nat>) returns (results: seq<real>)
    requires forall x :: x in finishOrder ==> x < n
    requires forall k :: 0 <= k < n ==> k in finishOrder
    ensures |results| == n
    ensures forall k :: 0 <= k < n ==> results[k] == task(k)
  {
    var futures := new real[n];
    var t := 0;
    while t < |finishOrder|
      invariant 0 <= t <= |finishOrder|
      invariant futures.Length == n
      invariant forall q :: 0 <= q < t ==> finishOrder[q] < n && futures[finishOrder[q]] == task(finishOrder[q])
    {
      var done := finishOrder[t];
      assert done in finishOrder;
      futures[done] := task(done);
      t := t + 1;
    }
    forall k | 0 <= k < n
      ensures futures[k] == task(k)
    {
      assert k in finishOrder;
      var q :| 0 <= q < |finishOrder| && finishOrder[q] == k;
    }
    results := futures[..];
  }

  // ---------------------------------------------------------------------
  // FWHM post-processing
  // ---------------------------------------------------------------------

  /** The cells (i, j) of row i with zero(i, j), in ascending j. */
  function RowHits(i: nat, cols: nat, zero: (nat, nat) -> bool): seq<(nat, nat)> {
    if cols == 0 then [] else RowHits(i, cols - 1, zero) + (if zero(i, cols - 1) then [(i, cols - 1)] else [])
  }

  /** np.where(result == 0) on a rows x cols grid: the zero cells in row-major order. */
  function Hits(rows: nat, cols: nat, zero: (nat, nat) -> bool): seq<(nat, nat)> {
    if rows == 0 then [] else Hits(rows - 1, cols, zero) + RowHits(rows - 1, cols, zero)
  }

  lemma {:induction false} RowHitsMembership(i: nat, cols: nat, zero: (nat, nat) -> bool, c: (nat, nat))
    ensures c in RowHits(i, cols, zero) <==> c.0 == i && c.1 < cols && zero(c.0, c.1)
  {
    if cols > 0 {
      RowHitsMembership(i, cols - 1, zero, c);
      MemberOfConcat(c, RowHits(i, cols - 1, zero), if zero(i, cols - 1) then [(i, cols - 1)] else []);
    }
  }

  lemma MemberOfConcat<T>(c: T, a: seq<T>, b: seq<T>)
    ensures c in a + b <==> c in a || c in b
  {
  }

  /** Every listed cell lies in the grid and rounds to zero. */
  lemma {:induction false} HitsSound(rows: nat, cols: nat, zero: (nat, nat) -> bool, c: (nat, nat))
    requires c in Hits(rows, cols, zero)
    ensures c.0 < rows && c.1 < cols && zero(c.0, c.1)
  {
    var earlier, last := Hits(rows - 1, cols, zero), RowHits(rows - 1, cols, zero);
    MemberOfConcat(c, earlier, last);
    if c in earlier {
      HitsSound(rows - 1, cols, zero, c);
    } else {
      RowHitsMembership(rows - 1, cols, zero, c);
    }
  }

  /** Every cell of the grid that rounds to zero is listed. */
  lemma {:induction false} HitsComplete(rows: nat, cols: nat, zero: (nat, nat) -> bool, c: (nat, nat))
    requires c.0 < rows && c.1 < cols && zero(c.0, c.1)
    ensures c in Hits(rows, cols, zero)
  {
    var earlier, last := Hits(rows - 1, cols, zero), RowHits(rows - 1, cols, zero);
    MemberOfConcat(c, earlier, last);
    if c.0 < rows - 1 {
      HitsComplete(rows - 1, cols, zero, c);
    } else {
      RowHitsMembership(rows - 1, cols, zero, c);
    }
  }

  /** A cell is listed exactly when it lies in the grid and rounds to zero. */
  lemma HitsMembership(rows: nat, cols: nat, zero: (nat, nat) -> bool, c: (nat, nat))
    ensures c in Hits(rows, cols, zero) <==> c.0 < rows && c.1 < cols && zero(c.0, c.1)
  {
    if c in Hits(rows, cols, zero) {
      HitsSound(rows, cols, zero, c);
    }
    if c.0 < rows && c.1 < cols && zero(c.0, c.1) {
      HitsComplete(rows, cols, zero, c);
    }
  }

  lemma HitsInRange(rows: nat, cols: nat, zero: (nat, nat) -> bool)
    ensures forall k :: 0 <= k < |Hits(rows, cols, zero)| ==>
      Hits(rows, cols, zero)[k].0 < rows && Hits(rows, cols, zero)[k].1 < cols
  {
    forall k | 0 <= k < |Hits(rows, cols, zero)|
      ensures Hits(rows, cols, zero)[k].0 < rows && Hits(rows, cols, zero)[k].1 < cols
    {
      HitsMembership(rows, cols, zero, Hits(rows, cols, zero)[k]);
    }
  }

  /** hmptss: the signal wavelength of every listed cell, in nm. */
  function SignalNm(sig: seq<real>, hits: seq<(nat, nat)>): (r: seq<real>)
    requires forall k :: 0 <= k < |hits| ==> hits[k].0 < |sig|
    ensures |r| == |hits|
  {
    seq(|hits|, k requires 0 <= k < |hits| => sig[hits[k].0] * 1.0e9)
  }

  /** hmptsi: the idler wavelength of every listed cell, in nm. */
  function IdlerNm(id: seq<real>, hits: seq<(nat, nat)>): (r: seq<real>)
    requires forall k :: 0 <= k < |hits| ==> hits[k].1 < |id|
    ensures |r| == |hits|
  {
    seq(|hits|, k requires 0 <= k < |hits| => id[hits[k].1] * 1.0e9)
  }

  function Spread(s: seq<real>): real
    requires |s| > 0
  {
    Max(s) - Min(s)
  }

  /**
   * What one pulse width contributes to [fwhmsig, fwhmid]: None when no
   * cell of round(JSI - 0.5, decprec) is zero, otherwise the spread of the
   * signal and of the idler wavelengths of the zero cells, in nm.
   * `zero(i, j)` states whether cell (signal i, idler j) is zero.
   */
  function TauSpreads(sig: seq<real>, id: seq<real>, zero: (nat, nat) -> bool): Option<(real, real)> {
    var hits := Hits(|sig|, |id|, zero);
    HitsInRange(|sig|, |id|, zero);
    if |hits| == 0 then None
    else Some((Spread(SignalNm(sig, hits)), Spread(IdlerNm(id, hits))))
  }

  function AppendSpreads(w: (seq<real>, seq<real>), o: Option<(real, real)>): (seq<real>, seq<real>) {
    match o
    case None => w
    case Some(p) => (w.0 + [p.0], w.1 + [p.1])
  }

  /**
   * [fwhmsig, fwhmid] for the sweep over `taus`: the contributions of the
   * pulse widths in order. `cells(pulse, crystal)` is the zero test of the
   * JSI computed for that pulse and crystal.
   */
  function FwhmWidths(sig: seq<real>, id: seq<real>, taus: seq<real>,
                      cells: (Pulse, Crystal) -> (nat, nat) -> bool, base: Pulse, crystal: Crystal): (seq<real>, seq<real>)
    decreases |taus|
  {
    if |taus| == 0 then ([], [])
    else
      AppendSpreads(FwhmWidths(sig, id, taus[..|taus| - 1], cells, base, crystal),
                    TauSpreads(sig, id, cells(base.(tau := taus[|taus| - 1]), crystal)))
  }

  /** A contribution is a pair of spreads max - min, both >= 0. */
  lemma TauSpreadsNonNegative(sig: seq<real>, id: seq<real>, zero: (nat, nat) -> bool)
    ensures TauSpreads(sig, id, zero).Some? ==>
      TauSpreads(sig, id, zero).value.0 >= 0.0 && TauSpreads(sig, id, zero).value.1 >= 0.0
  {
    var hits := Hits(|sig|, |id|, zero);
    HitsInRange(|sig|, |id|, zero);
    if |hits| > 0 {
      SpreadNonNegative(SignalNm(sig, hits));
      SpreadNonNegative(IdlerNm(id, hits));
    }
  }

  /**
   * fwhmsig and fwhmid grow together: equal length, at most one entry per
   * pulse width, and every entry a spread max - min >= 0.
   */
  lemma {:induction false} FwhmWidthsProperties(sig: seq<real>, id: seq<real>, taus: seq<real>,
                                                cells: (Pulse, Crystal) -> (nat, nat) -> bool, base: Pulse, crystal: Crystal)
    ensures var w := FwhmWidths(sig, id, taus, cells, base, crystal);
      |w.0| == |w.1| <= |taus|
      && (forall k :: 0 <= k < |w.0| ==> w.0[k] >= 0.0)
      && (forall k :: 0 <= k < |w.1| ==> w.1[k] >= 0.0)
  {
    if |taus| > 0 {
      FwhmWidthsProperties(sig, id, taus[..|taus| - 1], cells, base, crystal);
      TauSpreadsNonNegative(sig, id, cells(base.(tau := taus[|taus| - 1]), crystal));
    }
  }

  /** One more pulse width appends its contribution. */
  lemma FwhmWidthsAppend(sig: seq<real>, id: seq<real>, taus: seq<real>, tau: real,
                         cells: (Pulse, Crystal) -> (nat, nat) -> bool, base: Pulse, crystal: Crystal)
    ensures FwhmWidths(sig, id, taus + [tau], cells, base, crystal)
      == AppendSpreads(FwhmWidths(sig, id, taus, cells, base, crystal), TauSpreads(sig, id, cells(base.(tau := tau), crystal)))
  {
    assert (taus + [tau])[..|taus|] == taus;
  }

  /** A pulse width contributes exactly when some cell of its grid rounds to zero. */
  lemma TauSpreadsSomeIff(sig: seq<real>, id: seq<real>, zero: (nat, nat) -> bool)
    ensures TauSpreads(sig, id, zero).Some? <==> exists i: nat, j: nat :: i < |sig| && j < |id| && zero(i, j)
  {
    var hits := Hits(|sig|, |id|, zero);
    if |hits| > 0 {
      HitsMembership(|sig|, |id|, zero, hits[0]);
    }
    if exists i: nat, j: nat :: i < |sig| && j < |id| && zero(i, j) {
      var i: nat, j: nat :| i < |sig| && j < |id| && zero(i, j);
      HitsMembership(|sig|, |id|, zero, (i, j));
    }
  }

  /** A pulse width none of whose cells rounds to zero leaves the widths as they were. */
  lemma NoZeroCellNoWidth(sig: seq<real>, id: seq<real>, taus: seq<real>, tau: real,
                          cells: (Pulse, Crystal) -> (nat, nat) -> bool, base: Pulse, crystal: Crystal)
    requires forall i: nat, j: nat :: i < |sig| && j < |id| ==> !cells(base.(tau := tau), crystal)(i, j)
    ensures FwhmWidths(sig, id, taus + [tau], cells, base, crystal) == FwhmWidths(sig, id, taus, cells, base, crystal)
  {
    FwhmWidthsAppend(sig, id, taus, tau, cells, base, crystal);
    TauSpreadsSomeIff(sig, id, cells(base.(tau := tau), crystal));
  }

  lemma SignalNmAppend(sig: seq<real>, hits: seq<(nat, nat)>, c: (nat, nat))
    requires forall k :: 0 <= k < |hits| ==> hits[k].0 < |sig|
    requires c.0 < |sig|
    ensures forall k :: 0 <= k < |hits + [c]| ==> (hits + [c])[k].0 < |sig|
    ensures SignalNm(sig, hits + [c]) == SignalNm(sig, hits) + [sig[c.0] * 1.0e9]
  {
  }

  lemma IdlerNmAppend(id: seq<real>, hits: seq<(nat, nat)>, c: (nat, nat))
    requires forall k :: 0 <= k < |hits| ==> hits[k].1 < |id|
    requires c.1 < |id|
    ensures forall k :: 0 <= k < |hits + [c]| ==> (hits + [c])[k].1 < |id|
    ensures IdlerNm(id, hits + [c]) == IdlerNm(id, hits) + [id[c.1] * 1.0e9]
  {
  }

  /**
   * The loop over np.where's indices: idcs lists the zero cells in
   * row-major order, and each one appends its signal and idler
   * wavelength in nm.
   */
  method CollectHalfMaximum(sig: seq<real>, id: seq<real>, zero: (nat, nat) -> bool)
    returns (hmptss: seq<real>, hmptsi: seq<real>)
    ensures forall k :: 0 <= k < |Hits(|sig|, |id|, zero)| ==>
      Hits(|sig|, |id|, zero)[k].0 < |sig| && Hits(|sig|, |id|, zero)[k].1 < |id|
    ensures hmptss == SignalNm(sig, Hits(|sig|, |id|, zero))
    ensures hmptsi == IdlerNm(id, Hits(|sig|, |id|, zero))
  {
    var idcs := Hits(|sig|, |id|, zero);
    HitsInRange(|sig|, |id|, zero);
    hmptss, hmptsi := [], [];
    var i := 0;
    while i < |idcs|
      invariant 0 <= i <= |idcs|
      invariant hmptss == SignalNm(sig, idcs[..i]) && hmptsi == IdlerNm(id, idcs[..i])
    {
      assert idcs[..i + 1] == idcs[..i] + [idcs[i]];
      SignalNmAppend(sig, idcs[..i], idcs[i]);
      IdlerNmAppend(id, idcs[..i], idcs[i]);
      hmptss := hmptss + [sig[idcs[i].0] * 1.0e9];
      hmptsi := hmptsi + [id[idcs[i].1] * 1.0e9];
      i := i + 1;
    }
    assert idcs[..i] == idcs;
  }

  /** The loop body's step: hmptss and hmptsi of a grid give its contribution. */
  lemma CollectedSpreads(sig: seq<real>, id: seq<real>, zero: (nat, nat) -> bool, hmptss: seq<real>, hmptsi: seq<real>)
    requires forall k :: 0 <= k < |Hits(|sig|, |id|, zero)| ==>
      Hits(|sig|, |id|, zero)[k].0 < |sig| && Hits(|sig|, |id|, zero)[k].1 < |id|
    requires hmptss == SignalNm(sig, Hits(|sig|, |id|, zero))
    requires hmptsi == IdlerNm(id, Hits(|sig|, |id|, zero))
    ensures |hmptss| == |hmptsi|
    ensures |hmptss| == 0 ==> TauSpreads(sig, id, zero) == None
    ensures |hmptss| != 0 ==> TauSpreads(sig, id, zero) == Some((Spread(hmptss), Spread(hmptsi)))
  {
  }

  /**
   * One pass of getFWHMvstau's loop: collect the half-maximum cells and,
   * when there are any, append the spread of their signal and of their
   * idler wavelengths.
   */
  method AppendHalfMaximumWidths(sig: seq<real>, id: seq<real>, zero: (nat, nat) -> bool,
                                 fwhmsig: seq<real>, fwhmid: seq<real>)
    returns (fwhmsig': seq<real>, fwhmid': seq<real>)
    ensures (fwhmsig', fwhmid') == AppendSpreads((fwhmsig, fwhmid), TauSpreads(sig, id, zero))
  {
    var hmptss, hmptsi := CollectHalfMaximum(sig, id, zero);
    CollectedSpreads(sig, id, zero, hmptss, hmptsi);
    fwhmsig', fwhmid' := fwhmsig, fwhmid;
    if |hmptss| != 0 {
      if |hmptsi| != 0 {
        fwhmsig' := fwhmsig + [Spread(hmptss)];
        fwhmid' := fwhmid + [Spread(hmptsi)];
      }
    }
  }

  /** The loop over the pulse widths of getFWHMvstau, for a known shape. */
  method FwhmSweep(sig: seq<real>, id: seq<real>, taus: seq<real>,
                   cells: (Pulse, Crystal) -> (nat, nat) -> bool, base: Pulse, crystal: Crystal)
    returns (fwhmsig: seq<real>, fwhmid: seq<real>)
    ensures (fwhmsig, fwhmid) == FwhmWidths(sig, id, taus, cells, base, crystal)
  {
    fwhmsig, fwhmid := [], [];
    var h := 0;
    while h < |taus|
      invariant 0 <= h <= |taus|
      invariant (fwhmsig, fwhmid) == FwhmWidths(sig, id, taus[..h], cells, base, crystal)
    {
      FwhmWidthsAppend(sig, id, taus[..h], taus[h], cells, base, crystal);
      fwhmsig, fwhmid := AppendHalfMaximumWidths(sig, id, cells(base.(tau := taus[h]), crystal), fwhmsig, fwhmid);
      assert taus[..h + 1] == taus[..h] + [taus[h]];
      h := h + 1;
    }
    assert taus[..h] == taus;
  }

  // ---------------------------------------------------------------------
  // The JSI object
  // ---------------------------------------------------------------------

  /**
   * The fields of a JSI object that the modelled methods read or write.
   * The refractive-index function fields nx, ny, nz are part of `Physics`.
   */
  class Engine {
    var useFilter: bool
    var filtertype: string
    var pwl: real
    var tau: real
    var m: int
    var PP: real
    var T: real
    var L: real
    var calcJSA: bool
    var calcJSI: bool
    var usetaucf: bool
    // attributes that the methods below create on first use
    var sigrange: seq<real>
    var idrange: seq<real>
    var taurange: seq<real>
    var Lrange: seq<real>
    var pumpshape: string
    var calcGaussian: bool
    var calcSech: bool
    var calcSinc: bool
    var filtermatrix: seq<seq<real>>
    var filtersignalfunction: Option<real -> real>
    var filteridlerfunction: Option<real -> real>

    /** The defaults of JSI.__init__: 775 nm pump, 2 ps, QPM order -1, 46.2 um poling, 25 C, 30 mm, JSI mode. */
    constructor()
      ensures !useFilter && filtertype == "rectangular"
      ensures pwl == 775.0e-9 && tau == 2.0e-12 && m == -1
      ensures PP == 46.2e-6 && T == 25.0 && L == 30.0e-3
      ensures !calcJSA && calcJSI && !usetaucf
    {
      useFilter := false;
      filtertype := "rectangular";
      pwl := 775.0e-9;
      tau := 2.0e-12;
      m := -1;
      PP := 46.2e-6;
      T := 25.0;
      L := 30.0e-3;
      calcJSA := false;
      calcJSI := true;
      usetaucf := false;
      sigrange, idrange, taurange, Lrange := [], [], [], [];
      pumpshape := "";
      calcGaussian, calcSech, calcSinc := false, false, false;
      filtermatrix := [];
      filtersignalfunction, filteridlerfunction := None, None;
    }

    /** The pump shape the calc flags select, in getplots' elif order. */
    function SelectedShape(): PumpShape
      reads this
    {
      if calcGaussian then Gaussian else if calcSech then Sech else Sinc
    }

    /** The lenient shape dispatch: set exactly one flag. */
    method SetShapeFlagsWithSechDefault(name: string)
      modifies this`calcGaussian, this`calcSech, this`calcSinc
      ensures calcGaussian == (ShapeWithSechDefault(name) == Gaussian)
      ensures calcSech == (ShapeWithSechDefault(name) == Sech)
      ensures calcSinc == (ShapeWithSechDefault(name) == Sinc)
      ensures SelectedShape() == ShapeWithSechDefault(name)
    {
      calcGaussian, calcSech, calcSinc := false, false, false;
      var folded := Text.Casefold(name);
      if folded == "gaussian" {
        calcGaussian := true;
      } else if folded == "sinc" {
        calcSinc := true;
      } else {
        calcSech := true;
      }
    }

    /** The strict shape dispatch: set the flag of the recognised name, none for any other. */
    method SetShapeFlagsStrict(name: string)
      modifies this`calcGaussian, this`calcSech, this`calcSinc
      ensures calcGaussian == (StrictShape(name) == Some(Gaussian))
      ensures calcSech == (StrictShape(name) == Some(Sech))
      ensures calcSinc == (StrictShape(name) == Some(Sinc))
      ensures StrictShape(name).Some? ==> SelectedShape() == StrictShape(name).value
    {
      calcGaussian, calcSech, calcSinc := false, false, false;
      var folded := Text.Casefold(name);
      if folded == "gaussian" {
        calcGaussian := true;
      } else if folded == "sech^2" {
        calcSech := true;
      } else if folded == "sinc" {
        calcSinc := true;
      }
    }

    /**
     * The assignments that getplots, getpurity_vsTau and getpurity_vsL open
     * with: the grids, the pump wavelength, the QPM order, the temperature,
     * the poling period scaled once by the thermal expansion at temp, and
     * the shape name.
     */
    method StoreSettings(pumpwl: real, signalrange: seq<real>, idlerrange: seq<real>, temp: real,
                         polingp: real, qpmorder: int, pumpshape: string)
      modifies this`sigrange, this`idrange, this`pwl, this`m, this`T, this`PP, this`pumpshape
      ensures sigrange == signalrange && idrange == idlerrange && pwl == pumpwl
      ensures m == qpmorder && T == temp && this.pumpshape == pumpshape
      ensures PP == polingp * RefractiveIndex.ThermExpFactor(temp)
    {
      sigrange := signalrange;
      idrange := idlerrange;
      pwl := pumpwl;
      m := qpmorder;
      T := temp;
      PP := polingp * RefractiveIndex.ThermExpFactor(T);
      this.pumpshape := pumpshape;
    }

    /** getplots' mode switch: exactly one of calcJSA and calcJSI, with calcJSI = plotJSI. */
    method SetMode(plotJSI: bool)
      modifies this`calcJSI, this`calcJSA
      ensures calcJSI == plotJSI && calcJSA == !plotJSI
    {
      calcJSI := false;
      calcJSA := false;
      if !plotJSI {
        calcJSA := true;
      } else {
        calcJSI := true;
      }
    }

    /**
     * getplots' filter setup: useFilter is set unless both slots are None,
     * and then both slots are stored and the filter matrix is rebuilt by
     * the nested loop over the stored grids.
     */
    method SetFilters(filterfuncs: (Option<real -> real>, Option<real -> real>))
      modifies this`useFilter, this`filtersignalfunction, this`filteridlerfunction, this`filtermatrix
      ensures useFilter <==> filterfuncs.0.Some? || filterfuncs.1.Some?
      ensures useFilter ==> filtersignalfunction == filterfuncs.0 && filteridlerfunction == filterfuncs.1
      ensures useFilter ==> filtermatrix == FilterMatrix(sigrange, idrange, filterfuncs.0, filterfuncs.1)
      ensures !useFilter ==> filtermatrix == old(filtermatrix) && filtersignalfunction == old(filtersignalfunction)
                             && filteridlerfunction == old(filteridlerfunction)
    {
      useFilter := !(filterfuncs.0.None? && filterfuncs.1.None?);
      if useFilter {
        filtersignalfunction := filterfuncs.0;
        filteridlerfunction := filterfuncs.1;
        var fm := BuildFilterMatrix(sigrange, idrange, filtersignalfunction, filteridlerfunction);
        filtermatrix := fm;
      }
    }

    /**
     * The filter block inside the purity loops: it runs only while
     * useFilter is already set, stores both slots and, unless both are
     * None, rebuilds the filter matrix over the stored grids.
     */
    method RefreshFilters(filterfuncs: (Option<real -> real>, Option<real -> real>))
      modifies this`filtersignalfunction, this`filteridlerfunction, this`filtermatrix
      ensures useFilter ==> filtersignalfunction == filterfuncs.0 && filteridlerfunction == filterfuncs.1
      ensures useFilter && (filterfuncs.0.Some? || filterfuncs.1.Some?) ==>
        filtermatrix == FilterMatrix(sigrange, idrange, filterfuncs.0, filterfuncs.1)
      ensures !useFilter ==> filtermatrix == old(filtermatrix) && filtersignalfunction == old(filtersignalfunction)
                             && filteridlerfunction == old(filteridlerfunction)
    {
      if useFilter {
        filtersignalfunction := filterfuncs.0;
        filteridlerfunction := filterfuncs.1;
        if !(filtersignalfunction.None? && filteridlerfunction.None?) {
          var fm := BuildFilterMatrix(sigrange, idrange, filtersignalfunction, filteridlerfunction);
          filtermatrix := fm;
        }
      }
    }

    /**
     * What getplots stores before evaluating the spectra: the settings, the
     * length scaled once by the thermal expansion, the mode and shape flags.
     */
    method SetUpPlots(pumpwl: real, signalrange: seq<real>, idlerrange: seq<real>, tau: real, temp: real,
                      polingp: real, crystallength: real, qpmorder: int, plotJSI: bool, pumpshape: string)
      modifies this`sigrange, this`idrange, this`pwl, this`tau, this`m, this`T, this`PP, this`L, this`pumpshape, this`calcJSI, this`calcJSA, this`calcGaussian, this`calcSech, this`calcSinc
      ensures sigrange == signalrange && idrange == idlerrange && pwl == pumpwl && this.tau == tau
      ensures m == qpmorder && T == temp && this.pumpshape == pumpshape
      ensures PP == polingp * RefractiveIndex.ThermExpFactor(temp)
      ensures L == crystallength * RefractiveIndex.ThermExpFactor(temp)
      ensures calcJSI == plotJSI && calcJSA == !plotJSI
      ensures calcGaussian == (ShapeWithSechDefault(pumpshape) == Gaussian)
      ensures calcSech == (ShapeWithSechDefault(pumpshape) == Sech)
      ensures calcSinc == (ShapeWithSechDefault(pumpshape) == Sinc)
      ensures SelectedShape() == ShapeWithSechDefault(pumpshape)
    {
      StoreSettings(pumpwl, signalrange, idlerrange, temp, polingp, qpmorder, pumpshape);
      this.tau := tau;
      L := crystallength * RefractiveIndex.ThermExpFactor(T);
      SetMode(plotJSI);
      SetShapeFlagsWithSechDefault(this.pumpshape);
    }

    /**
     * getplots: store the settings (poling period and length scaled once by
     * the thermal expansion at temp), pick JSA or JSI mode and the pump
     * shape, and filter the joint spectrum when either filter slot is set.
     */
    method GetPlots(pumpwl: real, signalrange: seq<real>, idlerrange: seq<real>, tau: real, temp: real,
                    polingp: real, crystallength: real, qpmorder: int,
                    filterfuncs: (Option<real -> real>, Option<real -> real>), plotJSI: bool, pumpshape: string,
                    ph: Physics)
      returns (r: Spectra)
      modifies this`sigrange, this`idrange, this`pwl, this`tau, this`m, this`T, this`PP, this`L, this`pumpshape, this`calcJSI, this`calcJSA, this`calcGaussian, this`calcSech, this`calcSinc, this`useFilter, this`filtersignalfunction, this`filteridlerfunction, this`filtermatrix
      ensures sigrange == signalrange && idrange == idlerrange && pwl == pumpwl && this.tau == tau
      ensures m == qpmorder && T == temp && this.pumpshape == pumpshape
      ensures PP == polingp * RefractiveIndex.ThermExpFactor(temp)
      ensures L == crystallength * RefractiveIndex.ThermExpFactor(temp)
      ensures calcJSI == plotJSI && calcJSA == !plotJSI
      ensures calcGaussian == (ShapeWithSechDefault(pumpshape) == Gaussian)
      ensures calcSech == (ShapeWithSechDefault(pumpshape) == Sech)
      ensures calcSinc == (ShapeWithSechDefault(pumpshape) == Sinc)
      ensures useFilter <==> filterfuncs.0.Some? || filterfuncs.1.Some?
      ensures useFilter ==> filtersignalfunction == filterfuncs.0 && filteridlerfunction == filterfuncs.1
      ensures useFilter ==> filtermatrix == FilterMatrix(signalrange, idlerrange, filterfuncs.0, filterfuncs.1)
      ensures !useFilter ==> filtermatrix == old(filtermatrix) && filtersignalfunction == old(filtersignalfunction)
                             && filteridlerfunction == old(filteridlerfunction)
      ensures r == Plots(ph, Pulse(ShapeWithSechDefault(pumpshape), pumpwl, tau, usetaucf),
                         Crystal(temp, PP, L, qpmorder), plotJSI, signalrange, idlerrange, filterfuncs.0, filterfuncs.1)
    {
      SetUpPlots(pumpwl, signalrange, idlerrange, tau, temp, polingp, crystallength, qpmorder, plotJSI, pumpshape);
      var unfiltered := Unfiltered(ph, Pulse(SelectedShape(), pwl, this.tau, usetaucf), Crystal(T, PP, L, m),
                                   calcJSI, sigrange, idrange);
      r := unfiltered;
      SetFilters(filterfuncs);
      if useFilter {
        r := Spectra(unfiltered.pe, unfiltered.pm, ApplyFilterMatrix(unfiltered.js, filtermatrix));
      }
    }

    /**
     * What getpurity_vsTau stores around its purity loop: the settings, the
     * scaled length, the shape flags and, on a non-empty range, the last
     * pulse width and the filter block.
     */
    method SetUpVsTau(pumpwl: real, signalrange: seq<real>, idlerrange: seq<real>, taurange: seq<real>,
                      temp: real, polingp: real, crystallength: real, qpmorder: int,
                      filterfuncs: (Option<real -> real>, Option<real -> real>), pumpshape: string)
      modifies this`sigrange, this`idrange, this`pwl, this`taurange, this`m, this`T, this`PP, this`L, this`pumpshape, this`tau, this`calcGaussian, this`calcSech, this`calcSinc, this`filtersignalfunction, this`filteridlerfunction, this`filtermatrix
      ensures sigrange == signalrange && idrange == idlerrange && pwl == pumpwl && this.taurange == taurange
      ensures m == qpmorder && T == temp && this.pumpshape == pumpshape
      ensures PP == polingp * RefractiveIndex.ThermExpFactor(temp)
      ensures L == crystallength * RefractiveIndex.ThermExpFactor(temp)
      ensures SelectedShape() == ShapeWithSechDefault(pumpshape)
      ensures tau == (if |taurange| == 0 then old(tau) else taurange[|taurange| - 1])
      ensures old(useFilter) && |taurange| > 0 ==>
        filtersignalfunction == filterfuncs.0 && filteridlerfunction == filterfuncs.1
      ensures old(useFilter) && |taurange| > 0 && (filterfuncs.0.Some? || filterfuncs.1.Some?) ==>
        filtermatrix == FilterMatrix(signalrange, idlerrange, filterfuncs.0, filterfuncs.1)
    {
      StoreSettings(pumpwl, signalrange, idlerrange, temp, polingp, qpmorder, pumpshape);
      this.taurange := taurange;
      L := crystallength * RefractiveIndex.ThermExpFactor(T);
      SetShapeFlagsWithSechDefault(this.pumpshape);
      if |taurange| > 0 {
        tau := taurange[|taurange| - 1];
        RefreshFilters(filterfuncs);
      }
    }

    /**
     * getpurity_vsTau: store the settings, then decompose the (filtered)
     * amplitude grid at every pulse width. The filter block runs only when
     * an earlier call left useFilter set. An empty range raises IndexError
     * when the purity curve is interpolated, and a range the cubic spline
     * refuses (SplineAccepts) raises ValueError.
     */
    method GetPurityVsTau(pumpwl: real, signalrange: seq<real>, idlerrange: seq<real>, taurange: seq<real>,
                          temp: real, polingp: real, crystallength: real, qpmorder: int,
                          filterfuncs: (Option<real -> real>, Option<real -> real>), pumpshape: string,
                          ph: Physics, svd: seq<seq<Complex>> -> seq<real>)
      returns (r: Result<seq<Option<real>>>)
      modifies this`sigrange, this`idrange, this`pwl, this`taurange, this`m, this`T, this`PP, this`L, this`pumpshape, this`tau, this`calcGaussian, this`calcSech, this`calcSinc, this`filtersignalfunction, this`filteridlerfunction, this`filtermatrix
      ensures sigrange == signalrange && idrange == idlerrange && pwl == pumpwl && this.taurange == taurange
      ensures m == qpmorder && T == temp && this.pumpshape == pumpshape
      ensures PP == polingp * RefractiveIndex.ThermExpFactor(temp)
      ensures L == crystallength * RefractiveIndex.ThermExpFactor(temp)
      ensures SelectedShape() == ShapeWithSechDefault(pumpshape)
      ensures tau == (if |taurange| == 0 then old(tau) else taurange[|taurange| - 1])
      ensures old(useFilter) && |taurange| > 0 ==>
        filtersignalfunction == filterfuncs.0 && filteridlerfunction == filterfuncs.1
      ensures old(useFilter) && |taurange| > 0 && (filterfuncs.0.Some? || filterfuncs.1.Some?) ==>
        filtermatrix == FilterMatrix(signalrange, idlerrange, filterfuncs.0, filterfuncs.1)
      ensures |taurange| == 0 ==> r == Failure(IndexError)
      ensures |taurange| > 0 && !SplineAccepts(taurange) ==> r == Failure(ValueError)
      ensures SplineAccepts(taurange) ==> r.Success? && |r.value| == |taurange|
      ensures r.Success? ==> forall k :: 0 <= k < |taurange| ==>
        r.value[k] == Schmidt.Purity(svd(SweepSpectrum(ph, Pulse(ShapeWithSechDefault(pumpshape), pumpwl, taurange[k], usetaucf),
                                                       Crystal(temp, PP, L, qpmorder), signalrange, idlerrange,
                                                       old(useFilter) && (filterfuncs.0.Some? || filterfuncs.1.Some?),
                                                       filterfuncs.0, filterfuncs.1)))
    {
      var filtered := useFilter && !(filterfuncs.0.None? && filterfuncs.1.None?);
      SetUpVsTau(pumpwl, signalrange, idlerrange, taurange, temp, polingp, crystallength, qpmorder, filterfuncs, pumpshape);
      var purity := PurityVsTauSweep(ph, SelectedShape(), pwl, taurange, usetaucf, Crystal(T, PP, L, m),
                                     signalrange, idlerrange, filtered, filterfuncs.0, filterfuncs.1, svd);
      if |taurange| == 0 {
        r := Failure(IndexError);
      } else if !SplineAccepts(taurange) {
        r := Failure(ValueError);
      } else {
        r := Success(purity);
      }
    }

    /**
     * What getpurity_vsL stores before the purity of its first length is
     * computed: the settings, the scaled lengths, the shape flags and, on a
     * non-empty range, the first iteration's length and filter block.
     */
    method SetUpVsL(pumpwl: real, signalrange: seq<real>, idlerrange: seq<real>, tau: real, temp: real,
                    polingp: real, crystallengthrange: seq<real>, qpmorder: int,
                    filterfuncs: (Option<real -> real>, Option<real -> real>), pumpshape: string)
      returns (known: bool)
      modifies this`sigrange, this`idrange, this`pwl, this`tau, this`m, this`T, this`PP, this`Lrange, this`L, this`pumpshape, this`calcGaussian, this`calcSech, this`calcSinc, this`filtersignalfunction, this`filteridlerfunction, this`filtermatrix
      ensures sigrange == signalrange && idrange == idlerrange && pwl == pumpwl && this.tau == tau
      ensures m == qpmorder && T == temp && this.pumpshape == pumpshape
      ensures PP == polingp * RefractiveIndex.ThermExpFactor(temp)
      ensures Lrange == Scale(crystallengthrange, RefractiveIndex.ThermExpFactor(temp))
      ensures calcGaussian == (StrictShape(pumpshape) == Some(Gaussian))
      ensures calcSech == (StrictShape(pumpshape) == Some(Sech))
      ensures calcSinc == (StrictShape(pumpshape) == Some(Sinc))
      ensures L == (if |Lrange| == 0 then old(L)
                    else if StrictShape(pumpshape).None? then Lrange[0]
                    else Lrange[|Lrange| - 1])
      ensures old(useFilter) && |Lrange| > 0 ==>
        filtersignalfunction == filterfuncs.0 && filteridlerfunction == filterfuncs.1
      ensures old(useFilter) && |Lrange| > 0 && (filterfuncs.0.Some? || filterfuncs.1.Some?) ==>
        filtermatrix == FilterMatrix(signalrange, idlerrange, filterfuncs.0, filterfuncs.1)
      ensures known == StrictShape(pumpshape).Some?
    {
      StoreSettings(pumpwl, signalrange, idlerrange, temp, polingp, qpmorder, pumpshape);
      this.tau := tau;
      Lrange := Scale(crystallengthrange, RefractiveIndex.ThermExpFactor(T));
      SetShapeFlagsStrict(this.pumpshape);
      known := calcGaussian || calcSech || calcSinc;
      if |Lrange| > 0 {
        L := if known then Lrange[|Lrange| - 1] else Lrange[0];
        RefreshFilters(filterfuncs);
      }
    }

    /**
     * getpurity_vsL: as getpurity_vsTau over crystal lengths (each scaled by
     * the thermal expansion), with the strict shape dispatch: an unknown
     * shape leaves the amplitude unassigned (UnboundLocalError) at the
     * first length, and the spline again refuses a range SplineAccepts rejects.
     */
    method GetPurityVsL(pumpwl: real, signalrange: seq<real>, idlerrange: seq<real>, tau: real, temp: real,
                        polingp: real, crystallengthrange: seq<real>, qpmorder: int,
                        filterfuncs: (Option<real -> real>, Option<real -> real>), pumpshape: string,
                        ph: Physics, svd: seq<seq<Complex>> -> seq<real>)
      returns (r: Result<seq<Option<real>>>)
      modifies this`sigrange, this`idrange, this`pwl, this`tau, this`m, this`T, this`PP, this`Lrange, this`L, this`pumpshape, this`calcGaussian, this`calcSech, this`calcSinc, this`filtersignalfunction, this`filteridlerfunction, this`filtermatrix
      ensures sigrange == signalrange && idrange == idlerrange && pwl == pumpwl && this.tau == tau
      ensures m == qpmorder && T == temp && this.pumpshape == pumpshape
      ensures PP == polingp * RefractiveIndex.ThermExpFactor(temp)
      ensures Lrange == Scale(crystallengthrange, RefractiveIndex.ThermExpFactor(temp))
      ensures calcGaussian == (StrictShape(pumpshape) == Some(Gaussian))
      ensures calcSech == (StrictShape(pumpshape) == Some(Sech))
      ensures calcSinc == (StrictShape(pumpshape) == Some(Sinc))
      ensures L == (if |Lrange| == 0 then old(L)
                    else if StrictShape(pumpshape).None? then Lrange[0]
                    else Lrange[|Lrange| - 1])
      ensures old(useFilter) && |Lrange| > 0 ==>
        filtersignalfunction == filterfuncs.0 && filteridlerfunction == filterfuncs.1
      ensures old(useFilter) && |Lrange| > 0 && (filterfuncs.0.Some? || filterfuncs.1.Some?) ==>
        filtermatrix == FilterMatrix(signalrange, idlerrange, filterfuncs.0, filterfuncs.1)
      ensures |crystallengthrange| == 0 ==> r == Failure(IndexError)
      ensures |crystallengthrange| > 0 && StrictShape(pumpshape).None? ==> r == Failure(UnboundLocalError)
      ensures |crystallengthrange| > 0 && StrictShape(pumpshape).Some? && !SplineAccepts(Lrange) ==> r == Failure(ValueError)
      ensures SplineAccepts(Lrange) && StrictShape(pumpshape).Some? ==> r.Success? && |r.value| == |Lrange|
      ensures r.Success? ==> StrictShape(pumpshape).Some? && forall k :: 0 <= k < |Lrange| ==>
        r.value[k] == Schmidt.Purity(svd(SweepSpectrum(ph, Pulse(StrictShape(pumpshape).value, pumpwl, tau, usetaucf),
                                                       Crystal(temp, PP, Lrange[k], qpmorder), signalrange, idlerrange,
                                                       old(useFilter) && (filterfuncs.0.Some? || filterfuncs.1.Some?),
                                                       filterfuncs.0, filterfuncs.1)))
    {
      var filtered := useFilter && !(filterfuncs.0.None? && filterfuncs.1.None?);
      var known := SetUpVsL(pumpwl, signalrange, idlerrange, tau, temp, polingp, crystallengthrange, qpmorder,
                            filterfuncs, pumpshape);
      if |Lrange| == 0 {
        r := Failure(IndexError);
      } else if !known {
        r := Failure(UnboundLocalError);
      } else if !SplineAccepts(Lrange) {
        r := Failure(ValueError);
      } else {
        var purity := PurityVsLSweep(ph, Pulse(SelectedShape(), pwl, this.tau, usetaucf), T, PP, Lrange, m,
                                     signalrange, idlerrange, filtered, filterfuncs.0, filterfuncs.1, svd);
        r := Success(purity);
      }
    }

    /**
     * getTcpVslp: the crossing-point temperature for every pump wavelength
     * at the unscaled poling period, each search seeded by the previous result.
     */
    method GetTcpVslp(pwlrange: seq<real>, temp: real, polingp: real, qpmorder: int, solve: (real, real, real) -> real)
      returns (tcp: seq<real>)
      modifies this`PP, this`T, this`m
      ensures PP == polingp && T == temp && m == qpmorder
      ensures |tcp| == |pwlrange|
      ensures |pwlrange| > 0 ==> tcp[0] == solve(pwlrange[0], polingp, temp)
      ensures forall j :: 1 <= j < |pwlrange| ==> tcp[j] == solve(pwlrange[j], polingp, tcp[j - 1])
    {
      PP := polingp;
      T := temp;
      m := qpmorder;
      tcp := WarmStartSweep(pwlrange, T, solve, PumpWavelengths(PP));
    }

    /**
     * getTcpVsPP: the crossing-point temperature for every poling period at
     * the given pump wavelength, warm-started the same way; PP is not stored.
     */
    method GetTcpVsPP(pprange: seq<real>, temp: real, pwl: real, qpmorder: int, solve: (real, real, real) -> real)
      returns (tcp: seq<real>)
      modifies this`pwl, this`T, this`m
      ensures this.pwl == pwl && T == temp && m == qpmorder
      ensures |tcp| == |pprange|
      ensures |pprange| > 0 ==> tcp[0] == solve(pwl, pprange[0], temp)
      ensures forall j :: 1 <= j < |pprange| ==> tcp[j] == solve(pwl, pprange[j], tcp[j - 1])
    {
      this.pwl := pwl;
      T := temp;
      m := qpmorder;
      tcp := WarmStartSweep(pprange, T, solve, PolingPeriods(pwl));
    }

    /**
     * getHOMinterference after the overlap integrals: `overlap(d)` is
     * homf at delay d (only its magnitude over the norm enters), computed
     * on a pool that finishes in `finishOrder`. Returns HOMI, the
     * visibility and the dip width; an empty delay axis raises ValueError
     * at np.max, fewer than four delays at interp1d.
     */
    method GetHOMInterference(delayrange: seq<real>, overlap: real -> real, norm: real, finishOrder: seq<nat>,
                              root: (seq<real>, seq<real>, real) -> real)
      returns (r: Result<(seq<real>, Option<real>, real)>)
      requires norm != 0.0
      requires forall x :: x in finishOrder ==> x < |delayrange|
      requires forall k :: 0 <= k < |delayrange| ==> k in finishOrder
      ensures |delayrange| < 4 ==> r == Failure(ValueError)
      ensures |delayrange| >= 4 ==> r.Success?
      ensures r.Success? ==>
        var homi := HomNormalize(Overlaps(delayrange, overlap), norm);
        r.value.0 == homi && r.value.1 == Visibility(homi)
        && HomWidth(delayrange, homi, root) == Success(r.value.2)
    {
      var n := |delayrange|;
      var results := RunPool(n, (k: nat) => if k < n then overlap(delayrange[k]) else 0.0, finishOrder);
      assert results == Overlaps(delayrange, overlap);
      var homi := HomNormalize(results, norm);
      if n == 0 {
        return Failure(ValueError);
      }
      var vis := Visibility(homi);
      var width := HomWidth(delayrange, homi, root);
      if width.Failure? {
        return Failure(width.error);
      }
      r := Success((homi, vis, width.value));
    }

    /**
     * getFWHMvstau: with the strict shape dispatch and the filter switched
     * off, collect per pulse width the spread of the half-maximum cells.
     * The JSI is evaluated at the pump wavelength given as argument (the
     * stored pwl is neither read nor written), at polingp scaled by the thermal expansion and
     * the object's stored QPM order m (the qpmorder argument is unused).
     * An unknown shape leaves `result` unbound at the first pulse width.
     */
    method GetFWHMvsTau(pwl: real, signalrange: seq<real>, idlerrange: seq<real>, temp: real, polingp: real, qpmorder: int,
                        cl: real, taurange: seq<real>, pumpshape: string, usetaucf: bool,
                        cells: (Pulse, Crystal) -> (nat, nat) -> bool)
      returns (r: Result<(seq<real>, seq<real>)>)
      modifies this`usetaucf, this`useFilter, this`calcGaussian, this`calcSech, this`calcSinc
      ensures this.usetaucf == usetaucf && !useFilter && this.pwl == old(this.pwl)
      ensures calcGaussian == (StrictShape(pumpshape) == Some(Gaussian))
      ensures calcSech == (StrictShape(pumpshape) == Some(Sech))
      ensures calcSinc == (StrictShape(pumpshape) == Some(Sinc))
      ensures StrictShape(pumpshape).None? && |taurange| > 0 ==> r == Failure(UnboundLocalError)
      ensures StrictShape(pumpshape).None? && |taurange| == 0 ==> r == Success(([], []))
      ensures StrictShape(pumpshape).Some? ==>
        r == Success(FwhmWidths(signalrange, idlerrange, taurange, cells,
                                Pulse(StrictShape(pumpshape).value, pwl, 0.0, usetaucf),
                                Crystal(temp, polingp * RefractiveIndex.ThermExpFactor(temp), cl, m)))
    {
      this.usetaucf := usetaucf;
      SetShapeFlagsStrict(pumpshape);
      var known := calcGaussian || calcSech || calcSinc;
      useFilter := false;
      var base := Pulse(SelectedShape(), pwl, 0.0, this.usetaucf);
      var crystal := Crystal(temp, polingp * RefractiveIndex.ThermExpFactor(temp), cl, m);
      if !known && |taurange| > 0 {
        return Failure(UnboundLocalError);
      }
      var fwhmsig, fwhmid := FwhmSweep(signalrange, idlerrange, taurange, cells, base, crystal);
      r := Success((fwhmsig, fwhmid));
    }
  }

  /**
   * The x values InterpolatedUnivariateSpline accepts for its cubic fit:
   * more points than the degree 3, in strictly increasing order. Any other
   * range raises ValueError.
   */
  predicate SplineAccepts(xs: seq<real>) {
    |xs| >= 4 && forall k :: 0 <= k < |xs| - 1 ==> xs[k] < xs[k + 1]
  }

  /** A short range and a descending range, as numpy.arange gives for min > max, are both refused. */
  lemma SplineRejects(xs: seq<real>)
    ensures |xs| < 4 ==> !SplineAccepts(xs)
    ensures |xs| >= 2 && xs[1] <= xs[0] ==> !SplineAccepts(xs)
    ensures !SplineAccepts([4.0e-12, 3.0e-12, 2.0e-12, 1.0e-12])
    ensures SplineAccepts([1.0e-12, 2.0e-12, 3.0e-12, 4.0e-12])
  {
    var down := [4.0e-12, 3.0e-12, 2.0e-12, 1.0e-12];
    assert !(down[0] < down[1]);
  }

  /** homf at every delay, in delay order. */
  function Overlaps(delays: seq<real>, overlap: real -> real): (r: seq<real>)
    ensures |r| == |delays|
    ensures forall k :: 0 <= k < |delays| ==> r[k] == overlap(delays[k])
  {
    seq(|delays|, k requires 0 <= k < |delays| => overlap(delays[k]))
  }

  /**
   * The filter matrix getplots stores has len(signalrange) rows of
   * len(idlerrange) entries, idlerf(id[j]) * signalf(sig[i]) when both
   * filters are given (with None meaning no filter).
   */
  lemma PlotsFilterMatrix(sig: seq<real>, id: seq<real>, sf: real -> real, idf: real -> real)
    ensures Shaped(FilterMatrix(sig, id, Some(sf), Some(idf)), |sig|, |id|)
    ensures forall i, j :: 0 <= i < |sig| && 0 <= j < |id| ==>
      FilterMatrix(sig, id, Some(sf), Some(idf))[i][j] == idf(id[j]) * sf(sig[i])
  {
    FilterMatrixEntries(sig, id, Some(sf), Some(idf));
  }

  /**
   * getplots' joint spectrum, cell by cell: the JSA or JSI at (sig[b], id[a]),
   * weighted by the filters at that cell's own wavelengths.
   */
  lemma PlotsCells(ph: Physics, pulse: Pulse, crystal: Crystal, intensity: bool, sig: seq<real>, id: seq<real>,
                   sf: Option<real -> real>, idf: Option<real -> real>)
    ensures Shaped(Plots(ph, pulse, crystal, intensity, sig, id, sf, idf).js, |id|, |sig|)
    ensures forall a, b :: 0 <= a < |id| && 0 <= b < |sig| ==>
      Plots(ph, pulse, crystal, intensity, sig, id, sf, idf).js[a][b]
        == Weighted(JsCell(ph, pulse, crystal, intensity, sig[b], id[a]), FilterWeight(sig[b], id[a], sf, idf))
    ensures forall a, b :: 0 <= a < |id| && 0 <= b < |sig| ==>
      Plots(ph, pulse, crystal, intensity, sig, id, sf, idf).pe[a][b] == PeCell(ph, pulse, intensity, sig[b], id[a])
  {
    var f := (ls: real, li: real) => JsCell(ph, pulse, crystal, intensity, ls, li);
    if sf.None? && idf.None? {
      forall a, b | 0 <= a < |id| && 0 <= b < |sig|
        ensures Plots(ph, pulse, crystal, intensity, sig, id, sf, idf).js[a][b]
          == Weighted(JsCell(ph, pulse, crystal, intensity, sig[b], id[a]), FilterWeight(sig[b], id[a], sf, idf))
      {
        NoFiltersWeightOne(sig[b], id[a]);
      }
    } else {
      FilteredMesh(sig, id, f, sf, idf);
    }
  }
}
