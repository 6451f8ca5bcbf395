/**
 * The refractive-index catalogue of RefractiveIndex.py: the material and
 * index-name tables, the guarded material setter, the index lookup, the
 * validation in getIDX, and the algebraic skeleton of the five dispersion
 * formulas for (PP)KTP with the square root kept abstract.
 */
module RefractiveIndex {
  import opened Wrappers
  import opened Numerics

  /** One catalogue row: a material and, per crystal axis x, y, z, the index names offered. */
  datatype CatalogueEntry = CatalogueEntry(name: string, indices: seq<seq<string>>)

  /** The index names offered for PPKTP (and, identically, for KTP). */
  const PPKTPIndices: seq<seq<string>> := [["kato"], ["koenig", "kato"], ["fradkin", "kato"]]
  const KTPIndices: seq<seq<string>> := [["kato"], ["koenig", "kato"], ["fradkin", "kato"]]

  const StandardMaterials: seq<string> := ["PPKTP", "KTP"]

  const StandardCatalogue: seq<CatalogueEntry> :=
    [CatalogueEntry("PPKTP", PPKTPIndices), CatalogueEntry("KTP", KTPIndices)]

  /** The name getIDX accepts for the Koenig y-index (with an o-umlaut). */
  const KoenigName: string := "könig"

  /** The index lists of the first entry whose name is the material, or None. */
  function Lookup(entries: seq<CatalogueEntry>, material: string): (r: Option<seq<seq<string>>>)
    ensures r.None? <==> forall i :: 0 <= i < |entries| ==> entries[i].name != material
  {
    if |entries| == 0 then None
    else if entries[0].name == material then Some(entries[0].indices)
    else Lookup(entries[1..], material)
  }

  /** Lookup answers with the entry at the first matching position. */
  lemma {:induction false} LookupFirstMatch(entries: seq<CatalogueEntry>, material: string, k: int)
    requires 0 <= k < |entries| && entries[k].name == material
    requires forall i :: 0 <= i < k ==> entries[i].name != material
    ensures Lookup(entries, material) == Some(entries[k].indices)
  {
    if k > 0 {
      LookupFirstMatch(entries[1..], material, k - 1);
    }
  }

  /** The standard catalogue answers PPKTP and KTP with their lists and nothing else. */
  lemma StandardLookup(material: string)
    ensures Lookup(StandardCatalogue, "PPKTP") == Some([["kato"], ["koenig", "kato"], ["fradkin", "kato"]])
    ensures Lookup(StandardCatalogue, "KTP") == Some(KTPIndices)
    ensures Lookup(StandardCatalogue, material).Some? <==> material in StandardMaterials
  {
  }

  /** The formula bound to one axis. */
  datatype IndexFormula = NxKato | NyKoenig | NyKato | NzFradkin | NzKato

  /** getIDX's x-axis dispatch: only 'kato'. */
  function XFormula(name: string): Option<IndexFormula> {
    if name == "kato" then Some(NxKato) else None
  }

  /** getIDX's y-axis dispatch: 'könig' (spelled with an umlaut) or 'kato'. */
  function YFormula(name: string): Option<IndexFormula> {
    if name == KoenigName then Some(NyKoenig)
    else if name == "kato" then Some(NyKato)
    else None
  }

  /** getIDX's z-axis dispatch: 'fradkin' or 'kato'. */
  function ZFormula(name: string): Option<IndexFormula> {
    if name == "fradkin" then Some(NzFradkin)
    else if name == "kato" then Some(NzKato)
    else None
  }

  /** Reference definition of getIDX: the triple of formulas, or None where it returns -1. */
  function SelectIndices(crystaltype: string, idxtype: seq<string>): Option<(IndexFormula, IndexFormula, IndexFormula)> {
    if |idxtype| != 3 || crystaltype != "PPKTP" then None
    else
      match (XFormula(idxtype[0]), YFormula(idxtype[1]), ZFormula(idxtype[2]))
      case (Some(x), Some(y), Some(z)) => Some((x, y, z))
      case _ => None
  }

  /** getIDX succeeds exactly for PPKTP with x = kato, y in {könig, kato}, z in {fradkin, kato}. */
  lemma SelectIndicesIff(crystaltype: string, idxtype: seq<string>)
    ensures SelectIndices(crystaltype, idxtype).Some? <==>
      |idxtype| == 3 && crystaltype == "PPKTP" && idxtype[0] == "kato" &&
      (idxtype[1] == KoenigName || idxtype[1] == "kato") &&
      (idxtype[2] == "fradkin" || idxtype[2] == "kato")
    ensures SelectIndices(crystaltype, idxtype).Some? ==>
      var (x, y, z) := SelectIndices(crystaltype, idxtype).value;
      x == NxKato &&
      (y == NyKoenig <==> idxtype[1] == KoenigName) &&
      (z == NzFradkin <==> idxtype[2] == "fradkin")
  {
  }

  /**
   * KTP is a listed material but getIDX rejects it, and the catalogue's own
   * y-name 'koenig' (without the umlaut) is rejected too: no selection made
   * from the offered names that uses the Koenig fit is accepted.
   */
  lemma CatalogueNamesRejected(x: string, y: string, z: string)
    ensures "KTP" in StandardMaterials && SelectIndices("KTP", [x, y, z]).None?
    ensures "koenig" in PPKTPIndices[1] && SelectIndices("PPKTP", [x, "koenig", z]).None?
    ensures SelectIndices("PPKTP", ["kato", "kato", "fradkin"]) == Some((NxKato, NyKato, NzFradkin))
  {
    assert "koenig" != KoenigName by {
      assert "koenig"[1] != KoenigName[1];
    }
  }

  /** The material state of a RefractiveIndex object and its fixed tables. */
  class Catalogue {
    const materialList: seq<string>
    const availableIndices: seq<CatalogueEntry>
    var material: string

    constructor()
      ensures materialList == StandardMaterials && availableIndices == StandardCatalogue
      ensures material == "PPKTP"
    {
      materialList := StandardMaterials;
      availableIndices := StandardCatalogue;
      material := "PPKTP";
    }

    /** Switch material only to a listed one; an unknown name leaves the state unchanged. */
    method SetMaterial(m: string)
      modifies this
      ensures m in materialList ==> material == m
      ensures m !in materialList ==> material == old(material)
    {
      if m in materialList {
        material := m;
      }
    }

    /** getMaterial: the material SetMaterial last accepted. */
    function GetMaterial(): string
      reads this
    {
      material
    }

    /** The first matching entry's index lists, None (the source's -1) for an unknown material. */
    method GetAvailableRefractiveIndices(m: string) returns (r: Option<seq<seq<string>>>)
      ensures r == Lookup(availableIndices, m)
      ensures r.Some? <==> exists i :: 0 <= i < |availableIndices| && availableIndices[i].name == m
    {
      var success := false;
      var index := 0;
      var i := 0;
      while i < |availableIndices|
        invariant 0 <= i <= |availableIndices|
        invariant !success
        invariant forall k :: 0 <= k < i ==> availableIndices[k].name != m
      {
        if availableIndices[i].name == m {
          index := i;
          success := true;
          break;
        }
        i := i + 1;
      }
      if success {
        LookupFirstMatch(availableIndices, m, index);
        r := Some(availableIndices[index].indices);
      } else {
        r := None;
      }
    }

    /**
     * getIDX: count the axes whose name is recognised and return the
     * triple only when all three were; the wrong length and any crystal
     * other than PPKTP give None.
     */
    method GetIDX(crystaltype: string, idxtype: seq<string>) returns (r: Option<(IndexFormula, IndexFormula, IndexFormula)>)
      ensures r == SelectIndices(crystaltype, idxtype)
    {
      var success := 0;
      if |idxtype| != 3 {
        return None;
      }
      if crystaltype == "PPKTP" {
        var ridx: Option<IndexFormula> := None;
        var ridy: Option<IndexFormula> := None;
        var ridz: Option<IndexFormula> := None;
        if idxtype[0] == "kato" {
          ridx := Some(NxKato);
          success := success + 1;
        }
        if idxtype[1] == KoenigName {
          ridy := Some(NyKoenig);
          success := success + 1;
        } else if idxtype[1] == "kato" {
          ridy := Some(NyKato);
          success := success + 1;
        }
        if idxtype[2] == "fradkin" {
          ridz := Some(NzFradkin);
          success := success + 1;
        } else if idxtype[2] == "kato" {
          ridz := Some(NzKato);
          success := success + 1;
        }
        assert success == (if ridx.Some? then 1 else 0) + (if ridy.Some? then 1 else 0) + (if ridz.Some? then 1 else 0);
        assert ridx == XFormula(idxtype[0]) && ridy == YFormula(idxtype[1]) && ridz == ZFormula(idxtype[2]);
        if success == 3 {
          r := Some((ridx.value, ridy.value, ridz.value));
        } else {
          r := None;
        }
      } else {
        r := None;
      }
    }
  }

  // ---------------------------------------------------------------------
  // Dispersion formulas (wavelength l in micrometres, temperature t in C)
  // ---------------------------------------------------------------------

  /** Thermal-optic fit coefficients (Emanueli and Arie 2003). */
  const A1Z: seq<real> := [9.9587e-6, 9.9228e-6, -8.9603e-6, 4.1010e-6]
  const A2Z: seq<real> := [-1.1882e-8, 10.459e-8, -9.8136e-8, 3.1481e-8]
  const A1Y: seq<real> := [6.2897e-6, 6.3061e-6, -6.0629e-6, 2.6486e-6]
  const A2Y: seq<real> := [-0.14445e-8, 2.2244e-8, -3.5770e-8, 1.3470e-8]

  /** Thermal and Sellmeier coefficients (Kato and Takaoka 2002). */
  const AX: seq<real> := [0.1627, 0.8416, -0.5353, 0.1717]
  const AY: seq<real> := [0.5425, 0.5154, -0.4063, 0.1997]
  const AZ: seq<real> := [-0.1897, 3.6677, -2.9220, 0.9221]
  const FNX: seq<real> := [3.2910, 0.04140, -0.03978, 9.35522, -31.45571]
  const FNY: seq<real> := [3.45018, 0.04341, -0.04597, 16.98825, -39.43799]
  const FNZ: seq<real> := [4.59423, 0.06206, -0.04763, 110.80672, -86.12171]

  /** Thermal-expansion coefficients of KTP and their reference temperature. */
  const TXCa: real := 6.7e-6
  const TXCb: real := 11.0e-9
  const TXrefT: real := 25.0

  /** The cubic a0 + u (a1 + u (a2 + a3 / l)) in u = 1/l, nested as the source writes it. */
  function Horner3(a: seq<real>, l: real): real
    requires |a| == 4 && l != 0.0
  {
    a[0] + (1.0 / l) * (a[1] + (1.0 / l) * (a[2] + a[3] / l))
  }

  /** The nested form is the expanded polynomial a0 + a1 u + a2 u^2 + a3 u^3. */
  lemma Horner3Expanded(a: seq<real>, l: real)
    requires |a| == 4 && l != 0.0
    ensures Horner3(a, l) == a[0] + a[1] * (1.0 / l) + a[2] * ((1.0 / l) * (1.0 / l)) + a[3] * ((1.0 / l) * (1.0 / l) * (1.0 / l))
  {
    Horner3Step(a[0], a[1], a[2], a[3], l, 1.0 / l);
  }

  lemma Horner3Step(a0: real, a1: real, a2: real, a3: real, l: real, u: real)
    requires l != 0.0 && u == 1.0 / l
    ensures a0 + u * (a1 + u * (a2 + a3 / l)) == a0 + a1 * u + a2 * (u * u) + a3 * (u * u * u)
  {
    assert a3 / l == a3 * u;
  }

  /** The second-order temperature correction (t - 25)(f1 + (t - 25) f2) of the Emanueli fits. */
  function QuadraticCorrection(f1: real, f2: real, t: real): real {
    (t - 25.0) * (f1 + (t - 25.0) * f2)
  }

  /** The correction vanishes at 25 C and expands to (t - 25) f1 + (t - 25)^2 f2. */
  lemma QuadraticCorrectionProperties(f1: real, f2: real, t: real)
    ensures QuadraticCorrection(f1, f2, 25.0) == 0.0
    ensures QuadraticCorrection(f1, f2, t) == (t - 25.0) * f1 + (t - 25.0) * (t - 25.0) * f2
  {
  }

  /** Where the Koenig Sellmeier term is defined: l != 0 and its pole denominator is nonzero. */
  predicate KoenigDefined(l: real) {
    l != 0.0 && 1.0 - 0.0467695 / (l * l) != 0.0
  }

  /** Koenig and Wong's Sellmeier term f3 for ny at 25 C. */
  function KoenigSellmeier(tr: Transcendentals, l: real): real
    requires KoenigDefined(l)
  {
    tr.sqrt(Abs(-0.0138408 * l * l + 0.922683 / (1.0 - 0.0467695 / (l * l)) + 2.0993))
  }

  /** PPKTP ny (Koenig fit with Emanueli's temperature correction). */
  function NyKoenigIndex(tr: Transcendentals, l: real, t: real): real
    requires KoenigDefined(l)
  {
    QuadraticCorrection(Horner3(A1Y, l), Horner3(A2Y, l), t) + KoenigSellmeier(tr, l)
  }

  predicate FradkinDefined(l: real) {
    l != 0.0 && 1.0 - 0.0514852 / (l * l) != 0.0 && 1.0 - 100.005 / (l * l) != 0.0
  }

  /** Fradkin et al.'s Sellmeier term f3 for nz at 25 C. */
  function FradkinSellmeier(tr: Transcendentals, l: real): real
    requires FradkinDefined(l)
  {
    tr.sqrt(Abs(-0.00968956 * l * l + 1.18431 / (1.0 - 0.0514852 / (l * l)) + 0.6603 / (1.0 - 100.005 / (l * l)) + 2.12725))
  }

  /** PPKTP nz (Fradkin fit with Emanueli's temperature correction). */
  function NzFradkinIndex(tr: Transcendentals, l: real, t: real): real
    requires FradkinDefined(l)
  {
    QuadraticCorrection(Horner3(A1Z, l), Horner3(A2Z, l), t) + FradkinSellmeier(tr, l)
  }

  /** At 25 C the Koenig and Fradkin indices are their Sellmeier terms; elsewhere they add the correction. */
  lemma EmanueliReference(tr: Transcendentals, l: real, t: real)
    requires KoenigDefined(l) && FradkinDefined(l)
    ensures NyKoenigIndex(tr, l, 25.0) == KoenigSellmeier(tr, l)
    ensures NzFradkinIndex(tr, l, 25.0) == FradkinSellmeier(tr, l)
    ensures NyKoenigIndex(tr, l, t) - NyKoenigIndex(tr, l, 25.0)
         == (t - 25.0) * Horner3(A1Y, l) + (t - 25.0) * (t - 25.0) * Horner3(A2Y, l)
    ensures NzFradkinIndex(tr, l, t) - NzFradkinIndex(tr, l, 25.0)
         == (t - 25.0) * Horner3(A1Z, l) + (t - 25.0) * (t - 25.0) * Horner3(A2Z, l)
  {
    QuadraticCorrectionProperties(Horner3(A1Y, l), Horner3(A2Y, l), t);
    QuadraticCorrectionProperties(Horner3(A1Z, l), Horner3(A2Z, l), t);
  }

  predicate KatoDefined(fn: seq<real>, l: real) {
    |fn| == 5 && l != 0.0 && l * l + fn[2] != 0.0 && l * l + fn[4] != 0.0
  }

  /** Kato and Takaoka's Sellmeier value at 20 C. */
  function KatoSellmeier(tr: Transcendentals, fn: seq<real>, l: real): real
    requires KatoDefined(fn, l)
  {
    tr.sqrt(fn[0] + fn[1] / (l * l + fn[2]) + fn[3] / (l * l + fn[4]))
  }

  /** Kato and Takaoka's dn/dT: (a0 + a1/l + a2/l^2 + a3/l^3) 1e-5 per degree. */
  function KatoSlope(a: seq<real>, l: real): real
    requires |a| == 4 && l != 0.0
  {
    (a[0] + a[1] / l + a[2] / (l * l) + a[3] / (l * l * l)) * 0.00001
  }

  /** n(l, t) = n20(l) + (t - 20) dn/dT(l), the shape of all three Kato formulas. */
  function KatoIndex(tr: Transcendentals, fn: seq<real>, a: seq<real>, l: real, t: real): real
    requires KatoDefined(fn, l) && |a| == 4
  {
    KatoSellmeier(tr, fn, l) + (t - 20.0) * KatoSlope(a, l)
  }

  /** A Kato index is its Sellmeier value at 20 C and changes linearly in t. */
  lemma KatoLinear(tr: Transcendentals, fn: seq<real>, a: seq<real>, l: real, t1: real, t2: real)
    requires KatoDefined(fn, l) && |a| == 4
    ensures KatoIndex(tr, fn, a, l, 20.0) == KatoSellmeier(tr, fn, l)
    ensures KatoIndex(tr, fn, a, l, t1) - KatoIndex(tr, fn, a, l, t2) == (t1 - t2) * KatoSlope(a, l)
  {
  }

  /** Where a formula can be evaluated without dividing by zero. */
  predicate Defined(f: IndexFormula, l: real) {
    match f
    case NxKato => KatoDefined(FNX, l)
    case NyKato => KatoDefined(FNY, l)
    case NzKato => KatoDefined(FNZ, l)
    case NyKoenig => KoenigDefined(l)
    case NzFradkin => FradkinDefined(l)
  }

  /** The refractive index a formula name stands for (PPKTP_nx_kato, ..., PPKTP_nz_fradkin). */
  function Evaluate(tr: Transcendentals, f: IndexFormula, l: real, t: real): real
    requires Defined(f, l)
  {
    match f
    case NxKato => KatoIndex(tr, FNX, AX, l, t)
    case NyKato => KatoIndex(tr, FNY, AY, l, t)
    case NzKato => KatoIndex(tr, FNZ, AZ, l, t)
    case NyKoenig => NyKoenigIndex(tr, l, t)
    case NzFradkin => NzFradkinIndex(tr, l, t)
  }

  /** Every formula's value at its fit's reference temperature is its Sellmeier term. */
  lemma EvaluateAtReference(tr: Transcendentals, f: IndexFormula, l: real)
    requires Defined(f, l)
    ensures f.NyKoenig? ==> Evaluate(tr, f, l, 25.0) == KoenigSellmeier(tr, l)
    ensures f.NzFradkin? ==> Evaluate(tr, f, l, 25.0) == FradkinSellmeier(tr, l)
    ensures f.NxKato? ==> Evaluate(tr, f, l, 20.0) == KatoSellmeier(tr, FNX, l)
    ensures f.NyKato? ==> Evaluate(tr, f, l, 20.0) == KatoSellmeier(tr, FNY, l)
    ensures f.NzKato? ==> Evaluate(tr, f, l, 20.0) == KatoSellmeier(tr, FNZ, l)
  {
    match f
    case NyKoenig => QuadraticCorrectionProperties(Horner3(A1Y, l), Horner3(A2Y, l), 25.0);
    case NzFradkin => QuadraticCorrectionProperties(Horner3(A1Z, l), Horner3(A2Z, l), 25.0);
    case _ =>
  }

  /** Relative length change of KTP: 1 + a (T - 25) + b (T - 25)^2. */
  function ThermExpFactor(temp: real): real {
    1.0 + TXCa * (temp - TXrefT) + TXCb * (temp - TXrefT) * (temp - TXrefT)
  }

  /** No expansion at the reference temperature, and the factor is positive at every temperature. */
  lemma ThermExpFactorProperties(temp: real)
    ensures ThermExpFactor(TXrefT) == 1.0
    ensures ThermExpFactor(temp) > 0.0
  {
    QuadraticPositive(temp - TXrefT);
  }

  lemma QuadraticPositive(x: real)
    ensures 1.0 + TXCa * x + TXCb * x * x > 0.0
  {
    if x >= 0.0 {
      assert x * x >= 0.0;
    } else if x > -100000.0 {
      assert TXCa * x > -1.0;
      assert x * x >= 0.0;
    } else {
      assert x * x >= -100000.0 * x;
      assert TXCb * (x * x) >= TXCb * (-100000.0 * x);
    }
  }
}
