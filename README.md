# QPMsimitar core in Dafny

This project models the computational core of QPMsimitar, a simulator of
spontaneous parametric down-conversion in periodically poled KTP (PPKTP).
It covers these parts:

- **Filters** (`Filters.py`): the spectral filter catalogue. It holds the
  "no filter", rectangular and Gaussian transmission functions, the closures
  that fix their centre and width, and the name dispatch `getFilterFunction`.
- **Refractive indices** (`RefractiveIndex.py`): the material catalogue, the
  guarded `setMaterial`, `getAvailableRefractiveIndices`, and the validation
  in `getIDX`. Also the algebraic structure of the five KTP dispersion
  formulas (Koenig, Fradkin and Kato fits with the Emanueli temperature
  correction) and the thermal-expansion factor.
- **JSI engine** (`JSI.py`): the bookkeeping of the `JSI` class. This covers:
  - energy conservation (`econv`, `lambdap`);
  - the pump envelopes at their peak;
  - the pump-shape name dispatch;
  - the built-in signal filter;
  - the nested loop that builds the filter matrix and the weighting it applies;
  - the purity sweeps over pulse width and crystal length;
  - the warm-started crossing-point sweeps;
  - the thread pool and post-processing of the Hong-Ou-Mandel (HOM) dip;
  - the FWHM scan of the joint spectral intensity.
- **Schmidt purity** (module `Schmidt`): the reduction
  `sum((s / norm(s))**4)` of a singular-value vector, shared by `JSI.py` and
  `purity.py`.
- **Purity script** (`purity.py`):
  - its default settings and its own copies of `ny`, `nz` and `filterfunction`;
  - the scaling by thermal expansion, the pulse-width and wavelength grids,
    and the filter-matrix loop;
  - the purity sweep for sech² and Gaussian pulses, amplitude and intensity.
- **Settings table** (`Settings.py`): the list of `[key, value]` rows, its
  `find` (searching keys *and* values with Python `==`), `set`, `get`, the
  merge loop of `loadSettings`, and `standardSettings`.

Python's conventions become explicit values:

- `None`, `-1` and NaN results become `Option`.
- Exceptions become `Result` with the Python error's name.
- A settings value is `Str`, `Num`, `Bool` or `Null` (Python's `None`).
  Comparison follows Python: `True == 1 == 1.0`, a string equals only a
  string, and `None` equals only `None`.
- A spectrum grid follows `numpy.meshgrid(signalrange, idlerrange)`: cell
  `[a][b]` belongs to signal `sig[b]` and idler `id[a]`.

Wavelengths and temperatures are exact reals. The transcendental functions
(square root, exp, log, cosh, sinc), the singular-value decomposition and
the root searches (`fsolve`, and `interp1d` with `fsolve` for the HOM dip
width) are parameters of the model. What is assumed about the
transcendental functions is stated as preconditions, where it is used:

- `exp(0) = cosh(0) = sinc(0) = 1` (`Numerics.Anchored`);
- `sqrt(2 ln 2)² = 2 ln 2` with `ln 2 ≠ 0` (`Filters.ConsistentAtLn2`);
- `1.17 < sqrt(2 ln 2) < 1.18` in `Filters.GaussianWidthDiscrepancy`, and
  `ln 2 > 0.5` in one clause of `Filters.GaussianHalfWidthAsWritten`;
- a nonzero Gaussian width `s` wherever the Gaussian filter is evaluated,
  because the source divides by `2 s²`.

Module layout: `Wrappers`, `Numerics` and `Text` are shared utilities.
`Filters`, `RefractiveIndex`, `Schmidt`, `JsiAlgebra` (the exact algebra of
`JSI.py`), `JsiEngine` (the `JSI` object and its loops), `PurityScript` and
`SettingsTable` follow the source files.

Some behaviour is modelled as written and shown by a lemma rather than
corrected, because it is not evidently unintended:

- `getIDX` accepts `'könig'` (with an umlaut), while the catalogue offers
  `'koenig'`. `getIDX` also rejects the listed material KTP
  (`RefractiveIndex.CatalogueNamesRejected`).
- `Settings.find` also matches values, so `set` and `get` can act on the
  wrong row (`SettingsTable.SetMatchesValues`,
  `SettingsTable.MergeFollowsValues`).
- `getMaterial` and `getMaterialList` are the field reads `material` and
  `materialList` of `RefractiveIndex.Catalogue`.

## Model

| member | source | states |
|---|---|---|
| Filters.NoFilterOnlyWl | Filters.py:19-25 | the closure is nofilter with cwl and fwhm bound, and transmits 1 at every wavelength |
| Filters.RectangularFilter | Filters.py:27-31 | the transmission is 0 or 1, and it is 1 exactly on the closed band cwl - fwhm/2 <= wl <= cwl + fwhm/2 |
| Filters.RectangularSymmetric | Filters.py:27-31 | the rectangular filter is mirror-symmetric about its centre |
| Filters.RectangularEdges | Filters.py:28 | both band edges transmit (the test is a strict >); a point just outside blocks |
| Filters.RectangularFilterOnlyWl | Filters.py:33-36 | the closure agrees with rectangularfilter at every wavelength |
| Filters.GaussianWidthAsWrittenRatio | Filters.py:40 | the width as written, fwhm/2*sqrt(2 ln 2), is the intended fwhm/(2 sqrt(2 ln 2)) times 2 ln 2 |
| Filters.GaussianWidthDiscrepancy | Filters.py:40 | for fwhm = 2 the width as written exceeds 1, while the intended width is below 1, so they differ |
| Filters.GaussianHalfMaximum | Filters.py:39-41 | with the corrected width, the filter at cwl ± fwhm/2 is exp(-ln 2), i.e. half its peak: fwhm really is the full width at half maximum |
| Filters.GaussianHalfWidthAsWritten | Filters.py:39-41 | gaussianfilter as written gives exp(-1/(4 ln 2)) at cwl ± fwhm/2, and for ln 2 > 1/2 that exponent is not the -ln 2 of a half maximum |
| Filters.GaussianDependsOnOffsetSquared | Filters.py:41 | for every nonzero width s, the Gaussian depends on the wavelength only through the squared offset from cwl |
| Filters.GaussianSymmetric | Filters.py:41 | for every nonzero width s, the Gaussian is mirror-symmetric about cwl |
| Filters.GaussianMirror | Filters.py:41 | for every nonzero width s, two wavelengths at equal distance on either side of cwl pass equally |
| Filters.GaussianPeak | Filters.py:41 | for every nonzero width s, the filter at cwl is exp(0), which is 1 |
| Filters.GaussianAsWrittenShape | Filters.py:39-41 | gaussianfilter with its width as written is symmetric about cwl, equal at mirrored wavelengths, a function of the squared offset, and exp(0) at cwl |
| Filters.GaussianFilterOnlyWl | Filters.py:43-46 | the closure agrees at every wavelength with gaussianfilter as written, whose width is fwhm/2·sqrt(2 ln 2) |
| Filters.GetFilterFunction | Filters.py:9-16 | a filter is returned exactly for 'Rectangular' and 'Gaussian', and it is the matching closure (the Gaussian one with the width as written); 'None' and every other name give None |
| Filters.FilterListMatchesDispatch | Filters.py:7-16 | FilterList has three names; a name is listed exactly when it is 'None' or the dispatch returns a filter for it |
| Filters.DispatchIsCaseSensitive | Filters.py:13-16 | the lower-case names 'rectangular' and 'gaussian' select no filter |
| RefractiveIndex.Lookup | RefractiveIndex.py:28-39 | the result is None (the source's -1) exactly when no catalogue entry has that material name |
| RefractiveIndex.LookupFirstMatch | RefractiveIndex.py:30-36 | the answer is the index lists of the first entry with the name |
| RefractiveIndex.StandardLookup | RefractiveIndex.py:9-13 | the standard catalogue answers PPKTP and KTP with their lists, and no other material |
| RefractiveIndex.SelectIndicesIff | RefractiveIndex.py:41-80 | getIDX succeeds exactly for three names, crystal PPKTP, x = kato, y in {könig, kato} and z in {fradkin, kato}; then y is Koenig exactly for könig and z is Fradkin exactly for fradkin |
| RefractiveIndex.CatalogueNamesRejected | RefractiveIndex.py:47-59 | KTP is listed but rejected by getIDX; the offered y-name 'koenig' is rejected because getIDX expects 'könig'; [kato, kato, fradkin] is accepted |
| RefractiveIndex.Catalogue.constructor | RefractiveIndex.py:4-13 | the material list is [PPKTP, KTP], the catalogue holds both index tables, and the material is PPKTP |
| RefractiveIndex.Catalogue.SetMaterial | RefractiveIndex.py:16-20 | a listed material is stored; any other name leaves the material unchanged |
| RefractiveIndex.Catalogue.GetAvailableRefractiveIndices | RefractiveIndex.py:28-39 | the search loop returns the first matching entry's lists, and None exactly when no entry matches |
| RefractiveIndex.Catalogue.GetIDX | RefractiveIndex.py:41-80 | the success counter reaches 3 exactly when the selection SelectIndices accepts; any wrong length or crystal gives None |
| RefractiveIndex.Horner3Expanded | RefractiveIndex.py:114-115 | the nested f1/f2 expression equals the cubic a0 + a1/l + a2/l² + a3/l³ |
| RefractiveIndex.QuadraticCorrectionProperties | RefractiveIndex.py:117 | the temperature correction (t-25)(f1 + (t-25) f2) vanishes at 25 C and equals (t-25) f1 + (t-25)² f2 |
| RefractiveIndex.EmanueliReference | RefractiveIndex.py:111-127 | at 25 C ny_koenig and nz_fradkin equal their Sellmeier terms; elsewhere they differ from them by exactly the quadratic correction |
| RefractiveIndex.KatoLinear | RefractiveIndex.py:130-155 | a Kato index equals its Sellmeier value at 20 C and changes linearly in temperature with slope dn/dT |
| RefractiveIndex.EvaluateAtReference | RefractiveIndex.py:111-155 | each of the five formulas getIDX can select equals its Sellmeier term at its fit's reference temperature |
| RefractiveIndex.ThermExpFactorProperties | RefractiveIndex.py:158-159 | the thermal-expansion factor is 1 at the reference temperature 25 C and positive at every temperature |
| Numerics.Max | JSI.py:844 | the maximum is an element of the sequence and no element exceeds it |
| Numerics.Min | JSI.py:844 | the minimum is an element of the sequence and no element is below it |
| Numerics.SpreadNonNegative | JSI.py:918-919 | max - min of a non-empty sequence is nonnegative |
| Numerics.Scale | JSI.py:554 | the scaled range has the same length and entry k is s[k] times the factor |
| Text.CasefoldLowerAscii | JSI.py:382 | casefold leaves lower-case ASCII names unchanged |
| Text.CasefoldCapitalised | JSI.py:382 | casefold lowers a leading ASCII capital |
| Schmidt.Purity | JSI.py:507-511 | purity is undefined (NaN) exactly when every singular value is zero; otherwise it lies in (0, 1] and equals 1 exactly when one singular value is nonzero |
| Schmidt.NormalizedQuarticScales | JSI.py:509-511 | the sum of (s/n)^4 is the sum of s^4 over n^4 |
| Schmidt.NormalizedPurity | JSI.py:509-511 | normalising by the 2-norm and summing fourth powers gives Purity |
| Schmidt.SquareOfSumBound | JSI.py:511 | (sum s²)² >= sum s⁴, with equality exactly when at most one entry is nonzero |
| Schmidt.PurityBounds | JSI.py:511 | for a nonzero vector the ratio lies in (0, 1] and is 1 exactly when one entry is nonzero |
| JsiAlgebra.EconvAtLambdaP | JSI.py:48-49 | econv vanishes at the pump wavelength lambdap returns |
| JsiAlgebra.EconvZeroIff | JSI.py:48-49 | econv(lp, ls, li) = 0 exactly when lp = lambdap(ls, li) |
| JsiAlgebra.LambdaPDegenerate | JSI.py:106-107 | equal signal and idler wavelengths x need the pump at x/2 |
| JsiAlgebra.LambdaPSymmetric | JSI.py:106-107 | lambdap does not depend on which photon is the signal |
| JsiAlgebra.LambdaPBelowBoth | JSI.py:106-107 | for positive wavelengths the pump wavelength is positive and below both down-converted wavelengths |
| JsiAlgebra.EnvelopesPeakAtEnergyConservation | JSI.py:142-144 | at the energy-conserving pump wavelength the detuning is 0, and PEAgauss, PEAsech and PEAsinc (lines 199-202, 255-260) all equal 1 |
| JsiAlgebra.ShapeDispatchesAgree | JSI.py:558-566 | the strict dispatch of getpurity_vsL agrees with the lenient one of getplots on every name it accepts; the lenient one sends every other name to sech² |
| JsiAlgebra.GaussianNameResolves | JSI.py:382-383 | 'Gaussian' selects the Gaussian pump in both dispatches |
| JsiAlgebra.SechNameResolves | JSI.py:563-564 | 'Sech^2' selects the sech² pump in both dispatches |
| JsiAlgebra.SincNameResolves | JSI.py:384-385 | 'Sinc' selects the sinc pump in both dispatches |
| JsiAlgebra.BareSechName | JSI.py:558-566 | 'sech' is sech² for the lenient dispatch and no shape for the strict one |
| JsiAlgebra.FilterFunctionSignalOnly | JSI.py:308-332 | the active branch transmits 0 or 1, 1 exactly on lc - bwh <= ls <= lc + bwh, ignores the idler, and is a rectangular filter of width 2 bwh |
| JsiAlgebra.Mesh | JSI.py:389 | the meshgrid has one row per idler and one column per signal, and cell [a][b] is f(sig[b], id[a]) |
| JsiAlgebra.FilterMatrixEntries | JSI.py:425-430 | the filter matrix has len(signalrange) rows of len(idlerrange) entries, and entry [i][j] is the weight of (sig[i], id[j]) |
| JsiAlgebra.ApplyFilterMatrix | JSI.py:431 | applying the intended matrix (the signal-major matrix read transposed, to match the meshgrid) keeps the spectrum's shape |
| JsiAlgebra.FilteredMesh | JSI.py:425-431 | after the intended filtering, every cell (signal b, idler a) is weighted by the signal filter at sig[b] times the idler filter at id[a] |
| JsiAlgebra.NoFiltersWeightOne | JSI.py:415-416 | with both slots empty, the weight is 1 |
| JsiAlgebra.OneFilterWeight | JSI.py:423-428 | with one slot empty (read as no filter), the weight is the other filter's transmission |
| JsiAlgebra.FilterMatrixAsWrittenRaises | JSI.py:423-428 | the loop as written raises TypeError exactly when one slot is None and the grid has a cell; otherwise it builds the intended matrix |
| JsiAlgebra.SignalFilterAloneRaises | JSI.py:415-431 | a rectangular signal filter with idler slot None raises TypeError on a one-point grid, where the intended matrix is [[1]] |
| JsiAlgebra.ApplyElementwiseAsWritten | JSI.py:431 | numpy's elementwise product keeps the square grid's shape |
| JsiAlgebra.ElementwiseAsWrittenTransposes | JSI.py:425-431 | on square grids the elementwise product weights cell [a][b] by sf(sig[a]) * idf(id[b]), the filters at the transposed wavelengths |
| JsiAlgebra.DemoSpectrum | JSI.py:389 | the example spectrum is a flat 2x2 meshgrid |
| JsiAlgebra.DemoFilterMatrix | JSI.py:425-430 | the example filter matrix passes signal 1 (row 0) and blocks signal 2 (row 1) |
| JsiAlgebra.DemoIntended | JSI.py:425-431 | the intended weighting keeps the cell of signal 1 and blocks the cell of signal 2 |
| JsiAlgebra.DemoGetplots | JSI.py:431 | getplots' product keeps cell [0][1], whose signal 2 the filter blocks |
| JsiAlgebra.DemoVsTau | JSI.py:497-503 | getpurity_vsTau's swapped-role matrix blocks cell [0][0], whose signal 1 the filter passes |
| JsiAlgebra.DemoVsL | JSI.py:588-595 | getpurity_vsL's single surviving row blocks cell [0][0] as well |
| JsiAlgebra.FilterBlocksMisweight | JSI.py:491-503 | together: on the example, the intended weighting differs from each of the three filter blocks as written |
| JsiAlgebra.HomNormalizeBounds | JSI.py:841 | each HOMI value is at most 1/2, equals 1/2 exactly where the overlap vanishes, and is nonnegative exactly where the overlap is at most the norm in magnitude |
| JsiAlgebra.VisibilityBounds | JSI.py:844 | for a nonnegative dip with a positive maximum the visibility lies in [0, 1]; it is 0 exactly for a flat curve and 1 exactly when the curve touches 0 |
| JsiAlgebra.HalvesRejoin | JSI.py:847-850 | the negative and positive halves concatenate to the delay axis; the positive half is at most one longer |
| JsiAlgebra.Offset | JSI.py:851-852 | every HOMI value is shifted by the same constant (-1/4) |
| JsiAlgebra.HomWidth | JSI.py:847-858 | the dip width fails with ValueError exactly when there are fewer than four delays (interp1d needs two points per half) |
| JsiAlgebra.HomWidthSeeds | JSI.py:853-854 | the two root searches start at delay indices floor(n/4) and floor(n/2) + floor((n - floor(n/2))/2) |
| JsiEngine.BuildFilterMatrix | JSI.py:425-430 | the nested append loop builds the intended matrix: len(sig) rows of len(id) entries, entry [i][j] being the weight of (sig[i], id[j]), with a None slot read as no filter |
| JsiEngine.PuritySweep | JSI.py:479-511 | one purity per sweep point, in sweep order, each the Schmidt purity of that point's singular values |
| JsiEngine.PurityVsTauSweep | JSI.py:481-511 | purity k is the Schmidt purity of the amplitude grid at pulse width taurange[k], weighted by the intended matrix (None read as no filter) when filtering is on |
| JsiEngine.PurityVsLSweep | JSI.py:572-603 | purity k is the Schmidt purity of the amplitude grid at crystal length Lrange[k], weighted by the intended matrix (None read as no filter) when filtering is on |
| JsiEngine.WarmStartSweep | JSI.py:624-632 | one result per point; point 0 is seeded with the start temperature and each later point with its predecessor's result |
| JsiEngine.RunPool | JSI.py:837-839 | whatever order the tasks finish in, result k is task k's result |
| JsiEngine.RowHitsMembership | JSI.py:911 | a cell is listed for row i exactly when it is in that row and rounds to zero |
| JsiEngine.HitsSound | JSI.py:911 | every cell np.where lists lies in the grid and rounds to zero |
| JsiEngine.HitsComplete | JSI.py:911 | every cell of the grid that rounds to zero is listed |
| JsiEngine.HitsMembership | JSI.py:911 | np.where lists a cell exactly when it lies in the grid and rounds to zero |
| JsiEngine.HitsInRange | JSI.py:911-914 | every listed index pair indexes the signal and the idler grid |
| JsiEngine.SignalNm | JSI.py:913 | one signal wavelength per listed cell |
| JsiEngine.IdlerNm | JSI.py:914 | one idler wavelength per listed cell |
| JsiEngine.SignalNmAppend | JSI.py:912-913 | one more listed cell appends its signal wavelength in nm |
| JsiEngine.IdlerNmAppend | JSI.py:912-914 | one more listed cell appends its idler wavelength in nm |
| JsiEngine.TauSpreadsNonNegative | JSI.py:916-919 | a pulse width's contribution is a pair of spreads max - min, both nonnegative |
| JsiEngine.TauSpreadsSomeIff | JSI.py:910-919 | a pulse width contributes exactly when some cell of its grid rounds to zero |
| JsiEngine.NoZeroCellNoWidth | JSI.py:916-919 | a pulse width without zero cells leaves fwhmsig and fwhmid as they were |
| JsiEngine.FwhmWidthsProperties | JSI.py:878-919 | fwhmsig and fwhmid have equal length, at most one entry per pulse width, and every entry is nonnegative |
| JsiEngine.FwhmWidthsAppend | JSI.py:884-919 | one more pulse width appends exactly its own contribution |
| JsiEngine.CollectHalfMaximum | JSI.py:906-914 | the index loop appends, in np.where order, the signal and idler wavelength in nm of every zero cell |
| JsiEngine.CollectedSpreads | JSI.py:916-919 | the collected lists have equal length; empty lists add nothing, otherwise the contribution is their two spreads |
| JsiEngine.AppendHalfMaximumWidths | JSI.py:906-919 | one pass of the loop appends the pulse width's contribution to fwhmsig and fwhmid |
| JsiEngine.FwhmSweep | JSI.py:884-919 | the loop over the pulse widths returns the widths FwhmWidths specifies |
| JsiEngine.PlotsFilterMatrix | JSI.py:425-430 | with both filters given, the stored matrix has len(signalrange) rows and entry [i][j] is idlerf(id[j]) * signalf(sig[i]) |
| JsiEngine.PlotsCells | JSI.py:389-431 | with the intended filtering, getplots' joint spectrum at cell (signal b, idler a) is the JSA or JSI there, weighted by the filters at that cell's own wavelengths; PE is the envelope or its square |
| JsiEngine.Unfiltered | JSI.py:389-411 | the unfiltered joint spectrum has one row per idler and one column per signal |
| JsiEngine.Overlaps | JSI.py:837-839 | one overlap per delay, entry k being homf at delay k |
| JsiEngine.SplineRejects | JSI.py:517 | the cubic spline refuses fewer than four points and a range whose second point does not exceed its first, such as a descending numpy.arange; an increasing four-point range is accepted |
| JsiEngine.Engine.constructor | JSI.py:16-41 | the defaults: filter off, 'rectangular', 775 nm, 2 ps, order -1, 46.2 um, 25 C, 30 mm, JSI mode, no autocorrelation factor |
| JsiEngine.Engine.SetShapeFlagsWithSechDefault | JSI.py:379-387 | exactly the flag of the lenient dispatch is set, and the selected shape is that dispatch's shape |
| JsiEngine.Engine.SetShapeFlagsStrict | JSI.py:558-566 | the flag of the recognised name is set and no flag for any other name |
| JsiEngine.Engine.StoreSettings | JSI.py:357-370 | grids, pump, order, temperature and shape name are stored; the poling period is scaled once by the thermal expansion at temp |
| JsiEngine.Engine.SetMode | JSI.py:372-377 | exactly one of calcJSA and calcJSI is set, with calcJSI = plotJSI |
| JsiEngine.Engine.SetFilters | JSI.py:415-430 | useFilter holds exactly when a slot is given; it then stores both slots and the intended filter matrix over the stored grids; otherwise the matrix and slots are unchanged |
| JsiEngine.Engine.RefreshFilters | JSI.py:491-502 | only while useFilter is set, both slots are stored and, unless both are None, the intended matrix is stored |
| JsiEngine.Engine.SetUpPlots | JSI.py:357-387 | getplots' stored settings: poling period and length scaled once, mode and shape flags |
| JsiEngine.Engine.GetPlots | JSI.py:340-433 | the settings, mode, shape flags and filter state as stored by getplots, and the result is the meshgrid spectra with the JS grid filtered when a slot is given |
| JsiEngine.Engine.SetUpVsTau | JSI.py:452-502 | the stored settings and shape flags; tau is the last pulse width; the filter block runs only if useFilter was already set, and stores the intended matrix |
| JsiEngine.Engine.GetPurityVsTau | JSI.py:435-524 | the stored state as above; an empty range raises IndexError and any other range the spline refuses (fewer than four points, or not strictly increasing) raises ValueError; otherwise purity k is the Schmidt purity of the grid at taurange[k], filtered with the intended matrix only if useFilter was already set and a slot is given |
| JsiEngine.Engine.SetUpVsL | JSI.py:543-595 | the stored settings, the lengths scaled by the thermal expansion, the strict shape flags; L is the first length for an unknown shape and the last length otherwise; the filter block stores the intended matrix |
| JsiEngine.Engine.GetPurityVsL | JSI.py:526-616 | an empty range raises IndexError; an unknown shape raises UnboundLocalError; a scaled length range the spline refuses (fewer than four points, or not strictly increasing) raises ValueError; otherwise purity k is the Schmidt purity of the grid at Lrange[k] |
| JsiEngine.Engine.GetTcpVslp | JSI.py:618-634 | PP, T and m are stored unscaled; crossing point j is solved at pump wavelength j, seeded by temp, then by the previous result |
| JsiEngine.Engine.GetTcpVsPP | JSI.py:636-652 | pwl, T and m are stored; crossing point j is solved at poling period j with the same warm start |
| JsiEngine.Engine.GetHOMInterference | JSI.py:819-862 | fewer than four delays raise ValueError; otherwise HOMI is 0.5 - 0.5 abs(overlap/norm) per delay in submission order, with its visibility and dip width |
| JsiEngine.Engine.GetFWHMvsTau | JSI.py:864-921 | the filter is switched off and the strict shape flags are set; an unknown shape raises UnboundLocalError at the first pulse width; otherwise the result is FwhmWidths at the pwl argument and polingp scaled by the thermal expansion; the stored pwl is unchanged |
| SettingsTable.PyEqSymmetric | Settings.py:106 | Python value equality, as list.index uses it, is symmetric |
| SettingsTable.Column | Settings.py:106-108 | list.index finds the element exactly when the row contains it; column 0 when the key equals it, column 1 when only the value does |
| SettingsTable.Locate | Settings.py:103-110 | find returns None (-1) exactly when no row contains the element; otherwise the row holds it at that column and no earlier row contains it |
| SettingsTable.LocateAt | Settings.py:103-110 | the first row containing the element is the one find reports |
| SettingsTable.AssignFrame | Settings.py:94-96 | set keeps the length and every key, changes only the found row's value, and changes nothing when find fails |
| SettingsTable.LookupAfterAssign | Settings.py:94-101 | get of a key not found raises TypeError; after set on a key found as a key, get returns the new value |
| SettingsTable.SetMatchesValues | Settings.py:94-110 | in [["a","b"],["b",1]], set("b", 2) overwrites the value of row "a", and get("b") still returns 1 |
| SettingsTable.KeyedLocate | Settings.py:103-110 | in a table with distinct string keys that no value equals, find of row i's key is (i, 0) |
| SettingsTable.AssignKeepsWellKeyed | Settings.py:94-96 | setting a value that equals no key keeps the table well-keyed |
| SettingsTable.MergedFrame | Settings.py:83-89 | the merge keeps the length and every key |
| SettingsTable.MergedLastWins | Settings.py:83-89 | on a well-keyed table with no loaded value equal to a key, each row ends with the last loaded value for its key, or its default |
| SettingsTable.LastLoadedFrom | Settings.py:83-89 | the merged value of a key is its default or the value of some loaded row |
| SettingsTable.MergeFollowsValues | Settings.py:83-89 | loading ["kato", 5] overwrites the row whose value is "kato" |
| SettingsTable.StandardWellKeyed | Settings.py:21-74 | the standard table has 41 rows with distinct string keys, and no value equals a key |
| SettingsTable.StandardLookups | Settings.py:21-74 | get("QPM Order") is -1 and get("Pump pulse shape") is "Sech^2" |
| SettingsTable.StandardLocate | Settings.py:21-74 | find of any standard key is (its row, 0) |
| SettingsTable.Settings.constructor | Settings.py:7-8 | a new object has an empty table |
| SettingsTable.Settings.StandardSettings | Settings.py:19-74 | the table becomes the standard table |
| SettingsTable.Settings.Find | Settings.py:103-110 | the early-return loop returns what Locate specifies |
| SettingsTable.Settings.Set | Settings.py:94-96 | a key not found raises TypeError and leaves the table; otherwise the table becomes Assign of the old one |
| SettingsTable.Settings.Get | Settings.py:99-101 | the result is Lookup of the table |
| SettingsTable.Settings.MergeLoaded | Settings.py:83-89 | the merge loop leaves Merged(old table, loaded rows) |
| PurityScript.ScriptIndices | purity.py:116-130 | at 25 C the script's ny and nz are their Sellmeier terms; its ny equals RefractiveIndex's ny_koenig at l·10⁶ |
| PurityScript.NzPoleDiffers | purity.py:129 | the script's pole constant 100.00507 gives a different pole term from RefractiveIndex.py's 100.005 at every wavelength |
| PurityScript.FilterFunction | purity.py:304-328 | the active branch transmits 0 or 1, 1 exactly when the idler lies in lc ± bwh |
| PurityScript.FilterFunctionIsIdlerRectangle | purity.py:324-328 | the script's filter is Filters' rectangle of width 2 bwh around lc applied to the idler |
| PurityScript.Linspace | purity.py:350 | numpy.linspace gives n points from lo and, for n >= 2, ending at hi |
| PurityScript.WavelengthGridProperties | purity.py:351-353 | the grid has numpts points from 2 pwl - wlrange/2 nm to 2 pwl + wlrange/2 nm, strictly rising for a positive range, symmetric about 2 pwl |
| PurityScript.ScriptFilterMatrix | purity.py:356-362 | len(signalrange) rows of len(idlerrange) entries, entry [i][j] = filterfunction(sig[i], id[j]) |
| PurityScript.BuildFilterMatrix | purity.py:356-362 | the nested loop builds ScriptFilterMatrix |
| PurityScript.ElementwiseAsWritten | purity.py:381 | the elementwise product keeps the square grid's shape |
| PurityScript.MatchedFilter | purity.py:380-383 | the corrected product keeps the spectrum's shape |
| PurityScript.MatchedFilterWeighsIdler | purity.py:380-383 | the corrected product weights cell (signal b, idler a) by filterfunction(sig[b], id[a]), a test on the idler |
| PurityScript.ElementwiseWeighsSignal | purity.py:381 | as written, cell (signal b, idler a) is weighted by filterfunction(g[a], g[b]), a test on the signal |
| PurityScript.FilterOnSignalAxis | purity.py:381 | on the grid [lc, lc + 10 nm] with a flat spectrum, the product as written zeroes a cell the idler filter passes and keeps a cell it blocks |
| PurityScript.Spectrum | purity.py:376-379 | the JSA (or, for intensity, its square) on the meshgrid has one row per idler |
| PurityScript.PurityAt | purity.py:376-403 | the spectrum, with usefilter multiplied elementwise by the filter matrix as written, reduces to a purity that, when defined, lies in (0, 1] |
| PurityScript.PurityPoint | purity.py:376-403 | the point's purity is PurityAt, the filter matrix applied by the elementwise product `Z*filtermatrix` |
| PurityScript.SweepPurities | purity.py:369-419 | one purity per pulse width, in order, each PurityAt that width |
| PurityScript.PuritySweep | purity.py:365-419 | purityA is always filled; purityI, purityAg and purityIg are filled exactly under includeintensity, includegauss and both, and are otherwise empty |
| PurityScript.RunScript | purity.py:348-419 | the poling period and length are scaled once at T; the tau range and both grids are the linspaces; the filter matrix exists exactly when usefilter; the four purity lists are as PuritySweep states, filtered by the elementwise product as written |
| PurityScript.ScriptEnergyConservation | purity.py:190-191 | for positive wavelengths lambdap is defined and lies below both, and econv vanishes there |
| PurityScript.ScriptThermExpFactor | purity.py:136-141 | source 1's temperature is 23.7 C, below the 25 C reference (factor < 1); source 2's 25.15 C is above it (factor > 1) |

## Left out

- The GUI, `PMC.py`, `Crystal.py`, `Constants.py`, `QTreimps.py` and `Multiphoton.py` are not part of this model.
- Square root, exp, log, cosh, arccosh and sinc are abstract fields of the `Transcendentals` parameter. Floating point is replaced by exact reals.
- The singular-value decomposition and `fsolve` are function parameters; `interp1d` with `fsolve` for the HOM dip width is the `root` parameter of `HomWidth`.
- `InterpolatedUnivariateSpline` is modelled only by the x values it accepts (`JsiEngine.SplineAccepts`: at least four, strictly increasing; any other range raises ValueError). So getpurity_vsTau/vsL return only the purity list, not the spline maximum or its position.
- JsiEngine.Engine.GetHOMInterference: requires a nonzero norm. In the source, norm is `np.sum(jsi)`; for an all-zero spectrum the division at JSI.py:841 gives NaN values and raises nothing. The model does not represent that all-NaN result.
- `simpson` and the overlap integral `homf` are the `overlap` parameter of getHOMinterference. `newton_krylov` is only reached through `GetEffectivePP`, which is left out with it.
- `pconv`, `deltak`, `PMA` and the `JSA*`/`JSI*` formulas are the `Physics` parameter of the engine and the `Amplitude` parameter of the purity script. Only the pump envelopes' values at energy conservation are stated.
- `epconvonlywl`, `SIwls`, `wlgap`, `wlgaponlyT`, `wlgaponlyPP` and `GetEffectivePP` are only reached through the root-search parameter `solve`.
- `round(decprec)` in getFWHMvstau is the zero-test parameter `cells`.
- The thread pool of getHOMinterference is modelled by its finishing order. Real concurrency and timing (`datetime`) are left out.
- Printing, plotting and saving (purity.py lines 331-346 and 422-501, the `print` calls) are left out.
- The commented-out methods and `if 0:` branches are left out.
- Settings file I/O is left out: `saveSettings`, and the YAML parsing and `Path.is_file` test of `loadSettings`. The merge loop is modelled on the parsed rows.
- The Settings constructor leaves `config` unset, so a `get` before `standardSettings` raises AttributeError. The model starts with an empty table, where that `get` raises TypeError.
- Python ints and floats are merged into one `Num` value, so `1` and `1.0` are the same value.
- Rows are values, not shared lists. Aliasing between `config` rows and other references is not modelled.
- The `refidxfunc` functions of the engine are not stored fields; they are part of `Physics`.
- SettingsTable.LookupAfterAssign: states get-after-set only when the key is found as a key or the new value equals the key. When `find` matches a value first, get returns another row's value (SetMatchesValues); no stronger statement holds for the code as written.
- PurityScript.NzPoleDiffers: the pole constants of purity.py (100.00507) and RefractiveIndex.py (100.005) differ. The model keeps both and proves the pole terms differ; it does not bound how far the indices differ, because the square root is abstract.
- JsiEngine.Engine.GetPlots: models the filtering as intended: None read as no filter, and the signal-major matrix matched to the meshgrid's idler-major cells. The code as written is modelled separately; see Findings.
- JsiEngine.Engine.GetPurityVsTau: the filter block uses the intended matrix. The swapped-role matrix as written is FilterMatrixVsTauAsWritten.
- JsiEngine.Engine.GetPurityVsL: the filter block uses the intended matrix. The single-row matrix as written is FilterRowVsLAsWritten.
- JsiEngine.BuildFilterMatrix: builds the intended matrix, reading a None slot as no filter, where JSI.py:428 calls the None slot and raises TypeError (JsiAlgebra.FilterMatrixAsWrittenRaises).
- JsiEngine.PlotsCells: states the intended per-cell weighting, not the transposed elementwise product of JSI.py:431 (JsiAlgebra.ElementwiseAsWrittenTransposes).
- JsiEngine.Engine.SetFilters: with one None slot it stores the intended matrix, where JSI.py:428 raises TypeError.
- JsiEngine.Engine.RefreshFilters: stores the intended matrix, not the swapped-role matrix that JSI.py:497-502 builds for getpurity_vsTau.
- JsiEngine.Engine.SetUpVsTau: stores the intended matrix, not the swapped-role matrix of JSI.py:497-502 (FilterMatrixVsTauAsWritten).
- JsiEngine.Engine.SetUpVsL: stores the intended matrix, not the last-row-only matrix of JSI.py:588-593 (FilterRowVsLAsWritten).
- Filters.GetFilterFunction: the 'Gaussian' branch requires a nonzero width. The source builds the closure for fwhm = 0 too; calling that closure divides by zero, which numpy turns into 0 or NaN, and the model does not represent NaN.

## Findings

| source | as written | input that shows it | evidently intended | confidence | as-written member | corrected member |
|---|---|---|---|---|---|---|
| Filters.py:40 | `s=fwhm/2*numpy.sqrt(2*numpy.log(2))` multiplies by sqrt(2 ln 2) | fwhm = 2: s ≈ 1.18 instead of ≈ 0.85, and at cwl ± fwhm/2 the exponent is -1/(4 ln 2) ≈ -0.36, not -ln 2, so the value there is ≈ 0.70, not 1/2 | s = fwhm/(2 sqrt(2 ln 2)), the standard deviation of a Gaussian with that FWHM | not executed | Filters.GaussianHalfWidthAsWritten | Filters.GaussianHalfMaximum |
| JSI.py:431 | `JS = JS * self.filtermatrix` multiplies the idler-major meshgrid by the signal-major matrix elementwise | flat 2x2 spectrum, sig = [1, 2], signal filter passing only 1: cell [0][1] (signal 2) is kept | cell (signal b, idler a) weighted by the filters at sig[b] and id[a] | not executed | JsiAlgebra.DemoGetplots | JsiAlgebra.FilteredMesh |
| JSI.py:428 | both slots are called, although `useFilter` is set when only one of them is not None | a rectangular signal filter with the idler slot 'None' on a one-point grid raises TypeError | an empty slot transmits everything | not executed | JsiAlgebra.SignalFilterAloneRaises | JsiAlgebra.OneFilterWeight |
| purity.py:381 | `ZjsasA*filtermatrix` multiplies the idler-major JSA by the signal-major matrix elementwise | grid [lc, lc + 10 nm], flat spectrum: the idler filter's weight lands on the signal axis | the idler filter weights each cell by its own idler wavelength | not executed | PurityScript.FilterOnSignalAxis | PurityScript.MatchedFilterWeighsIdler |
| JSI.py:500 | the matrix entry is `filteridlerfunction(sigrange[i])*filtersignalfunction(idrange[j])`, with the roles swapped | flat 2x2 spectrum, sig = [1, 2], id = [3, 4], signal filter passing only 1: cell [0][0] is blocked | entry [i][j] is the signal filter at sig[i] times the idler filter at id[j] | not executed | JsiAlgebra.DemoVsTau | JsiAlgebra.FilterMatrixEntries |
| JSI.py:593 | `self.filtermatrix.append(filtervector)` sits after the row loop, so only the last row survives and is broadcast | the same example: the surviving row of signal 2 blocks cell [0][0] | one row per signal wavelength | not executed | JsiAlgebra.DemoVsL | JsiAlgebra.DemoIntended |

The Gaussian closure that `Filters.GetFilterFunction` returns and the
filtering in `PurityScript` follow the code as written; `Filters.GaussianFilter`
and `PurityScript.MatchedFilter` are the corrected definitions beside them.
The engine's filter matrices follow the corrected definitions, as listed
under "## Left out".
