# Tile calculator: estimator and wizard model

A Dafny model of the tile calculator in `tile_calci_enhanced.py`. The calculator is a
Streamlit app that estimates how many floor or wall tiles, and how many boxes of
ten, a customer needs. Two parts of it carry logic, and both are modelled and proved here.

- **The estimator** `calculate_tiles`. It converts square metres to square feet
  (× 10.7639) and takes the tile face from its sides in inches, (L/12)·(W/12).
  It adds a fixed 10% wastage allowance, divides by a fixed 10 tiles per box, and
  rounds both counts with Python's `round`. Python floats are modelled as exact
  reals (`real`). `round` is modelled as an explicit round-half-to-even
  (`PyRound.RoundHalfEven`), and its contract characterises the rounding
  completely. Division by a zero tile face, which raises `ZeroDivisionError` in
  Python, is the `Failure` case of a `Result`.
- **The four-step wizard.** Streamlit's ambient `st.session_state` is an
  immutable `Wizard.Session` record with the fields step, tile type, area, unit,
  tile size and result. Each rerun of the script is a `Wizard.Event` that carries
  the widget values that rerun reads, and `Wizard.Step` is the pure transition.
  The steps are: choose floor or wall → enter the area, by hand or from an image →
  choose a size from the fixed catalog → show the result. "Start Over" restores
  the defaults.
- **`translate_text`.** English short-circuits, and a failure of the translate
  call falls back to the original text. The translation service itself is a
  function parameter.

Modules: `Wrappers` (Option, Result), `PyRound` (Python's `round`), `RealFacts`
(small real-arithmetic steps), `TileEstimator`, `Wizard`, `Translation`.

Behaviours of the code worth knowing:
- The box count is `round(b / 10)` of the *unrounded* buffered count `b`. It is
  not derived from the rounded tile count, and the two can differ
  (`TileEstimator.BoxesFromUnroundedCount`).
- Any unit tag other than `"sqm"` is used unchanged, not just `"sqft"`.
- Area 0 is not ruled out in practice. The minimum of 1.0 binds only the manual
  entry, so an image with no detected pixels stores area 0.
- Tile sides are not validated. Only a zero side raises. One negative side makes
  the tile face negative, and a positive area then gives counts of at most 0;
  a count is negative once its unrounded value is below -0.5 (for the tiles,
  once 1.1 × area exceeds half the face's magnitude). Two negative sides give
  the same face as their absolute values.
- On the image path, a failure to save or read the upload raises before any
  session field is written, so "Next" leaves the wizard at step 2
  (`Wizard.ImageFailed`).

## Model

| member | source | states |
|---|---|---|
| PyRound.RoundHalfEven | tile_calci_enhanced.py:52 | `round(x)` is an integer within one half of x, and it is even whenever it is exactly one half away |
| PyRound.RoundHalfEvenUnique | tile_calci_enhanced.py:52 | exactly one integer meets that characterisation, so it fixes Python's rounding rule, ties included |
| PyRound.RoundHalfEvenMonotone | tile_calci_enhanced.py:52 | rounding preserves order |
| PyRound.RoundHalfEvenNonNegative | tile_calci_enhanced.py:52 | `round(x) >= 0` exactly when x ≥ -0.5 |
| TileEstimator.AreaInSqft | tile_calci_enhanced.py:45-46 | "sqm" is scaled by 10.7639, every other unit tag is left unchanged, and the conversion keeps the sign of the area |
| TileEstimator.TileAreaSqft | tile_calci_enhanced.py:47 | the tile face in sq ft times 144 is the face in sq inches; it is zero exactly when a side is zero and positive for positive sides |
| TileEstimator.BufferedTiles | tile_calci_enhanced.py:48-49 | the buffered count times the tile face is the area plus 10% |
| TileEstimator.CalculateTiles | tile_calci_enhanced.py:44-52 | over exact reals, fails (ZeroDivisionError) exactly when a side is zero; otherwise tiles is the half-even rounding of 1.1·area_sqft / tile_face and boxes that of the same quantity over 10 |
| TileEstimator.SqmIsScaledSqft | tile_calci_enhanced.py:45-46 | an area in sqm gives the same estimate as the area × 10.7639 in sqft |
| TileEstimator.NonSqmUnitIsSqft | tile_calci_enhanced.py:44-46 | every unit other than "sqm" leaves the area unchanged and estimates like "sqft" |
| TileEstimator.CoverageBounds | tile_calci_enhanced.py:47-52 | for a positive tile face, tiles × face is within half a tile of the area plus 10%, and boxes × 10 × face within half a box of it |
| TileEstimator.NonNegativeCounts | tile_calci_enhanced.py:44-52 | a non-negative area and positive sides give non-negative tile and box counts |
| TileEstimator.MonotoneInArea | tile_calci_enhanced.py:44-52 | with unit and tile fixed, a larger area never gives fewer tiles or fewer boxes |
| TileEstimator.TilesAndBoxesAgree | tile_calci_enhanced.py:49-52 | tiles and 10 × boxes never differ by more than 5 |
| TileEstimator.WorkedExampleSqft | tile_calci_enhanced.py:44-52 | 100 sqft of 12 × 12 tiles gives 110 tiles and 11 boxes |
| TileEstimator.WorkedExampleSqm | tile_calci_enhanced.py:44-52 | 10 sqm of 12 × 12 tiles gives 118 tiles and 12 boxes |
| TileEstimator.BoxesFromUnroundedCount | tile_calci_enhanced.py:49-52 | a buffered count of 14.6 gives 15 tiles but 1 box, where rounding the rounded count would give 2 |
| TileEstimator.NegativeSideExamples | tile_calci_enhanced.py:44-52 | with a -12 × 12 tile, 1 sqft gives -1 tile and 0 boxes, and 0.1 sqft gives 0 of each: sides are not validated and small negative buffered counts round to 0 |
| Wizard.Step | tile_calci_enhanced.py:117-199 | a rerun keeps the step or advances it by one; the only way back is Start Over at step 4, which yields the defaults |
| Wizard.EstimateFor | tile_calci_enhanced.py:164-168 | `calculate_tiles` on the stored area, `*tile_size` and unit fails exactly when a stored side is zero, and never for a catalog size |
| Wizard.Run | tile_calci_enhanced.py:117-199 | a sequence of n reruns raises the step by at most n, and leaves a session outside steps 1 to 4 unchanged |
| Wizard.CatalogValuesPositive | tile_calci_enhanced.py:155-160 | every catalog size has positive sides, so its tile face is positive and `calculate_tiles` never divides by zero on it |
| Wizard.DefaultsSatisfyInv | tile_calci_enhanced.py:104-114 | the defaults are step 1, tile type "", area 0, unit "sqft", size 12 × 12 and no result, and they satisfy the session invariant |
| Wizard.StepPreservesInv | tile_calci_enhanced.py:117-199 | one rerun with widget-valid input keeps the session invariant |
| Wizard.RunPreservesInv | tile_calci_enhanced.py:104-199 | every session reachable by widget-valid reruns keeps the invariant: a step in 1..4, the defaults at step 1, a type from step 2, a non-negative area and a known unit from step 3, a result exactly at step 4 equal to `calculate_tiles` of the stored inputs |
| Wizard.StepAdvancesIff | tile_calci_enhanced.py:117-170 | the step advances exactly on Floor or Wall at step 1, Next at step 2 unless the image path raised, and Calculate at step 3 |
| Wizard.StepFrame | tile_calci_enhanced.py:117-199 | step 1 writes only type and step; step 2 only area, unit and step; step 3 only size, result and step; step 4 nothing, or everything back to the defaults |
| Wizard.TileTypeRule | tile_calci_enhanced.py:117-124 | leaving step 1 stores "floor" for the Floor button and "wall" for the Wall button |
| Wizard.AreaEntryRule | tile_calci_enhanced.py:137-150 | Next stores the detected area with the unit forced to "sqft" on the image path, the typed area with the chosen unit on the manual path, and nothing when the image path raised |
| Wizard.CalculateRule | tile_calci_enhanced.py:162-170 | Calculate stores the chosen catalog size and a result equal to `calculate_tiles` of the stored area, size and unit, and moves to step 4 |
| Wizard.StartOverRestoresDefaults | tile_calci_enhanced.py:197-199 | Start Over at step 4 returns every field to its default |
| Wizard.ReachableResult | tile_calci_enhanced.py:164-174 | in any reachable session at step 4, the result is `calculate_tiles` of the stored inputs and both counts are non-negative |
| Wizard.ExampleSession | tile_calci_enhanced.py:117-170 | Floor, 100 sqft by hand, then 12 × 12 reaches step 4 with 110 tiles in 11 boxes |
| Translation.TranslateText | tile_calci_enhanced.py:74-82 | English returns the text unchanged; a translated text is what the service answered for a non-English language; otherwise it is the original |
| Translation.EnglishIgnoresService | tile_calci_enhanced.py:74-76 | for English the result does not depend on the service at all |
| Translation.UnchangedIffEnglishOrServiceFailed | tile_calci_enhanced.py:77-82 | whenever `translate_text` returns, the original text comes back exactly when the language is English or the translate call failed |

## Left out

- Streamlit rendering, CSS and page configuration (tile_calci_enhanced.py:1-40, 93-101, display calls): UI only.
- `detect_area_from_image` (tile_calci_enhanced.py:85-90): it thresholds with OpenCV and counts pixels with numpy. Its outcome is carried by the `PressNext` event, as a detected area (non-negative in widget-valid events) or as `ImageFailed` when it raises.
- The temporary image file write, read and delete (tile_calci_enhanced.py:139-143): file I/O. A raise on that path is `ImageFailed`, which writes no field. The temporary file it leaves on disk is not modelled.
- `send_estimate_email` (tile_calci_enhanced.py:55-71): a network call. The "Email me" button writes no session field, so it is an `Idle` rerun.
- The suggestion texts (tile_calci_enhanced.py:178-185): static display strings, and an `Idle` rerun.
- Language selection and the `lang` field (tile_calci_enhanced.py:96-99): the selection only changes displayed text. The translation service itself is a parameter of `TranslateText`.
- Translation.TranslateText: the fallback covers only the translate call (tile_calci_enhanced.py:79-80). Building the `Translator()` client at line 77 happens before the `try`, so a failure there propagates and aborts the rerun. The model does not represent that failure.
- The filling of missing keys on each rerun (tile_calci_enhanced.py:112-114): the model always holds a full session. Start Over deletes every key, and the next rerun recreates the defaults. The model goes to the defaults directly, without that empty intermediate session.
- Exact IEEE-754 behaviour: 10.7639, 1.10 and the divisions by 12 are not exact in binary floating point. Python's `round` can therefore break a .5 tie differently on the float than on the exact real. The model claims agreement with exact arithmetic, not bit-exact agreement.
- TileEstimator.CalculateTiles: float overflow and underflow are not modelled. A very large area (for example 1e308 in "sqm"; the area input has no maximum) makes `area *= 10.7639` or `area / tile_area` reach infinity, and `round` then raises OverflowError. The rerun stops at step 3 with the size stored, where the model returns a result and moves to step 4. Tiny non-zero sides make the tile face underflow to 0.0, and line 48 then raises ZeroDivisionError although no side is zero. The model's only error is a side that is exactly zero.
- Wizard.RunPreservesInv: it assumes widget-valid events (area entry ≥ 1.0, unit "sqft" or "sqm", non-negative detected area, catalog labels). Streamlit's widgets guarantee these, and the code does not check them.
- The idempotence of the estimator: `calculate_tiles` is a pure function, so repeated calls agree. Dafny functions are deterministic by construction, so no separate lemma states it.
