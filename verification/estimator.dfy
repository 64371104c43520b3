/** The tile quantity estimator: `calculate_tiles` in tile_calci_enhanced.py.
    Python floats are modelled as exact reals; `round` is `PyRound.RoundHalfEven`. */
module TileEstimator {
  import opened Wrappers
  import opened PyRound
  import opened RealFacts

  /** Square feet in one square metre. */
  const SqftPerSqm: real := 10.7639
  /** Inches in one foot. */
  const InchesPerFoot: real := 12.0
  /** The 10% wastage allowance, as a multiplier. */
  const WastageFactor: real := 1.10
  /** Tiles packed in one box. */
  const TilesPerBox: int := 10

  /** Tiles and boxes to buy, each rounded to the nearest integer. */
  datatype Estimate = Estimate(tiles: int, boxes: int)

  /** The one exception `calculate_tiles` raises on exact-real input. */
  datatype CalcError = ZeroDivisionError

  /** The area in square feet: "sqm" is scaled, every other unit tag is taken
      to be square feet already. */
  function AreaInSqft(area: real, unit: string): (sqft: real)
    ensures unit == "sqm" ==> sqft == area * SqftPerSqm
    ensures unit != "sqm" ==> sqft == area
    ensures sqft >= 0.0 <==> area >= 0.0
  {
    if unit == "sqm" then area * SqftPerSqm else area
  }

  /** The face of one tile, in square feet, from its sides in inches. */
  function TileAreaSqft(length: real, width: real): (a: real)
    ensures a * 144.0 == length * width
    ensures a == 0.0 <==> length == 0.0 || width == 0.0
    ensures length > 0.0 && width > 0.0 ==> a > 0.0
  {
    (length / InchesPerFoot) * (width / InchesPerFoot)
  }

  /** The unrounded tile count including the wastage allowance: that many
      tiles of face `tileArea` cover the area plus 10%. */
  function BufferedTiles(areaSqft: real, tileArea: real): (b: real)
    requires tileArea != 0.0
    ensures b * tileArea == areaSqft * WastageFactor
  {
    (areaSqft / tileArea) * WastageFactor
  }

  /** `calculate_tiles(area, tile_length, tile_width, unit)`. Both counts are
      rounded from the same unrounded buffered count `b`: the box count is
      `round(b / 10)`, not derived from the rounded tile count. A call without
      a unit uses the default `unit="sqft"` and is `CalculateTiles(…, "sqft")`. */
  function CalculateTiles(area: real, length: real, width: real, unit: string): (r: Result<Estimate, CalcError>)
    ensures r.Failure? <==> length == 0.0 || width == 0.0
    ensures r.Success? ==>
              var need := AreaInSqft(area, unit) * WastageFactor;
              var tile := TileAreaSqft(length, width);
              && IsRoundHalfEven(need / tile, r.value.tiles)
              && IsRoundHalfEven(need / (tile * TilesPerBox as real), r.value.boxes)
  {
    var sqft := AreaInSqft(area, unit);
    var tileArea := TileAreaSqft(length, width);
    if tileArea == 0.0 then Failure(ZeroDivisionError)
    else
      var buffered := BufferedTiles(sqft, tileArea);
      var boxes := buffered / TilesPerBox as real;
      QuotientOfProduct(buffered, tileArea, sqft * WastageFactor);
      QuotientOfProduct(boxes, tileArea * TilesPerBox as real, sqft * WastageFactor);
      Success(Estimate(RoundHalfEven(buffered), RoundHalfEven(boxes)))
  }

  /** With unit "sqm" the area is multiplied by 10.7639 before anything else:
      the estimate is the one for the converted area in square feet. */
  lemma SqmIsScaledSqft(area: real, length: real, width: real)
    ensures CalculateTiles(area, length, width, "sqm")
         == CalculateTiles(area * 10.7639, length, width, "sqft")
  {
  }

  /** Any unit tag other than "sqm" (in particular "sqft") leaves the area unchanged. */
  lemma NonSqmUnitIsSqft(area: real, length: real, width: real, unit: string)
    requires unit != "sqm"
    ensures AreaInSqft(area, unit) == area
    ensures CalculateTiles(area, length, width, unit) == CalculateTiles(area, length, width, "sqft")
  {
  }

  /** For tiles of positive face, the rounded counts cover the area plus the
      10% allowance to within half a tile, and to within half a box (the face
      of ten tiles). */
  lemma CoverageBounds(area: real, length: real, width: real, unit: string)
    requires TileAreaSqft(length, width) > 0.0
    ensures CalculateTiles(area, length, width, unit).Success?
    ensures var e := CalculateTiles(area, length, width, unit).value;
            var need := AreaInSqft(area, unit) * WastageFactor;
            var tile := TileAreaSqft(length, width);
            var box := tile * TilesPerBox as real;
            && need - tile / 2.0 <= e.tiles as real * tile <= need + tile / 2.0
            && need - box / 2.0 <= e.boxes as real * box <= need + box / 2.0
  {
    var r := CalculateTiles(area, length, width, unit);
    var need := AreaInSqft(area, unit) * WastageFactor;
    var tile := TileAreaSqft(length, width);
    RoundedCover(need, tile, r.value.tiles, r.value.boxes);
  }

  /** The rounding step of `CoverageBounds`, stated apart from
      `CalculateTiles` so that its non-linear steps are checked without the
      estimator unfolded: if `tiles` is `need / tile` rounded and `boxes` is
      `need / (10 tile)` rounded, each count times its divisor is within half
      a divisor of `need`. */
  lemma RoundedCover(need: real, tile: real, tiles: int, boxes: int)
    requires tile > 0.0
    requires IsRoundHalfEven(need / tile, tiles)
    requires IsRoundHalfEven(need / (tile * TilesPerBox as real), boxes)
    ensures need - tile / 2.0 <= tiles as real * tile <= need + tile / 2.0
    ensures var box := tile * TilesPerBox as real;
            need - box / 2.0 <= boxes as real * box <= need + box / 2.0
  {
    var box := tile * TilesPerBox as real;
    ScaleBounds(need / tile, tiles as real, tile, need);
    ScaleBounds(need / box, boxes as real, box, need);
  }

  /** A non-negative area and a tile of positive sides give non-negative counts. */
  lemma NonNegativeCounts(area: real, length: real, width: real, unit: string)
    requires area >= 0.0 && length > 0.0 && width > 0.0
    ensures CalculateTiles(area, length, width, unit).Success?
    ensures CalculateTiles(area, length, width, unit).value.tiles >= 0
    ensures CalculateTiles(area, length, width, unit).value.boxes >= 0
  {
  }

  /** With the unit and the tile fixed, a larger area never needs fewer tiles
      or fewer boxes. */
  lemma MonotoneInArea(a1: real, a2: real, length: real, width: real, unit: string)
    requires a1 <= a2
    requires length > 0.0 && width > 0.0
    ensures CalculateTiles(a1, length, width, unit).Success?
    ensures CalculateTiles(a2, length, width, unit).Success?
    ensures CalculateTiles(a1, length, width, unit).value.tiles <= CalculateTiles(a2, length, width, unit).value.tiles
    ensures CalculateTiles(a1, length, width, unit).value.boxes <= CalculateTiles(a2, length, width, unit).value.boxes
  {
    var tile := TileAreaSqft(length, width);
    var s1, s2 := AreaInSqft(a1, unit), AreaInSqft(a2, unit);
    assert s1 <= s2;
    DivideMonotone(s1, s2, tile);
    var b1, b2 := BufferedTiles(s1, tile), BufferedTiles(s2, tile);
    assert b1 <= b2;
    RoundHalfEvenMonotone(b1, b2);
    RoundHalfEvenMonotone(b1 / 10.0, b2 / 10.0);
  }

  /** The tile count and ten times the box count never differ by more than five
      tiles, because both are rounded from the same buffered count. */
  lemma TilesAndBoxesAgree(area: real, length: real, width: real, unit: string)
    requires CalculateTiles(area, length, width, unit).Success?
    ensures var e := CalculateTiles(area, length, width, unit).value;
            -5 <= e.tiles - TilesPerBox * e.boxes <= 5
  {
  }

  /** 100 square feet of 12 x 12 inch tiles: one-square-foot tiles, 110 with the
      allowance, 11 boxes. */
  lemma WorkedExampleSqft()
    ensures CalculateTiles(100.0, 12.0, 12.0, "sqft") == Success(Estimate(110, 11))
  {
  }

  /** 10 square metres of 12 x 12 inch tiles: 107.639 sq ft, 118.4029 buffered
      tiles, rounded to 118 tiles and 12 boxes. */
  lemma WorkedExampleSqm()
    ensures CalculateTiles(10.0, 12.0, 12.0, "sqm") == Success(Estimate(118, 12))
  {
  }

  /** The box count comes from the unrounded buffered count: 146/11 sq ft of
      12 x 12 tiles buffers to 14.6 tiles, so 15 tiles but only 1 box, whereas
      rounding the rounded tile count (15 / 10 = 1.5) would give 2 boxes. */
  lemma BoxesFromUnroundedCount()
    ensures CalculateTiles(146.0 / 11.0, 12.0, 12.0, "sqft") == Success(Estimate(15, 1))
    ensures RoundHalfEven(15.0 / 10.0) == 2
  {
  }

  /** Sides are not validated: one negative side makes the face negative and
      the counts at most 0. At 1 sq ft the buffered count is -1.1, giving -1
      tile but 0 boxes; at 0.1 sq ft it is -0.11, giving 0 of each. */
  lemma NegativeSideExamples()
    ensures CalculateTiles(1.0, -12.0, 12.0, "sqft") == Success(Estimate(-1, 0))
    ensures CalculateTiles(0.1, -12.0, 12.0, "sqft") == Success(Estimate(0, 0))
  {
  }
}
