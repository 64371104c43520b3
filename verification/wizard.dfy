/** The four-step wizard of tile_calci_enhanced.py. Streamlit's ambient
    `st.session_state` is an immutable `Session` record, and each rerun of the
    script (one user interaction) is an `Event` fed to the pure `Step`. */
module Wizard {
  import opened Wrappers
  import opened TileEstimator

  /** A tile size in whole inches, as stored in `tile_size`. */
  datatype TileSize = TileSize(length: int, width: int)

  /** The session fields the wizard keeps between reruns. */
  datatype Session = Session(
    step: int,
    tileType: string,
    area: real,
    unit: string,
    tileSize: TileSize,
    result: Option<Estimate>)

  /** The values every field takes on a fresh session and after "Start Over". */
  const Defaults: Session := Session(1, "", 0.0, "sqft", TileSize(12, 12), None)

  /** The fixed tile-size catalog offered at step 3, keyed by its labels. */
  const SizeCatalog: map<string, TileSize> := map[
    "12 x 12" := TileSize(12, 12),
    "24 x 24" := TileSize(24, 24),
    "18 x 12" := TileSize(18, 12),
    "36 x 18" := TileSize(36, 18)]

  /** What the "Next" rerun at step 2 gets from the optional image. */
  datatype ImageInput =
      /** No image uploaded, or "use uploaded image" not ticked: the manual path. */
    | NoImage
      /** The image detector returned `area` square feet for the upload. */
    | Detected(area: real)
      /** Saving or reading the upload raised (an undecodable file, an I/O
          error): the rerun aborts before any session field is written. */
    | ImageFailed

  /** One rerun of the script, named by the widget that caused it, carrying the
      widget values that rerun reads. */
  datatype Event =
      /** Step 1: the "Floor" button. */
    | PressFloor
      /** Step 1: the "Wall" button. */
    | PressWall
      /** Step 2: the "Next" button, with the typed area, the chosen unit and
          the outcome of the image path. */
    | PressNext(manualArea: real, unit: string, image: ImageInput)
      /** Step 3: any rerun with `choice` selected and "Calculate" not pressed;
          the selection is stored on every such rerun, a language change
          included. */
    | SelectSize(choice: string)
      /** Step 3: the "Calculate Tiles" button with `choice` selected. */
    | PressCalculate(choice: string)
      /** Step 4: the "Start Over" button. */
    | PressStartOver
      /** A rerun at step 1, 2 or 4 that writes no session field: a language
          change, editing a widget before pressing a button, "Show
          Suggestions", "Email me". At step 3 every rerun without "Calculate"
          is a `SelectSize`. */
    | Idle

  /** What the widgets guarantee: the area input's minimum of 1.0, the unit
      radio's two options, a non-negative detected area, and selectbox labels
      drawn from the catalog. */
  predicate ValidEvent(e: Event) {
    match e
    case PressNext(m, u, img) =>
      && m >= 1.0
      && (u == "sqft" || u == "sqm")
      && (img.Detected? ==> img.area >= 0.0)
    case SelectSize(l) => l in SizeCatalog
    case PressCalculate(l) => l in SizeCatalog
    case _ => true
  }

  /** `calculate_tiles` on the area, tile size and unit stored in the session. */
  function EstimateFor(s: Session): (r: Result<Estimate, CalcError>)
    ensures r.Failure? <==> s.tileSize.length == 0 || s.tileSize.width == 0
    ensures s.tileSize in SizeCatalog.Values ==> r.Success?
  {
    CalculateTiles(s.area, s.tileSize.length as real, s.tileSize.width as real, s.unit)
  }

  /** The effect of one rerun on the session. Steps only move forward one at a
      time; the only way back is "Start Over", which restores the defaults. */
  function Step(s: Session, e: Event): (t: Session)
    ensures t.step == s.step || t.step == s.step + 1 || t == Defaults
    ensures t.step < s.step ==> s.step == 4 && e == PressStartOver
  {
    if s.step == 1 then
      match e
      case PressFloor => s.(tileType := "floor", step := 2)
      case PressWall => s.(tileType := "wall", step := 2)
      case _ => s
    else if s.step == 2 then
      match e
      case PressNext(manual, unit, img) =>
        (match img
         case Detected(detected) => s.(area := detected, unit := "sqft", step := 3)
         case NoImage => s.(area := manual, unit := unit, step := 3)
         case ImageFailed => s)
      case _ => s
    else if s.step == 3 then
      match e
      case SelectSize(choice) =>
        // A choice outside the catalog raises KeyError: the rerun writes nothing.
        if choice in SizeCatalog then s.(tileSize := SizeCatalog[choice]) else s
      case PressCalculate(choice) =>
        if choice !in SizeCatalog then s
        else
          var sized := s.(tileSize := SizeCatalog[choice]);
          (match EstimateFor(sized)
           case Success(est) => sized.(result := Some(est), step := 4)
           // The exception aborts the rerun after the size was stored.
           case Failure(_) => sized)
      case _ => s
    else if s.step == 4 then
      match e
      case PressStartOver => Defaults
      case _ => s
    else s
  }

  /** The session after a sequence of reruns. Each rerun raises the step by at
      most one, so `n` reruns raise it by at most `n` (a result needs at least
      three reruns from a fresh session); a session outside steps 1 to 4 is
      never changed. */
  function Run(s: Session, events: seq<Event>): (r: Session)
    ensures r.step <= s.step + |events|
    ensures !(1 <= s.step <= 4) ==> r == s
    decreases |events|
  {
    if events == [] then s else Run(Step(s, events[0]), events[1..])
  }

  /** What holds of every session the wizard can reach. */
  predicate Inv(s: Session) {
    && 1 <= s.step <= 4
    && s.tileSize in SizeCatalog.Values
    && (s.step == 1 ==> s == Defaults)
    && (s.step >= 2 ==> s.tileType == "floor" || s.tileType == "wall")
    && (s.step == 2 ==> s.area == 0.0 && s.unit == "sqft" && s.tileSize == TileSize(12, 12))
    && (s.step >= 3 ==> s.area >= 0.0 && (s.unit == "sqft" || s.unit == "sqm"))
    && (s.step < 4 <==> s.result == None)
    && (s.step == 4 ==> EstimateFor(s) == Success(s.result.value))
  }

  /** The defaults are a reachable session. */
  lemma DefaultsSatisfyInv()
    ensures Inv(Defaults)
    ensures Defaults.step == 1 && Defaults.tileType == "" && Defaults.area == 0.0
    ensures Defaults.unit == "sqft" && Defaults.tileSize == TileSize(12, 12) && Defaults.result == None
  {
    assert SizeCatalog["12 x 12"] == TileSize(12, 12);
  }

  /** One rerun with widget-valid input keeps the invariant. */
  lemma StepPreservesInv(s: Session, e: Event)
    requires Inv(s) && ValidEvent(e)
    ensures Inv(Step(s, e))
  {
    DefaultsSatisfyInv();
    if s.step == 3 && (e.SelectSize? || e.PressCalculate?) {
      assert SizeCatalog[e.choice] in SizeCatalog.Values;
      CatalogValuesPositive(SizeCatalog[e.choice]);
    }
  }

  /** Every session reached from the defaults by widget-valid reruns keeps the
      invariant. */
  lemma {:induction false} RunPreservesInv(s: Session, events: seq<Event>)
    requires Inv(s)
    requires forall i :: 0 <= i < |events| ==> ValidEvent(events[i])
    ensures Inv(Run(s, events))
    decreases |events|
  {
    if events != [] {
      StepPreservesInv(s, events[0]);
      RunPreservesInv(Step(s, events[0]), events[1..]);
    }
  }

  /** Every size in the catalog has positive sides, so `calculate_tiles`
      never divides by zero on a catalog size. */
  lemma CatalogValuesPositive(size: TileSize)
    requires size in SizeCatalog.Values
    ensures size.length > 0 && size.width > 0
    ensures TileAreaSqft(size.length as real, size.width as real) > 0.0
  {
  }

  /** The rerun moves the wizard forward exactly when it is the step's own
      button: Floor or Wall at step 1, Next (unless the image path raised) at
      step 2, Calculate (on a catalog label) at step 3. */
  predicate Advances(s: Session, e: Event) {
    || (s.step == 1 && (e == PressFloor || e == PressWall))
    || (s.step == 2 && e.PressNext? && !e.image.ImageFailed?)
    || (s.step == 3 && e.PressCalculate? && e.choice in SizeCatalog)
  }

  lemma StepAdvancesIff(s: Session, e: Event)
    ensures Step(s, e).step == s.step + 1 <==> Advances(s, e)
  {
  }

  /** Each rerun writes only the fields its step's code writes; every other
      field keeps its value. */
  lemma StepFrame(s: Session, e: Event)
    ensures var t := Step(s, e);
            && (s.step == 1 ==> t == s.(tileType := t.tileType, step := t.step))
            && (s.step == 2 ==> t == s.(area := t.area, unit := t.unit, step := t.step))
            && (s.step == 3 ==> t == s.(tileSize := t.tileSize, result := t.result, step := t.step))
            && (s.step == 4 ==> t == s || t == Defaults)
            && (!(1 <= s.step <= 4) ==> t == s)
  {
  }

  /** Step 1 records the chosen tile type. */
  lemma TileTypeRule(s: Session, e: Event)
    requires s.step == 1 && Advances(s, e)
    ensures Step(s, e).tileType == (if e == PressFloor then "floor" else "wall")
    ensures Step(s, e).step == 2
  {
  }

  /** Step 2: on the image path the detected area is stored and the unit is
      forced to "sqft"; on the manual path the typed area and the chosen unit
      are stored; if the image path raised, nothing changes. */
  lemma AreaEntryRule(s: Session, manual: real, unit: string, img: ImageInput)
    requires s.step == 2
    ensures var t := Step(s, PressNext(manual, unit, img));
            && (img.Detected? ==> t.step == 3 && t.area == img.area && t.unit == "sqft")
            && (img.NoImage? ==> t.step == 3 && t.area == manual && t.unit == unit)
            && (img.ImageFailed? ==> t == s)
  {
  }

  /** Step 3: "Calculate" stores the chosen size and, from it and the stored
      area and unit, the estimate `calculate_tiles` returns. */
  lemma CalculateRule(s: Session, choice: string)
    requires s.step == 3 && choice in SizeCatalog
    ensures var t := Step(s, PressCalculate(choice));
            && t.step == 4
            && t.tileSize == SizeCatalog[choice]
            && t.result.Some?
            && EstimateFor(t) == Success(t.result.value)
  {
  }

  /** "Start Over" at step 4 returns every field to its default. */
  lemma StartOverRestoresDefaults(s: Session)
    requires s.step == 4
    ensures Step(s, PressStartOver) == Defaults
    ensures Step(s, PressStartOver) == Session(1, "", 0.0, "sqft", TileSize(12, 12), None)
  {
  }

  /** In every reachable session at step 4, the stored result is exactly
      `calculate_tiles` of the stored area, size and unit, and both counts are
      non-negative. */
  lemma ReachableResult(events: seq<Event>)
    requires forall i :: 0 <= i < |events| ==> ValidEvent(events[i])
    ensures var s := Run(Defaults, events);
            s.step == 4 ==>
              && s.result.Some?
              && EstimateFor(s) == Success(s.result.value)
              && s.result.value.tiles >= 0
              && s.result.value.boxes >= 0
  {
    DefaultsSatisfyInv();
    RunPreservesInv(Defaults, events);
    var s := Run(Defaults, events);
    if s.step == 4 {
      CatalogValuesPositive(s.tileSize);
      NonNegativeCounts(s.area, s.tileSize.length as real, s.tileSize.width as real, s.unit);
    }
  }

  /** Floor, then 100 sq ft typed in by hand, then the 12 x 12 tile: the wizard
      shows 110 tiles in 11 boxes. */
  lemma ExampleSession()
    ensures Run(Defaults, [PressFloor, PressNext(100.0, "sqft", NoImage), PressCalculate("12 x 12")])
         == Session(4, "floor", 100.0, "sqft", TileSize(12, 12), Some(Estimate(110, 11)))
  {
    WorkedExampleSqft();
    var s1 := Step(Defaults, PressFloor);
    var s2 := Step(s1, PressNext(100.0, "sqft", NoImage));
    assert s2 == Session(3, "floor", 100.0, "sqft", TileSize(12, 12), None);
    assert Run(s2, [PressCalculate("12 x 12")]) == Step(s2, PressCalculate("12 x 12"));
  }
}
