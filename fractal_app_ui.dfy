/** The state rules of the current app generation: the handlers its views attach to
    the shared Model and CanvasModel objects. Each handler updates fields in place; its
    contract ties the new state to a step function on the abstract state, and the
    lemmas state what those steps promise. Float64 values are reals, and the text the
    plane sliders parse as Float64 arrives already parsed, as an Option. */
module FractalAppUI {
  import opened Complex
  import opened Decimal
  import opened Clamping

  datatype Fractal = Mandelbrot | Julia | Newton

  datatype NewtonColouring = Root | Iterations

  /** The cap on steps and wrap: beyond it a render can hang the GPU. */
  const MAX_STEPS := 20000

  const MIN_RES := 1.0
  const MAX_RES := 8.0

  /** The fields of Model that the handlers read or write. */
  datatype ModelState = ModelState(
    selectedFractal: Fractal,
    newtonColouring: NewtonColouring,
    cOffset: Float2,
    zInitial: Float2,
    prevZ: Float2,
    zoom: real,
    steps: int,
    colourCount: int,
    dirty: bool)

  class Model {
    var selectedFractal: Fractal
    var newtonColouring: NewtonColouring
    var cOffset: Float2
    var zInitial: Float2
    var prevZ: Float2
    var zoom: real
    var steps: int
    var colourCount: int
    var dirty: bool

    function State(): ModelState
      reads this
    {
      ModelState(selectedFractal, newtonColouring, cOffset, zInitial, prevZ, zoom, steps, colourCount, dirty)
    }
  }

  class CanvasModel {
    var resolutionScale: real
    var displayScale: real
    var fps: int
  }

  // ---------------------------------------------------------------------------
  // Step functions on the abstract state

  /** Picking another fractal: the Julia start point and the Mandelbrot start point
      trade places, the view is redrawn, and Newton starts at zoom 1. */
  function FractalChanged(s: ModelState, newFractal: Fractal): (r: ModelState)
    ensures r.selectedFractal == newFractal && r.dirty
    ensures r.prevZ == s.zInitial && r.zInitial == s.prevZ
    ensures newFractal == Newton ==> r.zoom == 1.0
    ensures newFractal != Newton ==> r.zoom == s.zoom
    ensures r.(selectedFractal := s.selectedFractal, prevZ := s.prevZ, zInitial := s.zInitial,
               zoom := s.zoom, dirty := s.dirty) == s
  {
    s.(selectedFractal := newFractal, prevZ := s.zInitial, zInitial := s.prevZ, dirty := true,
       zoom := if newFractal == Newton then 1.0 else s.zoom)
  }

  /** Two fractal changes in a row put both start points back. */
  lemma FractalChangedTwiceRestoresStartPoints(s: ModelState, f: Fractal, g: Fractal)
    ensures FractalChanged(FractalChanged(s, f), g).zInitial == s.zInitial
    ensures FractalChanged(FractalChanged(s, f), g).prevZ == s.prevZ
    ensures g != Newton && f != Newton ==> FractalChanged(FractalChanged(s, f), g) == s.(selectedFractal := g, dirty := true)
  {
  }

  /** The text of a steps or wrap field, on submit: a decimal Int clamped into
      [2, 20000], or None when the text is not an Int. */
  function ClampedSubmission(text: string): (r: Option<int>)
    ensures r.Some? ==> 2 <= r.value <= MAX_STEPS
    ensures r.None? <==> ParseInt(text, INT64_MIN, INT64_MAX).None?
    ensures r.Some? && 2 <= ParseInt(text, INT64_MIN, INT64_MAX).value <= MAX_STEPS ==>
      r.value == ParseInt(text, INT64_MIN, INT64_MAX).value
    ensures ParseInt(text, INT64_MIN, INT64_MAX).Some? ==>
      r == Some(ClampInt(ParseInt(text, INT64_MIN, INT64_MAX).value, 2, MAX_STEPS))
    ensures ParseInt(text, INT64_MIN, INT64_MAX).Some? && ParseInt(text, INT64_MIN, INT64_MAX).value < 2 ==>
      r == Some(2)
    ensures ParseInt(text, INT64_MIN, INT64_MAX).Some? && ParseInt(text, INT64_MIN, INT64_MAX).value > MAX_STEPS ==>
      r == Some(MAX_STEPS)
  {
    match ParseInt(text, INT64_MIN, INT64_MAX)
    case Some(n) => Some(ClampInt(n, 2, MAX_STEPS))
    case None => None
  }

  /** A field showing an in-range value submits that same value. */
  lemma ShownValueResubmits(n: int)
    requires 2 <= n <= MAX_STEPS
    ensures ClampedSubmission(Show(n)) == Some(n)
  {
    ParseShow(n, INT64_MIN, INT64_MAX);
  }

  function StepsSubmitted(s: ModelState, text: string): (r: ModelState)
    ensures ClampedSubmission(text).Some? ==>
      r == s.(steps := ClampedSubmission(text).value, dirty := true)
    ensures ClampedSubmission(text).None? ==> r == s
  {
    match ClampedSubmission(text)
    case Some(n) => s.(steps := n, dirty := true)
    case None => s
  }

  function WrapSubmitted(s: ModelState, text: string): (r: ModelState)
    ensures ClampedSubmission(text).Some? ==>
      r == s.(colourCount := ClampedSubmission(text).value, dirty := true)
    ensures ClampedSubmission(text).None? ==> r == s
  {
    match ClampedSubmission(text)
    case Some(n) => s.(colourCount := n, dirty := true)
    case None => s
  }

  /** Submitting leaves steps in [2, 20000] unless the text failed to parse, and
      submitting again the text the field was reset to changes nothing but dirty. */
  lemma StepsSubmitSettles(s: ModelState, text: string)
    ensures var r := StepsSubmitted(s, text);
      r.steps == s.steps || 2 <= r.steps <= MAX_STEPS
    ensures var r := StepsSubmitted(s, text);
      2 <= r.steps <= MAX_STEPS ==> StepsSubmitted(r, Show(r.steps)) == r.(dirty := true)
  {
    var r := StepsSubmitted(s, text);
    if 2 <= r.steps <= MAX_STEPS {
      ShownValueResubmits(r.steps);
    }
  }

  /** The same for the wrap field and colour_count. */
  lemma WrapSubmitSettles(s: ModelState, text: string)
    ensures var r := WrapSubmitted(s, text);
      r.colourCount == s.colourCount || 2 <= r.colourCount <= MAX_STEPS
    ensures var r := WrapSubmitted(s, text);
      2 <= r.colourCount <= MAX_STEPS ==> WrapSubmitted(r, Show(r.colourCount)) == r.(dirty := true)
  {
    var r := WrapSubmitted(s, text);
    if 2 <= r.colourCount <= MAX_STEPS {
      ShownValueResubmits(r.colourCount);
    }
  }

  /** The resolution slider runs the other way from resolutionScale: the binding maps
      v to max_res - v + min_res, in both directions. */
  function Flipped(v: real): (r: real)
    ensures r + v == MIN_RES + MAX_RES
    ensures MIN_RES <= v <= MAX_RES ==> MIN_RES <= r <= MAX_RES
  {
    MAX_RES - v + MIN_RES
  }

  /** The zoom after a resolution change: the same region stays in view, so zoom
      times resolutionScale is kept, and the display scale cancels out. */
  function CompensatedZoom(zoom: real, oldResolutionScale: real, newResolutionScale: real, displayScale: real): (z: real)
    requires displayScale != 0.0 && newResolutionScale != 0.0
    ensures z * newResolutionScale == zoom * oldResolutionScale
  {
    var oldScale := oldResolutionScale / displayScale;
    var newScale := newResolutionScale / displayScale;
    var rawZoom := zoom * oldScale;
    assert rawZoom / newScale * newScale == rawZoom;
    assert newScale * displayScale == newResolutionScale;
    assert rawZoom * displayScale == zoom * oldResolutionScale;
    rawZoom / newScale
  }

  /** Changing the resolution and changing it back restores the zoom, whatever the
      display scale was each time. */
  lemma CompensationIsReversible(zoom: real, a: real, b: real, d: real, e: real)
    requires a != 0.0 && b != 0.0 && d != 0.0 && e != 0.0
    ensures CompensatedZoom(CompensatedZoom(zoom, a, b, d), b, a, e) == zoom
  {
    var z1 := CompensatedZoom(zoom, a, b, d);
    var z2 := CompensatedZoom(z1, b, a, e);
    assert z2 * a == z1 * b == zoom * a;
  }

  /** Float64 to Int conversion: truncation toward zero (it traps outside Int's
      range). */
  function TruncatedToInt(v: real): (n: int)
    requires INT64_MIN as real - 1.0 < v < INT64_MAX as real + 1.0
    ensures 0.0 <= v ==> n as real <= v < n as real + 1.0
    ensures v < 0.0 ==> n as real - 1.0 < v <= n as real
  {
    if 0.0 <= v then v.Floor else -((-v).Floor)
  }

  /** One axis of SliderPlaneInner's drag: the pointer's offset into the square as a
      fraction of its side, held to [0, 1], scaled into [lo, hi]. */
  function DragAxis(lo: real, hi: real, origin: real, size: real, location: real): (v: real)
    requires size != 0.0
    ensures lo <= hi ==> lo <= v <= hi
  {
    var scale := (origin - location) / size;
    var fraction := ClampReal(-scale, 0.0, 1.0);
    Interpolate(lo, hi, fraction)
  }

  /** The point a fraction t of the way from lo to hi; for t in [0, 1] it lies
      between them. */
  function Interpolate(lo: real, hi: real, t: real): (v: real)
    ensures 0.0 <= t <= 1.0 && lo <= hi ==> lo <= v <= hi
    ensures v - lo == t * (hi - lo)
  {
    FractionOfRange(lo, hi, t);
    lo + t * (hi - lo)
  }

  /** The drag on both axes: minVal + clamp01(fraction)·(maxVal - minVal). */
  function DragValue(minVal: Float2, maxVal: Float2, origin: Float2, size: Float2, location: Float2): (v: Float2)
    requires size.x != 0.0 && size.y != 0.0
    ensures minVal.x <= maxVal.x ==> minVal.x <= v.x <= maxVal.x
    ensures minVal.y <= maxVal.y ==> minVal.y <= v.y <= maxVal.y
  {
    Float2(DragAxis(minVal.x, maxVal.x, origin.x, size.x, location.x),
           DragAxis(minVal.y, maxVal.y, origin.y, size.y, location.y))
  }

  lemma MulNonNegative(a: real, b: real)
    requires 0.0 <= a && 0.0 <= b
    ensures 0.0 <= a * b
  {
  }

  /** A fraction in [0, 1] of an interval's width is between 0 and the width. */
  lemma FractionOfRange(lo: real, hi: real, t: real)
    ensures 0.0 <= t <= 1.0 && lo <= hi ==> 0.0 <= t * (hi - lo) <= hi - lo
  {
    var d := hi - lo;
    if 0.0 <= t <= 1.0 && 0.0 <= d {
      MulNonNegative(t, d);
      MulNonNegative(1.0 - t, d);
    }
  }

  /** One axis of where SliderPlaneInner draws its knob for a value. */
  function KnobAxis(value: real, lo: real, hi: real, origin: real, size: real): real
    requires hi != lo
  {
    origin + size * ((value - lo) / (hi - lo))
  }

  /** Where SliderPlaneInner draws its knob for a value. */
  function KnobPosition(value: Float2, minVal: Float2, maxVal: Float2, origin: Float2, size: Float2): Float2
    requires maxVal.x != minVal.x && maxVal.y != minVal.y
  {
    Float2(KnobAxis(value.x, minVal.x, maxVal.x, origin.x, size.x),
           KnobAxis(value.y, minVal.y, maxVal.y, origin.y, size.y))
  }

  /** After a drag the knob sits under the pointer, or on the nearest edge of the
      square when the pointer has left it. */
  lemma KnobFollowsDrag(minVal: Float2, maxVal: Float2, origin: Float2, size: Float2, location: Float2)
    requires size.x > 0.0 && size.y > 0.0
    requires maxVal.x != minVal.x && maxVal.y != minVal.y
    ensures KnobPosition(DragValue(minVal, maxVal, origin, size, location), minVal, maxVal, origin, size) ==
      Float2(ClampReal(location.x, origin.x, origin.x + size.x), ClampReal(location.y, origin.y, origin.y + size.y))
  {
    AxisFollowsDrag(minVal.x, maxVal.x, origin.x, size.x, location.x);
    AxisFollowsDrag(minVal.y, maxVal.y, origin.y, size.y, location.y);
  }

  /** (a / s)·s == a and (a·s) / s == a. */
  lemma DivisionCancels(a: real, s: real)
    requires s != 0.0
    ensures a / s * s == a && a * s / s == a
  {
  }

  /** For a positive side, the fraction (location - origin) / size is below 0 exactly
      when the pointer is before the origin, and above 1 exactly when it is past the
      far edge. */
  lemma FractionBounds(origin: real, size: real, location: real)
    requires size > 0.0
    ensures -((origin - location) / size) == (location - origin) / size
    ensures (location - origin) / size < 0.0 <==> location < origin
    ensures (location - origin) / size > 1.0 <==> location > origin + size
  {
    DivisionCancels(location - origin, size);
  }

  /** The knob of the value a fraction t of the way through [lo, hi] is t of the way
      along the side. */
  lemma KnobOfFraction(lo: real, hi: real, origin: real, size: real, t: real)
    requires hi != lo
    ensures KnobAxis(Interpolate(lo, hi, t), lo, hi, origin, size) == origin + size * t
  {
    DivisionCancels(t, hi - lo);
  }

  /** KnobFollowsDrag on one axis. */
  lemma AxisFollowsDrag(lo: real, hi: real, origin: real, size: real, location: real)
    requires size > 0.0 && hi != lo
    ensures KnobAxis(DragAxis(lo, hi, origin, size, location), lo, hi, origin, size) ==
      ClampReal(location, origin, origin + size)
  {
    var u := (location - origin) / size;
    FractionBounds(origin, size, location);
    var t := ClampReal(u, 0.0, 1.0);
    KnobOfFraction(lo, hi, origin, size, t);
    assert DragAxis(lo, hi, origin, size, location) == Interpolate(lo, hi, t);
    DivisionCancels(location - origin, size);
    if u < 0.0 {
    } else if u > 1.0 {
    } else {
      assert t == u;
    }
  }

  // ---------------------------------------------------------------------------
  // The handlers

  class ContentView {
    const model: Model
    const canvas: CanvasModel

    constructor (model: Model, canvas: CanvasModel)
      ensures this.model == model && this.canvas == canvas
    {
      this.model := model;
      this.canvas := canvas;
    }

    /** The resolutionScale change handler. */
    method OnResolutionScaleChange(oldResolutionScale: real, newResolutionScale: real)
      requires canvas.displayScale != 0.0 && newResolutionScale != 0.0
      modifies model
      ensures model.State() == old(model.State()).(zoom :=
        CompensatedZoom(old(model.zoom), oldResolutionScale, newResolutionScale, canvas.displayScale))
      ensures model.zoom * newResolutionScale == old(model.zoom) * oldResolutionScale
    {
      var oldScale := oldResolutionScale / canvas.displayScale;
      var newScale := newResolutionScale / canvas.displayScale;
      var rawZoom := model.zoom * oldScale;
      model.zoom := rawZoom / newScale;
    }
  }

  class ConfigView {
    const model: Model

    constructor (model: Model)
      ensures this.model == model
    {
      this.model := model;
    }

    /** The setter of the Position plane's binding. */
    method SetCOffset(v: Float2)
      modifies model
      ensures model.State() == old(model.State()).(cOffset := v, dirty := true)
    {
      model.cOffset := v;
      model.dirty := true;
    }

    /** The setter of the Z Offset plane's binding. */
    method SetZInitial(v: Float2)
      modifies model
      ensures model.State() == old(model.State()).(zInitial := v, dirty := true)
    {
      model.zInitial := v;
      model.dirty := true;
    }
  }

  class CanvasConfigView {
    const model: Model
    const canvas: CanvasModel
    var stepsText: string
    var wrapText: string

    constructor (model: Model, canvas: CanvasModel)
      ensures this.model == model && this.canvas == canvas
      ensures stepsText == Show(model.steps) && wrapText == Show(model.colourCount)
    {
      this.model := model;
      this.canvas := canvas;
      stepsText := Show(model.steps);
      wrapText := Show(model.colourCount);
    }

    /** The Fractal picker's change handler. */
    method OnFractalChange(newFractal: Fractal)
      modifies model
      ensures model.State() == FractalChanged(old(model.State()), newFractal)
    {
      model.selectedFractal := newFractal;
      var temp := model.prevZ;
      model.prevZ := model.zInitial;
      model.zInitial := temp;
      model.dirty := true;
      if newFractal == Newton {
        model.zoom := 1.0;
      }
    }

    /** The Colouring picker's change handler. */
    method OnColouringChange(newColouring: NewtonColouring)
      modifies model
      ensures model.State() == old(model.State()).(newtonColouring := newColouring, dirty := true)
    {
      model.newtonColouring := newColouring;
      model.dirty := true;
    }

    /** Submitting the steps field; the field always ends up showing the model's value. */
    method SubmitSteps()
      modifies model, this
      ensures model.State() == StepsSubmitted(old(model.State()), old(stepsText))
      ensures stepsText == Show(model.steps) && wrapText == old(wrapText)
    {
      var maxSteps := MAX_STEPS;
      var parsed := ParseInt(stepsText, INT64_MIN, INT64_MAX);
      if parsed.Some? {
        model.steps := ClampInt(parsed.value, 2, maxSteps);
        model.dirty := true;
      }
      stepsText := Show(model.steps);
    }

    /** Submitting the wrap field. */
    method SubmitWrap()
      modifies model, this
      ensures model.State() == WrapSubmitted(old(model.State()), old(wrapText))
      ensures wrapText == Show(model.colourCount) && stepsText == old(stepsText)
    {
      var maxSteps := MAX_STEPS;
      var parsed := ParseInt(wrapText, INT64_MIN, INT64_MAX);
      if parsed.Some? {
        model.colourCount := ClampInt(parsed.value, 2, maxSteps);
        model.dirty := true;
      }
      wrapText := Show(model.colourCount);
    }

    /** The getter of the resolution slider's binding. */
    function ResolutionValue(): (v: real)
      reads canvas
      ensures v + canvas.resolutionScale == MIN_RES + MAX_RES
    {
      MAX_RES - canvas.resolutionScale + MIN_RES
    }

    /** The setter of the resolution slider's binding: reading the slider back gives
      the value just set. */
    method SetResolution(v: real)
      modifies canvas, model
      ensures canvas.resolutionScale == Flipped(v)
      ensures canvas.displayScale == old(canvas.displayScale) && canvas.fps == old(canvas.fps)
      ensures model.State() == old(model.State()).(dirty := true)
      ensures ResolutionValue() == v
      ensures MIN_RES <= v <= MAX_RES ==> MIN_RES <= canvas.resolutionScale <= MAX_RES
    {
      canvas.resolutionScale := MAX_RES - v + MIN_RES;
      model.dirty := true;
    }

    /** The setter of the FPS slider's binding. */
    method SetFps(v: real)
      requires INT64_MIN as real - 1.0 < v < INT64_MAX as real + 1.0
      modifies canvas
      ensures canvas.fps == TruncatedToInt(v)
      ensures canvas.resolutionScale == old(canvas.resolutionScale) && canvas.displayScale == old(canvas.displayScale)
    {
      canvas.fps := TruncatedToInt(v);
    }
  }

  /** A two-dimensional slider over [minVal, maxVal]; value is the plane's binding. */
  class SliderPlane {
    var value: Float2
    const minVal: Float2
    const maxVal: Float2

    constructor (value: Float2, minVal: Float2, maxVal: Float2)
      ensures this.value == value && this.minVal == minVal && this.maxVal == maxVal
    {
      this.value := value;
      this.minVal := minVal;
      this.maxVal := maxVal;
    }

    /** The R field's setter; parsed is the text read as a Float64. */
    method SetRealText(parsed: Option<real>)
      modifies this
      ensures parsed.Some? ==> value == Float2(ClampReal(parsed.value, minVal.x, maxVal.x), old(value).y)
      ensures parsed.None? ==> value == old(value)
      ensures minVal.x <= maxVal.x && minVal.x <= old(value).x <= maxVal.x ==> minVal.x <= value.x <= maxVal.x
    {
      if parsed.Some? {
        value := value.(x := ClampReal(parsed.value, minVal.x, maxVal.x));
      }
    }

    /** The I field's setter. */
    method SetImaginaryText(parsed: Option<real>)
      modifies this
      ensures parsed.Some? ==> value == Float2(old(value).x, ClampReal(parsed.value, minVal.y, maxVal.y))
      ensures parsed.None? ==> value == old(value)
      ensures minVal.y <= maxVal.y && minVal.y <= old(value).y <= maxVal.y ==> minVal.y <= value.y <= maxVal.y
    {
      if parsed.Some? {
        value := value.(y := ClampReal(parsed.value, minVal.y, maxVal.y));
      }
    }
  }

  /** The square of a SliderPlane, sharing its value binding. */
  class SliderPlaneInner {
    var value: Float2
    const minVal: Float2
    const maxVal: Float2
    const origin: Float2
    const size: Float2

    constructor (value: Float2, minVal: Float2, maxVal: Float2, origin: Float2, size: Float2)
      ensures this.value == value && this.minVal == minVal && this.maxVal == maxVal
      ensures this.origin == origin && this.size == size
    {
      this.value := value;
      this.minVal := minVal;
      this.maxVal := maxVal;
      this.origin := origin;
      this.size := size;
    }

    /** The drag gesture's change handler. */
    method Drag(location: Float2)
      requires size.x != 0.0 && size.y != 0.0
      modifies this
      ensures value == DragValue(minVal, maxVal, origin, size, location)
      ensures minVal.x <= maxVal.x && minVal.y <= maxVal.y ==>
        minVal.x <= value.x <= maxVal.x && minVal.y <= value.y <= maxVal.y
    {
      var xScale := (origin.x - location.x) / size.x;
      var yScale := (origin.y - location.y) / size.y;
      var range := ComplexSub(maxVal, minVal);
      var fraction := Float2(ClampReal(-xScale, 0.0, 1.0), ClampReal(-yScale, 0.0, 1.0));
      value := ComplexAdd(minVal, Float2(fraction.x * range.x, fraction.y * range.y));
      assert value.x == Interpolate(minVal.x, maxVal.x, fraction.x);
      assert value.y == Interpolate(minVal.y, maxVal.y, fraction.y);
    }
  }
}
