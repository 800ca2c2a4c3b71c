/** The state rules of the older app generation, whose views reach the renderer's
    inputs through model.fractal.input: the key that shows and hides the settings
    overlay, and the overlay's Int32 and Float fields. The inputs the handlers touch are
    flattened into one Model object; Float values are reals, and the Float text of the
    z_initial fields arrives already parsed, as an Option. */
module FractalAppApp {
  import opened Complex
  import opened Decimal
  import opened Clamping
  import opened ShaderTypes

  /** Key code of 'e', which toggles the overlay. */
  const KEY_E := 14

  /** The cap on steps and wrap in this generation. */
  const MAX_STEPS := 10000

  const Z_MAX := 2.0

  datatype KeyEvent = KeyEvent(keyCode: nat)

  /** The fields of model.fractal.input that the handlers touch, with the model's dirty
      flag. */
  datatype InputState = InputState(dirty: bool, steps: int32, colourCount: int32, zInitial: Float2)

  /** M, the observable flag that decides whether the overlay is drawn. */
  class M {
    var showUi: bool
  }

  class Model {
    var dirty: bool
    var steps: int32
    var colourCount: int32
    var zInitial: Float2

    function State(): InputState
      reads this
    {
      InputState(dirty, steps, colourCount, zInitial)
    }
  }

  /** What the key monitor leaves behind: the overlay flag, the inputs, and the event
      it passes on (None when it consumes it). */
  datatype KeyOutcome = KeyOutcome(showUi: bool, state: InputState, passed: Option<KeyEvent>)

  function KeyDown(showUi: bool, s: InputState, e: KeyEvent): (r: KeyOutcome)
    ensures e.keyCode == KEY_E ==> r == KeyOutcome(!showUi, s.(dirty := true), None)
    ensures e.keyCode != KEY_E ==> r == KeyOutcome(showUi, s, Some(e))
  {
    if e.keyCode == KEY_E then KeyOutcome(!showUi, s.(dirty := true), None)
    else KeyOutcome(showUi, s, Some(e))
  }

  /** Pressing 'e' twice shows the overlay as before (and leaves the model dirty);
      the monitor consumes exactly the 'e' presses. */
  lemma KeyETwiceRestoresOverlay(showUi: bool, s: InputState, e: KeyEvent)
    requires e.keyCode == KEY_E
    ensures var once := KeyDown(showUi, s, e);
      KeyDown(once.showUi, once.state, e) == KeyOutcome(showUi, s.(dirty := true), None)
  {
  }

  /** An Int32 field's text on submit: the parsed value clamped into [2, 10000], or None
      when the text is not an Int32. */
  function Int32Submission(text: string): (r: Option<int32>)
    ensures r.Some? ==> 2 <= r.value <= MAX_STEPS as int32
    ensures r.None? <==> ParseInt(text, INT32_MIN, INT32_MAX).None?
    ensures r.Some? && 2 <= ParseInt(text, INT32_MIN, INT32_MAX).value <= MAX_STEPS ==>
      r.value as int == ParseInt(text, INT32_MIN, INT32_MAX).value
    ensures ParseInt(text, INT32_MIN, INT32_MAX).Some? ==>
      r == Some(ClampInt(ParseInt(text, INT32_MIN, INT32_MAX).value, 2, MAX_STEPS) as int32)
    ensures ParseInt(text, INT32_MIN, INT32_MAX).Some? && ParseInt(text, INT32_MIN, INT32_MAX).value < 2 ==>
      r == Some(2)
    ensures ParseInt(text, INT32_MIN, INT32_MAX).Some? && ParseInt(text, INT32_MIN, INT32_MAX).value > MAX_STEPS ==>
      r == Some(MAX_STEPS as int32)
  {
    match ParseInt(text, INT32_MIN, INT32_MAX)
    case Some(n) => Some(ClampInt(n, 2, MAX_STEPS) as int32)
    case None => None
  }

  /** A field showing an in-range value submits that same value. */
  lemma ShownValueResubmits(n: int32)
    requires 2 <= n <= MAX_STEPS as int32
    ensures Int32Submission(Show(n as int)) == Some(n)
  {
    ParseShow(n as int, INT32_MIN, INT32_MAX);
  }

  function StepsSubmitted(s: InputState, text: string): (r: InputState)
    ensures Int32Submission(text).Some? ==> r == s.(steps := Int32Submission(text).value, dirty := true)
    ensures Int32Submission(text).None? ==> r == s
  {
    match Int32Submission(text)
    case Some(n) => s.(steps := n, dirty := true)
    case None => s
  }

  function WrapSubmitted(s: InputState, text: string): (r: InputState)
    ensures Int32Submission(text).Some? ==> r == s.(colourCount := Int32Submission(text).value, dirty := true)
    ensures Int32Submission(text).None? ==> r == s
  {
    match Int32Submission(text)
    case Some(n) => s.(colourCount := n, dirty := true)
    case None => s
  }

  /** Submitting leaves steps in [2, 10000] unless the text failed to parse, and
      submitting the text the field was reset to changes nothing but dirty. */
  lemma StepsSubmitSettles(s: InputState, text: string)
    ensures var r := StepsSubmitted(s, text);
      r.steps == s.steps || 2 <= r.steps <= MAX_STEPS as int32
    ensures var r := StepsSubmitted(s, text);
      2 <= r.steps <= MAX_STEPS as int32 ==> StepsSubmitted(r, Show(r.steps as int)) == r.(dirty := true)
  {
    var r := StepsSubmitted(s, text);
    if 2 <= r.steps <= MAX_STEPS as int32 {
      ShownValueResubmits(r.steps);
    }
  }

  /** The same for the wrap field and colour_count. */
  lemma WrapSubmitSettles(s: InputState, text: string)
    ensures var r := WrapSubmitted(s, text);
      r.colourCount == s.colourCount || 2 <= r.colourCount <= MAX_STEPS as int32
    ensures var r := WrapSubmitted(s, text);
      2 <= r.colourCount <= MAX_STEPS as int32 ==> WrapSubmitted(r, Show(r.colourCount as int)) == r.(dirty := true)
  {
    var r := WrapSubmitted(s, text);
    if 2 <= r.colourCount <= MAX_STEPS as int32 {
      ShownValueResubmits(r.colourCount);
    }
  }

  class ContentView {
    const model: Model
    const show: M

    constructor (model: Model, show: M)
      ensures this.model == model && this.show == show
    {
      this.model := model;
      this.show := show;
    }

    /** The key-down monitor installed by init(). */
    method OnKeyDown(e: KeyEvent) returns (passed: Option<KeyEvent>)
      modifies show, model
      ensures KeyOutcome(show.showUi, model.State(), passed) == KeyDown(old(show.showUi), old(model.State()), e)
    {
      if e.keyCode == KEY_E {
        show.showUi := !show.showUi;
        model.dirty := true;
      } else {
        return Some(e);
      }
      return None;
    }
  }

  class ConfigView {
    const model: Model
    var stepsText: string
    var wrapText: string

    constructor (model: Model)
      ensures this.model == model
      ensures stepsText == Show(model.steps as int) && wrapText == Show(model.colourCount as int)
    {
      this.model := model;
      stepsText := Show(model.steps as int);
      wrapText := Show(model.colourCount as int);
    }

    /** Submitting the steps field; the field always ends up showing the model's value. */
    method SubmitSteps()
      modifies model, this
      ensures model.State() == StepsSubmitted(old(model.State()), old(stepsText))
      ensures stepsText == Show(model.steps as int) && wrapText == old(wrapText)
    {
      var parsed := ParseInt(stepsText, INT32_MIN, INT32_MAX);
      if parsed.Some? {
        model.steps := ClampInt(parsed.value, 2, MAX_STEPS) as int32;
        model.dirty := true;
      }
      stepsText := Show(model.steps as int);
    }

    /** Submitting the wrap field. */
    method SubmitWrap()
      modifies model, this
      ensures model.State() == WrapSubmitted(old(model.State()), old(wrapText))
      ensures wrapText == Show(model.colourCount as int) && stepsText == old(stepsText)
    {
      var parsed := ParseInt(wrapText, INT32_MIN, INT32_MAX);
      if parsed.Some? {
        model.colourCount := ClampInt(parsed.value, 2, MAX_STEPS) as int32;
        model.dirty := true;
      }
      wrapText := Show(model.colourCount as int);
    }

    /** The setter of the Z_r field's binding; parsed is the text read as a Float. */
    method SetZInitialRealText(parsed: Option<real>)
      modifies model
      ensures parsed.Some? ==>
        model.State() == old(model.State()).(zInitial := Float2(ClampReal(parsed.value, -Z_MAX, Z_MAX), old(model.zInitial.y)), dirty := true)
      ensures parsed.Some? ==> -Z_MAX <= model.zInitial.x <= Z_MAX
      ensures parsed.None? ==> model.State() == old(model.State())
    {
      if parsed.Some? {
        model.zInitial := model.zInitial.(x := ClampReal(parsed.value, -Z_MAX, Z_MAX));
        model.dirty := true;
      }
    }

    /** The setter of the Z_i field's binding. */
    method SetZInitialImaginaryText(parsed: Option<real>)
      modifies model
      ensures parsed.Some? ==>
        model.State() == old(model.State()).(zInitial := Float2(old(model.zInitial.x), ClampReal(parsed.value, -Z_MAX, Z_MAX)), dirty := true)
      ensures parsed.Some? ==> -Z_MAX <= model.zInitial.y <= Z_MAX
      ensures parsed.None? ==> model.State() == old(model.State())
    {
      if parsed.Some? {
        model.zInitial := model.zInitial.(y := ClampReal(parsed.value, -Z_MAX, Z_MAX));
        model.dirty := true;
      }
    }
  }
}
