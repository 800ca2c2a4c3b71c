/** The event monitors MetalView installs in the older app generation: the scroll
    wheel moves the animation frame (never below 0), and the WASD keys pan c_offset by
    a step that shrinks as t grows. The renderer fields they touch are flattened into
    one Model object; Float32 values are reals. */
module ContentView {
  import opened Complex

  const KEY_A := 0
  const KEY_S := 1
  const KEY_D := 2
  const KEY_W := 13

  datatype KeyEvent = KeyEvent(keyCode: nat)

  datatype ScrollEvent = ScrollEvent(scrollingDeltaY: real)

  /** The fields of model.fractal that the monitors touch. */
  class Model {
    var frameIndex: real
    var t: real
    var cOffset: Float2
  }

  /** The frame index after a scroll: moved by the wheel delta, held at 0 from below. */
  function Scrolled(frameIndex: real, deltaY: real): (r: real)
    ensures r >= 0.0
    ensures frameIndex + deltaY >= 0.0 ==> r == frameIndex + deltaY
    ensures frameIndex + deltaY < 0.0 ==> r == 0.0
  {
    var moved := frameIndex + deltaY;
    if moved < 0.0 then 0.0 else moved
  }

  /** Scrolling back by what was just scrolled returns to the start, provided the
      first scroll did not hit the floor. */
  lemma ScrollIsReversible(frameIndex: real, deltaY: real)
    requires frameIndex >= 0.0 && frameIndex + deltaY >= 0.0
    ensures Scrolled(Scrolled(frameIndex, deltaY), -deltaY) == frameIndex
  {
  }

  /** The pan step for the current t. */
  function PanStep(t: real): (delta: real)
    requires t != 0.0
    ensures delta * t == 10.0
  {
    10.0 / t
  }

  /** c_offset after a key press: 'a' and 'd' move x down and up, 's' and 'w' move y
      up and down, by the pan step; any other key leaves it alone. */
  function Panned(c: Float2, t: real, keyCode: nat): (r: Float2)
    requires t != 0.0
    ensures keyCode == KEY_A ==> r == Float2(c.x - PanStep(t), c.y)
    ensures keyCode == KEY_D ==> r == Float2(c.x + PanStep(t), c.y)
    ensures keyCode == KEY_S ==> r == Float2(c.x, c.y + PanStep(t))
    ensures keyCode == KEY_W ==> r == Float2(c.x, c.y - PanStep(t))
    ensures keyCode !in {KEY_A, KEY_S, KEY_D, KEY_W} ==> r == c
  {
    var delta := PanStep(t);
    if keyCode == KEY_A then c.(x := c.x - delta)
    else if keyCode == KEY_S then c.(y := c.y + delta)
    else if keyCode == KEY_D then c.(x := c.x + delta)
    else if keyCode == KEY_W then c.(y := c.y - delta)
    else c
  }

  /** Each key moves exactly one coordinate, by a non-zero amount. */
  lemma EachKeyMovesOneCoordinate(c: Float2, t: real, keyCode: nat)
    requires t != 0.0
    ensures keyCode == KEY_A || keyCode == KEY_D ==> Panned(c, t, keyCode).y == c.y && Panned(c, t, keyCode).x != c.x
    ensures keyCode == KEY_S || keyCode == KEY_W ==> Panned(c, t, keyCode).x == c.x && Panned(c, t, keyCode).y != c.y
  {
    var delta := PanStep(t);
    assert delta != 0.0;
  }

  /** Opposite keys cancel: 'a' then 'd', 'd' then 'a', 's' then 'w', 'w' then 's'. */
  lemma OppositeKeysCancel(c: Float2, t: real)
    requires t != 0.0
    ensures Panned(Panned(c, t, KEY_A), t, KEY_D) == c && Panned(Panned(c, t, KEY_D), t, KEY_A) == c
    ensures Panned(Panned(c, t, KEY_S), t, KEY_W) == c && Panned(Panned(c, t, KEY_W), t, KEY_S) == c
  {
  }

  class MetalView {
    const model: Model

    constructor (model: Model)
      ensures this.model == model
    {
      this.model := model;
    }

    /** The scroll-wheel monitor; it always passes the event on. */
    method OnScroll(e: ScrollEvent) returns (passed: ScrollEvent)
      modifies model
      ensures model.frameIndex == Scrolled(old(model.frameIndex), e.scrollingDeltaY)
      ensures model.t == old(model.t) && model.cOffset == old(model.cOffset)
      ensures passed == e
    {
      model.frameIndex := model.frameIndex + e.scrollingDeltaY;
      if model.frameIndex < 0.0 {
        model.frameIndex := 0.0;
      }
      return e;
    }

    /** The key-down monitor; it always passes the event on. */
    method OnKeyDown(e: KeyEvent) returns (passed: KeyEvent)
      requires model.t != 0.0
      modifies model
      ensures model.cOffset == Panned(old(model.cOffset), old(model.t), e.keyCode)
      ensures model.t == old(model.t) && model.frameIndex == old(model.frameIndex)
      ensures passed == e
    {
      var delta := 10.0 / model.t;
      match e.keyCode {
        case 0 => model.cOffset := model.cOffset.(x := model.cOffset.x - delta);
        case 1 => model.cOffset := model.cOffset.(y := model.cOffset.y + delta);
        case 2 => model.cOffset := model.cOffset.(x := model.cOffset.x + delta);
        case 13 => model.cOffset := model.cOffset.(y := model.cOffset.y - delta);
        case _ =>
      }
      return e;
    }
  }
}
