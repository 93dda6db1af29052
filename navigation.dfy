/**
 * The motion-to-navigation transform of `SpaceMousePlugin.handle_movement`
 * in spacemouse_plugin.py, and the map canvas it drives.
 *
 * In order: per-axis inversion, a deadzone that zeroes every axis strictly
 * below the threshold, an early exit when all three axes are then zero, an
 * optional exchange of Y and Z, then a pan of the centre by a share of the
 * visible extent and a zoom by `1 - z * zoom_sensitivity`.
 */
module Navigation {
  import opened Wrappers
  import opened ReportParser

  /** The plugin's settings record. */
  datatype NavigationConfig = NavigationConfig(
    invertX: bool,
    invertY: bool,
    invertZ: bool,
    swapYZ: bool,
    panSensitivity: real,
    zoomSensitivity: real,
    deadzone: real)

  /** The defaults `load_settings` falls back to. */
  const DefaultConfig: NavigationConfig :=
    NavigationConfig(false, false, false, true, 0.005, 0.01, 0.05)

  /** The ranges the settings dialog's spin boxes allow. */
  predicate ValidConfig(c: NavigationConfig)
  {
    && 0.001 <= c.panSensitivity <= 0.1
    && 0.001 <= c.zoomSensitivity <= 0.1
    && 0.0 <= c.deadzone <= 0.2
  }

  /** Step 1: negate each axis whose invert flag is set. */
  function Invert(v: MotionVector, c: NavigationConfig): (w: MotionVector)
    ensures Abs(w.x) == Abs(v.x) && Abs(w.y) == Abs(v.y) && Abs(w.z) == Abs(v.z)
  {
    MotionVector(
      if c.invertX then -v.x else v.x,
      if c.invertY then -v.y else v.y,
      if c.invertZ then -v.z else v.z)
  }

  /** One axis through the deadzone. */
  function Clip(a: real, deadzone: real): (r: real)
    ensures Abs(a) < deadzone ==> r == 0.0
    ensures Abs(a) >= deadzone ==> r == a
  {
    if Abs(a) < deadzone then 0.0 else a
  }

  /** Step 2: zero every axis whose magnitude is strictly below the deadzone. */
  function Deadzone(v: MotionVector, deadzone: real): MotionVector
  {
    MotionVector(Clip(v.x, deadzone), Clip(v.y, deadzone), Clip(v.z, deadzone))
  }

  /** Step 4: exchange Y and Z when configured. */
  function SwapYZ(v: MotionVector, swap: bool): MotionVector
  {
    if swap then MotionVector(v.x, v.z, v.y) else v
  }

  /**
   * What one movement asks of the canvas: nothing at all, or a optional pan
   * of the centre by (dx, dy), an optional zoom factor, and a refresh.
   */
  datatype Command = NoOp | Move(pan: Option<(real, real)>, zoom: Option<real>)

  /** The axes after inversion and deadzone. */
  function Filtered(v: MotionVector, c: NavigationConfig): MotionVector
  {
    Deadzone(Invert(v, c), c.deadzone)
  }

  /** The axes that drive the pan (x, y) and the zoom (z). */
  function Steered(v: MotionVector, c: NavigationConfig): MotionVector
  {
    SwapYZ(Filtered(v, c), c.swapYZ)
  }

  /** Steps 5 and 6: the pan and zoom that the steered axes call for. */
  function MoveFor(x: real, y: real, z: real, panSensitivity: real, zoomSensitivity: real, width: real, height: real): Command
  {
    var panX := x * width * panSensitivity;
    var panY := -y * height * panSensitivity;
    Move(
      if panX != 0.0 || panY != 0.0 then Some((panX, panY)) else None,
      if z != 0.0 then Some(1.0 - z * zoomSensitivity) else None)
  }

  /** The whole transform for a canvas extent of `width` by `height`. */
  function Transform(v: MotionVector, c: NavigationConfig, width: real, height: real): Command
  {
    if Filtered(v, c) == Zero then NoOp
    else
      var s := Steered(v, c);
      MoveFor(s.x, s.y, s.z, c.panSensitivity, c.zoomSensitivity, width, height)
  }

  // ---------------------------------------------------------------------
  // The canvas

  datatype CanvasCall = SetCenter(x: real, y: real) | ZoomByFactor(factor: real) | Refresh

  /** Centre and extent of the visible map. */
  datatype ViewState = ViewState(centerX: real, centerY: real, width: real, height: real)

  /** The calls the transform's command makes on a canvas in state `s`. */
  function CanvasCalls(cmd: Command, s: ViewState): seq<CanvasCall>
  {
    match cmd
    case NoOp => []
    case Move(pan, zoom) =>
      (if pan.Some? then [SetCenter(s.centerX + pan.value.0, s.centerY + pan.value.1)] else [])
      + (if zoom.Some? then [ZoomByFactor(zoom.value)] else [])
      + [Refresh]
  }

  /** The canvas state that those calls leave behind. */
  function Apply(cmd: Command, s: ViewState): ViewState
  {
    match cmd
    case NoOp => s
    case Move(pan, zoom) =>
      var centered := if pan.Some? then s.(centerX := s.centerX + pan.value.0, centerY := s.centerY + pan.value.1) else s;
      if zoom.Some? then centered.(width := centered.width * zoom.value, height := centered.height * zoom.value)
      else centered
  }

  /**
   * The map canvas: `setCenter` moves the centre, `zoomByFactor` scales the
   * extent about the centre, `refresh` redraws; every call is recorded.
   */
  class Viewport {
    var centerX: real
    var centerY: real
    var width: real
    var height: real
    var calls: seq<CanvasCall>

    constructor (s: ViewState)
      ensures State() == s && calls == []
    {
      centerX, centerY, width, height := s.centerX, s.centerY, s.width, s.height;
      calls := [];
    }

    function State(): ViewState
      reads this
    {
      ViewState(centerX, centerY, width, height)
    }

    method SetCenter(x: real, y: real)
      modifies this
      ensures State() == old(State()).(centerX := x, centerY := y)
      ensures calls == old(calls) + [CanvasCall.SetCenter(x, y)]
    {
      centerX, centerY := x, y;
      calls := calls + [CanvasCall.SetCenter(x, y)];
    }

    method ZoomByFactor(factor: real)
      modifies this
      ensures State() == old(State()).(width := old(width) * factor, height := old(height) * factor)
      ensures calls == old(calls) + [CanvasCall.ZoomByFactor(factor)]
    {
      width, height := width * factor, height * factor;
      calls := calls + [CanvasCall.ZoomByFactor(factor)];
    }

    method Refresh()
      modifies this
      ensures State() == old(State())
      ensures calls == old(calls) + [CanvasCall.Refresh]
    {
      calls := calls + [CanvasCall.Refresh];
    }
  }

  // ---------------------------------------------------------------------
  // Properties of the transform

  lemma DefaultConfigIsValid()
    ensures ValidConfig(DefaultConfig)
  {
  }

  /** Inverting an axis twice restores it. */
  lemma InvertTwice(v: MotionVector, c: NavigationConfig)
    ensures Invert(Invert(v, c), c) == v
  {
  }

  /** Flipping an invert flag and negating that axis of the input gives the same command. */
  lemma InvertFlagCancelsNegation(v: MotionVector, c: NavigationConfig, width: real, height: real)
    ensures Transform(MotionVector(-v.x, v.y, v.z), c.(invertX := !c.invertX), width, height) == Transform(v, c, width, height)
    ensures Transform(MotionVector(v.x, -v.y, v.z), c.(invertY := !c.invertY), width, height) == Transform(v, c, width, height)
    ensures Transform(MotionVector(v.x, v.y, -v.z), c.(invertZ := !c.invertZ), width, height) == Transform(v, c, width, height)
  {
  }

  /** The command depends on the input and the flags only through the filtered axes. */
  lemma SameFilterSameCommand(v: MotionVector, c: NavigationConfig, v': MotionVector, c': NavigationConfig, width: real, height: real)
    requires Filtered(v, c) == Filtered(v', c')
    requires c.swapYZ == c'.swapYZ && c.panSensitivity == c'.panSensitivity && c.zoomSensitivity == c'.zoomSensitivity
    ensures Transform(v, c, width, height) == Transform(v', c', width, height)
  {
  }

  /** The deadzone is symmetric, so applying inversion before or after it gives the same axes. */
  lemma InvertCommutesWithDeadzone(v: MotionVector, c: NavigationConfig)
    ensures Deadzone(Invert(v, c), c.deadzone) == Invert(Deadzone(v, c.deadzone), c)
  {
  }

  /** The early exit is taken exactly when every axis is zero or strictly inside the deadzone. */
  lemma NoOpIffInsideDeadzone(v: MotionVector, c: NavigationConfig, width: real, height: real)
    ensures Transform(v, c, width, height) == NoOp <==>
      (v.x == 0.0 || Abs(v.x) < c.deadzone) && (v.y == 0.0 || Abs(v.y) < c.deadzone) && (v.z == 0.0 || Abs(v.z) < c.deadzone)
  {
  }

  /** Movement strictly inside the deadzone on every axis never reaches the canvas. */
  lemma InsideDeadzoneLeavesCanvasAlone(v: MotionVector, c: NavigationConfig, s: ViewState)
    requires Abs(v.x) < c.deadzone && Abs(v.y) < c.deadzone && Abs(v.z) < c.deadzone
    ensures CanvasCalls(Transform(v, c, s.width, s.height), s) == []
    ensures Apply(Transform(v, c, s.width, s.height), s) == s
  {
  }

  /** The transform exits early exactly when the filtered axes are all zero, and otherwise moves by the steered axes. */
  lemma TransformCases(v: MotionVector, c: NavigationConfig, width: real, height: real)
    ensures Transform(v, c, width, height).NoOp? <==> Filtered(v, c) == Zero
    ensures Transform(v, c, width, height).Move? ==>
      Transform(v, c, width, height)
        == MoveFor(Steered(v, c).x, Steered(v, c).y, Steered(v, c).z, c.panSensitivity, c.zoomSensitivity, width, height)
    ensures Filtered(v, c) == Zero <==> Steered(v, c) == Zero
  {
  }

  /**
   * The pan and the zoom of a move: pan (x * width * sens, -y * height *
   * sens) when that is not (0, 0), zoom 1 - z * sens when z is not 0.
   */
  lemma MoveForComponents(x: real, y: real, z: real, panSensitivity: real, zoomSensitivity: real, width: real, height: real)
    ensures MoveFor(x, y, z, panSensitivity, zoomSensitivity, width, height).pan.Some?
        <==> x * width * panSensitivity != 0.0 || -y * height * panSensitivity != 0.0
    ensures MoveFor(x, y, z, panSensitivity, zoomSensitivity, width, height).pan.Some? ==>
      MoveFor(x, y, z, panSensitivity, zoomSensitivity, width, height).pan.value
        == (x * width * panSensitivity, -y * height * panSensitivity)
    ensures MoveFor(x, y, z, panSensitivity, zoomSensitivity, width, height).zoom.Some? <==> z != 0.0
    ensures MoveFor(x, y, z, panSensitivity, zoomSensitivity, width, height).zoom.Some? ==>
      MoveFor(x, y, z, panSensitivity, zoomSensitivity, width, height).zoom.value == 1.0 - z * zoomSensitivity
  {
  }

  /** A movement along the zoom axis alone never pans, and one in the pan plane alone never zooms. */
  lemma PanAndZoomIndependent(v: MotionVector, c: NavigationConfig, width: real, height: real)
    requires Transform(v, c, width, height).Move?
    ensures Steered(v, c).x == 0.0 && Steered(v, c).y == 0.0 ==> Transform(v, c, width, height).pan.None?
    ensures Steered(v, c).z == 0.0 ==> Transform(v, c, width, height).zoom.None?
  {
  }

  /** With sensible settings, upward z zooms in (factor below 1), downward z zooms out. */
  lemma ZoomDirection(v: MotionVector, c: NavigationConfig, width: real, height: real)
    requires ValidConfig(c)
    requires Transform(v, c, width, height).Move? && Transform(v, c, width, height).zoom.Some?
    ensures Steered(v, c).z > 0.0 <==> Transform(v, c, width, height).zoom.value < 1.0
    ensures Steered(v, c).z < 0.0 <==> Transform(v, c, width, height).zoom.value > 1.0
  {
  }

  /**
   * Toggling swap_yz exchanges the roles of y and z: it gives the command
   * the unswapped setting gives for the input with y and z (and their invert
   * flags) exchanged.
   */
  lemma SwapToggleExchangesAxes(v: MotionVector, c: NavigationConfig, width: real, height: real)
    ensures Transform(v, c.(swapYZ := !c.swapYZ), width, height)
         == Transform(MotionVector(v.x, v.z, v.y), c.(invertY := c.invertZ, invertZ := c.invertY), width, height)
  {
  }

  /** Whenever the early exit is not taken the canvas is refreshed exactly once, last. */
  lemma RefreshOnceAndLast(cmd: Command, s: ViewState)
    ensures cmd.NoOp? ==> CanvasCalls(cmd, s) == []
    ensures cmd.Move? ==> |CanvasCalls(cmd, s)| >= 1 && CanvasCalls(cmd, s)[|CanvasCalls(cmd, s)| - 1] == Refresh
    ensures cmd.Move? ==> forall k :: 0 <= k < |CanvasCalls(cmd, s)| - 1 ==> !CanvasCalls(cmd, s)[k].Refresh?
  {
  }

  /** Scenario: 100/350 on X with the deadzone at 0.05 and no swap pans right only. */
  lemma HundredOnXPansRight(width: real, height: real)
    requires width > 0.0
    ensures var c := DefaultConfig.(swapYZ := false);
      Transform(MotionVector(100.0 / 350.0, 0.0, 0.0), c, width, height)
        == Move(Some((100.0 / 350.0 * width * 0.005, 0.0)), None)
  {
  }

  /** Scenario: with the default swap, forward y zooms and up z pans vertically. */
  lemma SwapRoutesYToZoom(width: real, height: real)
    ensures Transform(MotionVector(0.0, 0.2, 0.5), DefaultConfig, width, height)
         == Move(if height != 0.0 then Some((0.0, -0.5 * height * 0.005)) else None, Some(1.0 - 0.2 * 0.01))
  {
  }
}
