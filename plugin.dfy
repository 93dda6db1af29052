/**
 * The controller (`SpaceMousePlugin` in spacemouse_plugin.py): enabling and
 * disabling the reader thread, handling its errors, and applying each
 * movement to the map canvas.
 */
module Plugin {
  import opened ReportParser
  import opened Navigation
  import opened MotionReader

  /** One message-bar notification: title, text, level (0 info, 2 critical), seconds shown. */
  datatype Notice = Notice(title: string, text: string, level: int, duration: int)

  const EnabledNotice: Notice :=
    Notice("SpaceMouse", "SpaceMouse navigation enabled - check Python Console for details", 0, 3)
  const DisabledNotice: Notice := Notice("SpaceMouse", "SpaceMouse navigation disabled", 0, 3)

  function ErrorNotice(message: string): Notice
  {
    Notice("SpaceMouse Error", message, 2, 5)
  }

  class SpaceMousePlugin {
    /** The map canvas of the host window. */
    const canvas: Viewport
    /** Whether a HID library could be imported when the plugin was loaded. */
    const hidAvailable: bool
    var settings: NavigationConfig
    var thread: SpaceMouseThread?
    var enabled: bool
    /** Check state of the "Enable SpaceMouse" toolbar action. */
    var actionChecked: bool
    var notices: seq<Notice>

    constructor (canvas: Viewport, hidAvailable: bool)
      ensures this.canvas == canvas && this.hidAvailable == hidAvailable
      ensures settings == DefaultConfig && thread == null && !enabled && !actionChecked && notices == []
    {
      this.canvas := canvas;
      this.hidAvailable := hidAvailable;
      settings := DefaultConfig;
      thread := null;
      enabled := false;
      actionChecked := false;
      notices := [];
    }

    /** A new reader thread is started only when none is running and the HID library is present. */
    predicate CanStart()
      reads this, thread
    {
      hidAvailable && (thread == null || !thread.IsRunning())
    }

    method StartSpaceMouse()
      modifies this
      ensures old(CanStart()) ==>
        && thread != null && fresh(thread) && thread.IsRunning()
        && thread.signals == [] && thread.device == null
        && enabled && notices == old(notices) + [EnabledNotice]
      ensures !old(CanStart()) ==> thread == old(thread) && enabled == old(enabled) && notices == old(notices)
      ensures actionChecked == old(actionChecked) && settings == old(settings)
    {
      if !hidAvailable {
        return;
      }
      if thread == null || !thread.IsRunning() {
        var t := new SpaceMouseThread();
        t.Start();
        thread := t;
        enabled := true;
        notices := notices + [EnabledNotice];
      }
    }

    method StopSpaceMouse()
      modifies this, thread
      ensures old(thread) != null && old(thread.IsRunning()) ==>
        && thread == null && !enabled
        && !old(thread).running && old(thread).finished
        && old(thread).signals == old(thread.signals)
        && old(thread).started == old(thread.started) && old(thread).device == old(thread.device)
        && notices == old(notices) + [DisabledNotice]
      ensures !(old(thread) != null && old(thread.IsRunning())) ==>
        && thread == old(thread) && enabled == old(enabled) && notices == old(notices)
        && (thread != null ==> unchanged(thread))
      ensures actionChecked == old(actionChecked) && settings == old(settings)
    {
      if thread != null && thread.IsRunning() {
        thread.Stop();
        thread := null;
        enabled := false;
        notices := notices + [DisabledNotice];
      }
    }

    /** `toggle_spacemouse`: the action was (un)checked by the user. */
    method Toggle(checked: bool)
      modifies this, thread
      ensures actionChecked == checked && settings == old(settings)
      ensures checked && old(CanStart()) ==>
        && thread != null && fresh(thread) && thread.IsRunning()
        && thread.signals == [] && thread.device == null
        && enabled && notices == old(notices) + [EnabledNotice]
      ensures checked && !old(CanStart()) ==>
        thread == old(thread) && enabled == old(enabled) && notices == old(notices)
      ensures checked && old(thread) != null ==> unchanged(old(thread))
      ensures !checked && old(thread) != null && old(thread.IsRunning()) ==>
        && thread == null && !enabled
        && !old(thread).running && old(thread).finished
        && old(thread).signals == old(thread.signals)
        && old(thread).started == old(thread.started) && old(thread).device == old(thread.device)
        && notices == old(notices) + [DisabledNotice]
      ensures !checked && !(old(thread) != null && old(thread.IsRunning())) ==>
        && thread == old(thread) && enabled == old(enabled) && notices == old(notices)
        && (thread != null ==> unchanged(thread))
    {
      actionChecked := checked;
      if checked {
        StartSpaceMouse();
      } else {
        StopSpaceMouse();
      }
    }

    /** After a reported error the plugin is disabled and its action unchecked. */
    method HandleError(message: string)
      modifies this
      ensures notices == old(notices) + [ErrorNotice(message)]
      ensures !actionChecked && !enabled
      ensures thread == old(thread) && settings == old(settings)
    {
      notices := notices + [ErrorNotice(message)];
      actionChecked := false;
      enabled := false;
    }

    /** One movement from the reader, applied to the canvas step by step. */
    method HandleMovement(x: real, y: real, z: real)
      modifies canvas
      ensures canvas.calls == old(canvas.calls)
        + CanvasCalls(Transform(MotionVector(x, y, z), settings, old(canvas.width), old(canvas.height)), old(canvas.State()))
      ensures canvas.State()
        == Apply(Transform(MotionVector(x, y, z), settings, old(canvas.width), old(canvas.height)), old(canvas.State()))
    {
      TransformCases(MotionVector(x, y, z), settings, canvas.width, canvas.height);
      var vx, vy, vz := x, y, z;
      // Apply inversions
      if settings.invertX { vx := -vx; }
      if settings.invertY { vy := -vy; }
      if settings.invertZ { vz := -vz; }
      // Apply deadzone
      var deadzone := settings.deadzone;
      if Abs(vx) < deadzone { vx := 0.0; }
      if Abs(vy) < deadzone { vy := 0.0; }
      if Abs(vz) < deadzone { vz := 0.0; }
      assert MotionVector(vx, vy, vz) == Filtered(MotionVector(x, y, z), settings);
      if vx == 0.0 && vy == 0.0 && vz == 0.0 {
        return;
      }
      if settings.swapYZ {
        vy, vz := vz, vy;
      }
      assert MotionVector(vx, vy, vz) == Steered(MotionVector(x, y, z), settings);
      PanAndZoom(vx, vy, vz);
    }

    /** The second half of `handle_movement`: pan, zoom and refresh for the steered axes. */
    method PanAndZoom(vx: real, vy: real, vz: real)
      modifies canvas
      ensures canvas.calls == old(canvas.calls)
        + CanvasCalls(MoveFor(vx, vy, vz, settings.panSensitivity, settings.zoomSensitivity, old(canvas.width), old(canvas.height)), old(canvas.State()))
      ensures canvas.State()
        == Apply(MoveFor(vx, vy, vz, settings.panSensitivity, settings.zoomSensitivity, old(canvas.width), old(canvas.height)), old(canvas.State()))
    {
      var width := canvas.width;
      var height := canvas.height;
      var panSensitivity, zoomSensitivity := settings.panSensitivity, settings.zoomSensitivity;
      var panX := vx * width * panSensitivity;
      var panY := -vy * height * panSensitivity;
      MoveForComponents(vx, vy, vz, panSensitivity, zoomSensitivity, width, height);
      var center := (canvas.centerX, canvas.centerY);
      if panX != 0.0 || panY != 0.0 {
        canvas.SetCenter(center.0 + panX, center.1 + panY);
      }
      if vz != 0.0 {
        var zoomFactor := 1.0 - vz * zoomSensitivity;
        canvas.ZoomByFactor(zoomFactor);
      }
      canvas.Refresh();
    }

    /** Delivery of one thread signal to its connected handler. */
    method OnSignal(s: Signal)
      modifies this, canvas
      ensures s.Movement? ==>
        && canvas.calls == old(canvas.calls)
             + CanvasCalls(Transform(s.v, settings, old(canvas.width), old(canvas.height)), old(canvas.State()))
        && canvas.State() == Apply(Transform(s.v, settings, old(canvas.width), old(canvas.height)), old(canvas.State()))
        && enabled == old(enabled) && actionChecked == old(actionChecked) && notices == old(notices)
      ensures s.Error? ==>
        && !enabled && !actionChecked && notices == old(notices) + [ErrorNotice(s.message)]
        && canvas.calls == old(canvas.calls) && canvas.State() == old(canvas.State())
      ensures thread == old(thread) && settings == old(settings)
    {
      match s
      case Movement(v) => HandleMovement(v.x, v.y, v.z);
      case Error(message) => HandleError(message);
    }
  }
}
