# SpaceMouse navigation for QGIS: a Dafny model

This project models the device-read-and-normalise pipeline of the QGIS SpaceMouse
plugin (`spacemouse_plugin.py`). It has five modules:

- `ReportParser` (report_parser.dfy) decodes one HID report. A report of kind 1 carries X, Y and Z as
  little-endian 16-bit two's-complement values at bytes 1-2, 3-4 and 5-6, each divided by 350.
  A report shorter than 7 bytes, or of any other kind, decodes to the zero vector.
- `DeviceLocator` (device_locator.dfy) is the first-match search over the HID enumeration.
  A descriptor matches on the ASCII-lower-cased manufacturer string ("3dconnex"), the product
  string ("space"), or the two id lists tested separately.
- `MotionReader` (motion_reader.dfy) is the reader thread (`SpaceMouseThread`) as a class.
  `Run` enumerates, locates, opens, polls and always closes. The HID library and the device are
  an `HidEnvironment` value: an enumeration result, and a `DeviceScript` saying whether `open`
  raises, what each read returns (`Data`, `Empty`, `Fail`) and whether `close` raises.
  The controller's `stop` is the number of polls after which the thread sees the flag cleared.
  Both Qt signals form one ordered `signals` log. `Run` is proved against the specification
  function `RunSignals`; `Emitted` and `Processed` say what the read loop delivers and how many
  reads it performs.
- `Navigation` (navigation.dfy) is the settings record with its defaults, and the transform of
  `handle_movement` as the function `Transform`. Its steps are invert, deadzone, early exit,
  swap, then pan and zoom. The map canvas is a `Viewport` class that records every `setCenter`,
  `zoomByFactor` and `refresh` call.
- `Plugin` (plugin.dfy) is the controller (`SpaceMousePlugin`) as a class. Its methods are
  start, stop, toggle, error handling, signal delivery, and `HandleMovement`, which applies the
  transform step by step and is proved equal to `Transform`.

Numbers are Dafny `real`s and bytes are a `byte` newtype over `int`.

Behaviour of the code worth knowing:

- Device ids: the vendor and product ids are tested against two separate lists,
  `vid in VENDOR_IDS and pid in PRODUCT_IDS` (line 75). A listed vendor with a product listed
  only for the other vendor therefore also matches (`IdListsAreIndependent`).
- Read failures: a failed read inside the loop is printed and ends the loop without emitting
  anything (lines 127-129). A run that reached the loop delivers only movements
  (`RunErrorsAreSingle`). A movement leaves the plugin's `enabled` and action state as they
  were (the contract of `OnSignal`), so after a read failure the plugin stays enabled with its
  action checked.
- Ignored reports: a short report or one of another kind decodes to the zero vector (lines
  153-161), which the threshold test then drops (`SignificantIffNonzero`).
- No zoom: when z is 0 after the deadzone and swap, no `zoomByFactor` call is made (lines
  396-398).

## Model

| member | source | states |
|---|---|---|
| ReportParser.Unsigned16 | spacemouse_plugin.py:163-165 | the pair reads as a value in [0, 65536) whose low byte is `low` and high byte is `high` |
| ReportParser.Signed16 | spacemouse_plugin.py:163-167 | the value lies in [-32768, 32767] and is congruent to the unsigned value modulo 65536 |
| ReportParser.Axis | spacemouse_plugin.py:163-168 | an axis times 350 is the signed 16-bit value |
| ReportParser.Parse | spacemouse_plugin.py:153-178 | a report shorter than 7 bytes or not of kind 1 gives (0,0,0); every axis lies in [-32768/350, 32767/350] |
| ReportParser.DecodeEncode16 | spacemouse_plugin.py:163-167 | decoding the little-endian encoding of any v in [-32768, 32767] gives v |
| ReportParser.EncodeDecode16 | spacemouse_plugin.py:163-167 | encoding the decoded value of any byte pair gives the pair back |
| ReportParser.ParseTranslationBytes | spacemouse_plugin.py:170-178 | a kind-1 report built from three raw values decodes to each value divided by 350 |
| ReportParser.ParseXSlot | spacemouse_plugin.py:174 | v encoded at the X slot of an otherwise zero report decodes to (v/350, 0, 0) |
| ReportParser.TranslationBytesOfParse | spacemouse_plugin.py:170-178 | the first seven bytes of any kind-1 report are the encoding of the values it decodes to |
| ReportParser.ParseIgnoresTail | spacemouse_plugin.py:153-178 | bytes after index 6 never change the decoded vector |
| ReportParser.AxisMagnitude | spacemouse_plugin.py:163-168 | a zero raw value gives 0; a nonzero one gives an axis of magnitude at least 1/350 |
| ReportParser.ParseAllZeroReport | spacemouse_plugin.py:153-178 | [1,0,0,0,0,0,0] decodes to the zero vector |
| ReportParser.ParseHundredOnX | spacemouse_plugin.py:153-178 | [1,0x64,0,0,0,0,0] decodes to (100/350, 0, 0) |
| DeviceLocator.LowerChar | spacemouse_plugin.py:66-67 | upper-case ASCII letters map to their lower-case letter; every other character is kept |
| DeviceLocator.Lower | spacemouse_plugin.py:66-67 | the result has the input's length and is lower-cased character by character |
| DeviceLocator.FirstMatchFrom | spacemouse_plugin.py:65-83 | the index found matches and no earlier index does; none is found exactly when nothing matches |
| DeviceLocator.IsSpaceMouse | spacemouse_plugin.py:66-76 | a descriptor matches when its lower-cased manufacturer contains "3dconnex", its lower-cased product contains "space", or its vendor and product ids are each in their list |
| DeviceLocator.Contains | spacemouse_plugin.py:73-74 | Python's `sub in s`: `sub` occurs at some index of `s` |
| DeviceLocator.Locate | spacemouse_plugin.py:64-87 | the descriptor at the first matching index, or none; `LocateIsFirstMatch` states what that means |
| DeviceLocator.FindDevice | spacemouse_plugin.py:64-83 | the loop with `break` returns the descriptor that `Locate` picks |
| DeviceLocator.LocateIsFirstMatch | spacemouse_plugin.py:65-87 | the located descriptor matches and every earlier one does not; none is located exactly when no descriptor matches |
| DeviceLocator.LocateFirstWins | spacemouse_plugin.py:78-83 | a matching descriptor at the head of the enumeration is the one located |
| DeviceLocator.ManufacturerMatchIgnoresCase | spacemouse_plugin.py:67-73 | any stretch of the manufacturer string that lower-cases to "3dconnex", in any mixture of cases, makes the descriptor match |
| DeviceLocator.ProductMatchIgnoresCase | spacemouse_plugin.py:66-74 | any stretch of the product string that lower-cases to "space", in any mixture of cases, makes the descriptor match |
| DeviceLocator.MixedCaseManufacturerMatches | spacemouse_plugin.py:66-76 | a manufacturer "3DConnexion" matches, whatever the ids |
| DeviceLocator.MixedCaseProductMatches | spacemouse_plugin.py:66-76 | a product "SpaceMouse Compact" matches, whatever the ids |
| DeviceLocator.IdListsAreIndependent | spacemouse_plugin.py:72-76 | vendor 0x256f with product 0xc603 (listed only for the other vendor) matches |
| DeviceLocator.UnlistedVendorNotMatched | spacemouse_plugin.py:72-76 | with empty strings and an unlisted vendor id, no product id matches |
| MotionReader.ErrorMessage | spacemouse_plugin.py:134 | the message is "SpaceMouse error: " followed by the exception text |
| MotionReader.Significant | spacemouse_plugin.py:120 | some axis has magnitude above 0.001 |
| MotionReader.ReportSignals | spacemouse_plugin.py:109-121 | a non-empty report whose decoding is significant contributes that one movement; any other read contributes nothing |
| MotionReader.RunSignals | spacemouse_plugin.py:60-136 | an enumeration error, no match or an open error gives one error signal; otherwise the signals of the read loop; `RunErrorsAreSingle` and `NotFoundSignal` state its shape |
| MotionReader.Polled | spacemouse_plugin.py:105-107 | the n-th poll returns the n-th scripted read, or nothing past the script's end |
| MotionReader.Emitted | spacemouse_plugin.py:105-129 | every signal the read loop delivers is a movement with some axis above 0.001 |
| MotionReader.Processed | spacemouse_plugin.py:105-129 | the loop never reads more often than it polls |
| MotionReader.EmittedAppend | spacemouse_plugin.py:105-125 | before any failure, the signals of consecutive polls are concatenated in read order |
| MotionReader.ProcessedAppend | spacemouse_plugin.py:105-129 | before any failure, every poll performs exactly one read |
| MotionReader.FailureEndsLoop | spacemouse_plugin.py:127-129 | after a failed read nothing more is read or delivered |
| MotionReader.EmittedComeFromReports | spacemouse_plugin.py:109-121 | every delivered vector is the decoding of a non-empty report read before any failure (the converse is `ReportIsDelivered`) |
| MotionReader.ReportIsDelivered | spacemouse_plugin.py:109-121 | a non-empty, significant report read before any failure is delivered, in its place between the signals of the earlier and the later polls |
| MotionReader.SignificantIffNonzero | spacemouse_plugin.py:119-121 | the 0.001 test drops exactly the reports that decode to (0,0,0) |
| MotionReader.RunErrorsAreSingle | spacemouse_plugin.py:60-136 | a run that fails to enumerate, find or open delivers exactly one error; a run that reaches the loop delivers only movements |
| MotionReader.NotFoundSignal | spacemouse_plugin.py:85-87 | with no matching descriptor the only signal is the "No SpaceMouse device found" error |
| MotionReader.SpaceMouseThread.IsRunning | spacemouse_plugin.py:305 | `isRunning()`: the thread was started and its run has not returned |
| MotionReader.HidDevice.constructor | spacemouse_plugin.py:97 | a new device object is closed, unopened and has not been read |
| MotionReader.HidDevice.Open | spacemouse_plugin.py:98-99 | records the ids opened; the device is open exactly when open raised nothing |
| MotionReader.HidDevice.Read | spacemouse_plugin.py:107 | returns the next scripted result and counts the read |
| MotionReader.HidDevice.Close | spacemouse_plugin.py:138-143 | counts the close; the device is no longer open unless close raised |
| MotionReader.SpaceMouseThread.constructor | spacemouse_plugin.py:51-54 | not running, no device, nothing delivered |
| MotionReader.SpaceMouseThread.Start | spacemouse_plugin.py:309 | the thread is running; nothing else changes |
| MotionReader.SpaceMouseThread.Stop | spacemouse_plugin.py:180-184 | clears the flag; a started thread is finished when it returns, and `Run` requires a started, unfinished thread, so no run follows |
| MotionReader.SpaceMouseThread.Run | spacemouse_plugin.py:56-143 | delivers `RunSignals`; a device is created exactly when one was located; it is opened with the located ids, read `Processed` times and closed exactly once, even when closing raises |
| MotionReader.SpaceMouseThread.ReadLoop | spacemouse_plugin.py:103-131 | delivers `Emitted` of the polls and reads `Processed` times; the flag stays set only when a read failed |
| Navigation.Invert | spacemouse_plugin.py:350-356 | inversion keeps every axis's magnitude |
| Navigation.Clip | spacemouse_plugin.py:358-365 | an axis strictly below the deadzone becomes 0; any other axis is kept |
| Navigation.ValidConfig | settings_dialog.py:77-99 | pan and zoom sensitivity lie in [0.001, 0.1] and the deadzone in [0, 0.2], the dialog's spin-box ranges |
| Navigation.Deadzone | spacemouse_plugin.py:358-365 | each axis strictly below the deadzone in magnitude becomes 0 (through `Clip`) |
| Navigation.SwapYZ | spacemouse_plugin.py:371-373 | with the flag set, y and z are exchanged; otherwise the vector is kept |
| Navigation.MoveFor | spacemouse_plugin.py:380-398 | the pan and zoom of the steered axes; `MoveForComponents` and `PanAndZoomIndependent` state them |
| Navigation.Transform | spacemouse_plugin.py:350-401 | the whole of `handle_movement` as a command; `TransformCases` and `NoOpIffInsideDeadzone` state its cases |
| Navigation.CanvasCalls | spacemouse_plugin.py:391-401 | the canvas calls a command makes, in order; `RefreshOnceAndLast` states their shape |
| Navigation.Apply | spacemouse_plugin.py:391-401 | the view after a command: centre moved by the pan, extent scaled by the zoom factor |
| Navigation.Viewport.constructor | spacemouse_plugin.py:193 | the canvas starts in the given state with no calls recorded |
| Navigation.Viewport.SetCenter | spacemouse_plugin.py:393 | moves the centre and records the call |
| Navigation.Viewport.ZoomByFactor | spacemouse_plugin.py:398 | scales the extent by the factor and records the call |
| Navigation.Viewport.Refresh | spacemouse_plugin.py:401 | records the call; the view is unchanged |
| Navigation.DefaultConfigIsValid | spacemouse_plugin.py:207-215 | the default settings lie within the settings dialog's ranges |
| Navigation.InvertTwice | spacemouse_plugin.py:350-356 | inverting twice restores the vector |
| Navigation.InvertFlagCancelsNegation | spacemouse_plugin.py:350-356 | negating one input axis and flipping its invert flag gives the same command |
| Navigation.SameFilterSameCommand | spacemouse_plugin.py:358-398 | the command depends on the input only through the axes left after inversion and deadzone |
| Navigation.InvertCommutesWithDeadzone | spacemouse_plugin.py:350-365 | inverting before or after the deadzone gives the same axes |
| Navigation.NoOpIffInsideDeadzone | spacemouse_plugin.py:358-369 | the early exit is taken exactly when every axis is 0 or strictly inside the deadzone |
| Navigation.InsideDeadzoneLeavesCanvasAlone | spacemouse_plugin.py:358-369 | input strictly inside the deadzone makes no canvas call and leaves the view unchanged |
| Navigation.TransformCases | spacemouse_plugin.py:367-401 | exit exactly when the filtered axes are all zero; otherwise the pan and zoom of the swapped axes |
| Navigation.MoveForComponents | spacemouse_plugin.py:380-398 | pans by (x·width·s, −y·height·s) exactly when that is not (0,0); zooms by 1 − z·s exactly when z ≠ 0 |
| Navigation.PanAndZoomIndependent | spacemouse_plugin.py:391-398 | zero pan axes never pan; zero zoom axis never zooms |
| Navigation.ZoomDirection | spacemouse_plugin.py:396-398 | with settings in the dialog's ranges, positive z zooms in (factor < 1) and negative z zooms out |
| Navigation.SwapToggleExchangesAxes | spacemouse_plugin.py:371-373 | flipping swap_yz equals feeding the input with y and z (and their invert flags) exchanged |
| Navigation.RefreshOnceAndLast | spacemouse_plugin.py:391-401 | the early exit makes no call; otherwise refresh is called exactly once, last |
| Navigation.HundredOnXPansRight | spacemouse_plugin.py:380-398 | (100/350, 0, 0) with deadzone 0.05 and no swap pans by (100/350·width·0.005, 0) and does not zoom |
| Navigation.SwapRoutesYToZoom | spacemouse_plugin.py:371-398 | with the defaults (swap on), y 0.2 drives the zoom and z 0.5 drives the vertical pan |
| Plugin.SpaceMousePlugin.constructor | spacemouse_plugin.py:190-215 | default settings, no thread, disabled, action unchecked |
| Plugin.SpaceMousePlugin.CanStart | spacemouse_plugin.py:302-305 | a thread is started only with the HID library present and no thread running |
| Plugin.SpaceMousePlugin.StartSpaceMouse | spacemouse_plugin.py:300-316 | with the HID library present and no thread running, a new thread is started and the plugin enabled; otherwise nothing changes |
| Plugin.SpaceMousePlugin.StopSpaceMouse | spacemouse_plugin.py:318-329 | a running thread is stopped and waited for, then cleared and the plugin disabled; otherwise nothing changes |
| Plugin.SpaceMousePlugin.Toggle | spacemouse_plugin.py:278-283 | records the check state and keeps the settings; checking starts a fresh thread, enables and posts the enabled notice when `CanStart` holds, else changes nothing, and never touches an existing thread object; unchecking stops and clears a running thread, disables and posts the disabled notice, else changes nothing |
| Plugin.SpaceMousePlugin.HandleError | spacemouse_plugin.py:331-340 | shows the error, unchecks the action and disables the plugin; the thread is left as it is |
| Plugin.SpaceMousePlugin.HandleMovement | spacemouse_plugin.py:342-401 | the canvas calls and the new view are those of `Transform` on the current settings and extent |
| Plugin.SpaceMousePlugin.PanAndZoom | spacemouse_plugin.py:375-401 | conditional `setCenter`, conditional `zoomByFactor`, then `refresh`, as `MoveFor` gives them |
| Plugin.SpaceMousePlugin.OnSignal | spacemouse_plugin.py:307-308 | a movement makes the calls and leaves the view of `Transform`, and keeps the enabled and action state and the notices; an error posts its notice, unchecks and disables, and leaves the canvas untouched |

## Left out

- HID library probing (lines 14-28): availability is the constant `hidAvailable` of the plugin.
- Concurrency: QThread scheduling, the queued delivery of Qt signals, `self.wait()` and the 10 ms
  `time.sleep`. The stop request is the `stopAfter` poll count of `Run`.
- MotionReader.SpaceMouseThread.Stop: it does not model waiting on a `run` that is still in
  progress. It states the flag cleared and a started thread finished, which is the state once
  `wait()` returns.
- MotionReader.SpaceMouseThread.Run: it requires a started, unfinished thread and reads `stopAfter`
  as the poll after which a cleared flag is seen. So it does not capture a race in the code:
  `run` sets `self.running = True` on entry (line 58), which can overwrite a `stop()` that
  cleared the flag (line 183) before the thread body began. `self.wait()` (line 184) then
  blocks for as long as reads succeed.
- `print` output and the `read_count` packet log: they have no effect on behaviour.
- QSettings `load_settings`/`save_settings`, `show_settings`, `initGui` and `unload`: host
  wiring. Only the default settings record (`DefaultConfig`) is kept, so a settings change
  through the dialog is not modelled.
- settings_dialog.py is not part of this model; only its spin-box ranges appear, as `ValidConfig`.
  `__init__.py` is not part of this model.
- Floating point: axes, sensitivities and canvas geometry are exact reals, so rounding and
  negative zero are not modelled.
- `.lower()` is ASCII lower-casing; Unicode case folding is not modelled.
- Descriptors always carry both strings: the `''` default of `device_info.get` for a missing
  key is not modelled.
- MotionReader.HidDevice.Open: one scripted error stands for a failure of either `open` or
  `set_nonblocking(1)`. A failure of `hid.device()` itself, which would leave no device to
  close, is not modelled.
- The 64-byte read size is not enforced on scripted reports.
- The message bar is a log of `Notice` values; how the host shows them is not modelled.
- Navigation.Viewport.ZoomByFactor: it scales width and height by the factor. How QGIS fits
  the new extent to the window is not modelled.
