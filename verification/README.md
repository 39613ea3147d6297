# ImSwitch ESP32 and IDS camera adapters, modelled in Dafny

This project models the decision and encoding logic of three hardware
adapters of the ImSwitch microscope-control application, with the hardware
abstracted away:

- the ESP32 serial driver (`ESP32Driver`): whether the serial port opened,
  the write gate that drops commands while disconnected, and the illumination
  commands `<L{channel}{ON|OF}>`;
- the two managers that share that driver: the stage positioner
  (`ESP32StageManagerEE`), which encodes `<S{1|2|3}{P|N}{magnitude}>` and keeps
  an advisory per-axis position map, and the LED/laser manager
  (`ESP32LEDLaserManagerEE`);
- the IDS camera wrapper (`IDSCamera`): the ROI request (round down to a
  multiple of 8, reset to the minimum, then reject, clamp or apply), the
  frame-rate choice, the property-name dispatch and the `is_running` flag of
  the live cycle.

Everything is immutable records and pure functions. The serial line is the
`sent` field of `Esp32Driver.Driver`, the list of commands transmitted so far.
The stage and laser managers take the shared driver and return the updated
one. The rs232 manager's `query` only forwards its argument to the driver's
`_write`, so a stage move is modelled as a write on the driver. The camera's
GenICam node map is a `map<string, Value>`. The minimum and maximum the SDK
reports for the ROI and frame-rate nodes are parameters. So are the SDK
faults of the live cycle: `StartLive` takes the point at which the
stream-start block raised (`StartFault`), and `StopLive` takes whether the
stop block got through without raising.

Python's `str(int)` is modelled by `Decimal.IntToString`. Its inverse,
`Decimal.ParseInt`, is the partner that both command decoders use. The
illumination command and the move command each have a decoder, and lemmas
prove both directions: decoding an encoded command gives back its arguments,
and every decodable command is an encoding. The init command `<L1OF,L2OF` is
a fixed string and has no decoder.

Files: `options.dfy` (Option), `decimal.dfy`, `esp32_driver.dfy`,
`stage_manager.dfy`, `led_laser_manager.dfy`, `ids_camera.dfy`.

Behaviour of the code that a reader might not expect, each proved as a lemma:

- `move` updates the position whether or not anything was written, so a
  move on a disconnected driver still advances the tracked position
  (`StageManager.DisconnectedMoveStillCounts`).
- Every move adds `abs(value)` to the tracked position, so the position is
  total travel and never decreases (`StageManager.MoveNeverDecreases`).
- `setValue` passes `enabled*laserval` as the only argument of `set_led`, so
  a disabled manager still emits `<L0ON>` and sets the LED state to 1
  (`LedLaserManager.DisabledSetValueSendsChannelZero`).
- `stop_live` unlocks the transport-layer parameters and assigns
  `camera_is_open`, never `is_running`, so once set the flag stays set
  (`IdsCamera.RunningIsSticky`, `IdsCamera.StopAfterStartStaysRunning`).
- The init command `<L1OF,L2OF` has no closing `>` (`Esp32Driver.Open`).

## Model

| member | source | states |
|---|---|---|
| Decimal.NatToString | imswitch/imcontrol/model/managers/positioners/ESP32StageManagerEE.py:26-29 | `str(abs(value))` is a non-empty run of digits with no superfluous leading zero |
| Decimal.IntToString | imswitch/imcontrol/model/interfaces/esp32driver.py:82 | `str(channel)` is non-empty, starts with '-' exactly for negative channels, and is a canonical digit run for the others |
| Decimal.ParseNatExact | imswitch/imcontrol/model/managers/positioners/ESP32StageManagerEE.py:26-29 | a digit run parses to n exactly when it is the rendering `str(n)`, in both directions |
| Decimal.ParseIntExact | imswitch/imcontrol/model/interfaces/esp32driver.py:82 | a string parses to the integer i exactly when it is `str(i)`, with a leading '-' for negatives |
| Decimal.IntToStringInjective | imswitch/imcontrol/model/interfaces/esp32driver.py:82 | distinct channel numbers render differently |
| Esp32Driver.Write | imswitch/imcontrol/model/interfaces/esp32driver.py:52-55 | `_write` appends the command to the line when connected; otherwise the driver is left exactly as it was |
| Esp32Driver.Open | imswitch/imcontrol/model/interfaces/esp32driver.py:11-27 | the connected flag equals whether the port opened; a successful open transmits exactly `<L1OF,L2OF` and a failed one nothing; intensity and LED state start at 0 |
| Esp32Driver.LedCommand | imswitch/imcontrol/model/interfaces/esp32driver.py:74-83 | the illumination command is `<L`, then `str(channel)`, then `ON` or `OF` by the state's truthiness, then `>` |
| Esp32Driver.LedCommandRoundTrip | imswitch/imcontrol/model/interfaces/esp32driver.py:74-83 | decoding an illumination command gives back its channel and on/off flag |
| Esp32Driver.DecodeLedSound | imswitch/imcontrol/model/interfaces/esp32driver.py:74-83 | every string the decoder accepts is exactly the command for what it decodes to |
| Esp32Driver.SetLaserIntensity | imswitch/imcontrol/model/interfaces/esp32driver.py:64-72 | stores the intensity, keeps the LED state, and sends channel 1 with the current LED state (when connected) |
| Esp32Driver.LaserCommandIgnoresIntensity | imswitch/imcontrol/model/interfaces/esp32driver.py:64-72 | two intensities give the same transmitted commands; the results differ only in the stored intensity |
| Esp32Driver.SetLed | imswitch/imcontrol/model/interfaces/esp32driver.py:74-83 | stores the state (default 1), keeps the intensity, and sends the command for the given channel and state (when connected) |
| Esp32Driver.RunKeepsConnection | imswitch/imcontrol/model/interfaces/esp32driver.py:52-55 | over any sequence of driver calls the connected flag never changes, the transmitted log only grows, and a disconnected driver transmits nothing |
| Esp32Driver.FailedOpenIsSilent | imswitch/imcontrol/model/interfaces/esp32driver.py:13-23 | a driver whose port failed to open never transmits anything, whatever is called on it |
| StageManager.Direction | imswitch/imcontrol/model/managers/positioners/ESP32StageManagerEE.py:22-24 | the direction letter is N exactly when the value is negative, otherwise P (zero gives P) |
| StageManager.AxisDigit | imswitch/imcontrol/model/managers/positioners/ESP32StageManagerEE.py:28-36 | X maps to 1, Y to 2, Z to 3, and every other axis label has no channel |
| StageManager.MoveCommand | imswitch/imcontrol/model/managers/positioners/ESP32StageManagerEE.py:21-36 | a command exists exactly for axes X, Y, Z, and it is `<S`, the axis digit, the direction letter, `str(abs(value))`, `>` |
| StageManager.MoveCommandShape | imswitch/imcontrol/model/managers/positioners/ESP32StageManagerEE.py:22-33 | the command matches `<S[1-3][PN][0-9]+>` and its digit run is exactly `str(abs(value))` |
| StageManager.MoveCommandRoundTrip | imswitch/imcontrol/model/managers/positioners/ESP32StageManagerEE.py:22-33 | decoding a move command gives back the axis and the signed value |
| StageManager.DecodeMoveSound | imswitch/imcontrol/model/managers/positioners/ESP32StageManagerEE.py:22-33 | every string the move decoder accepts is exactly what `move` sends for the decoded axis and value |
| StageManager.MoveCommandInjective | imswitch/imcontrol/model/managers/positioners/ESP32StageManagerEE.py:26-33 | two moves that send the same command have the same axis and value |
| StageManager.Init | imswitch/imcontrol/model/managers/positioners/ESP32StageManagerEE.py:9-12 | exactly the configured axes are tracked, each starting at 0 |
| StageManager.Move | imswitch/imcontrol/model/managers/positioners/ESP32StageManagerEE.py:21-40 | a wrong axis sends nothing and changes nothing; a valid axis writes its command through the connection gate, then adds `abs(value)` to that axis only, or reports the KeyError of an untracked axis without changing positions |
| StageManager.SetPosition | imswitch/imcontrol/model/managers/positioners/ESP32StageManagerEE.py:42-43 | the named axis holds exactly the value afterwards, and every other axis keeps its presence and value |
| StageManager.MoveNeverDecreases | imswitch/imcontrol/model/managers/positioners/ESP32StageManagerEE.py:26-40 | after a move, the tracked axes are the same, no position has decreased (even for negative moves), and axes other than the named one are unchanged |
| StageManager.DisconnectedMoveStillCounts | imswitch/imcontrol/model/managers/positioners/ESP32StageManagerEE.py:38-40 | with a disconnected driver nothing is transmitted, yet the position still advances by `abs(value)` |
| StageManager.RunMovesTracksTravel | imswitch/imcontrol/model/managers/positioners/ESP32StageManagerEE.py:21-40 | after any sequence of moves, a tracked axis has advanced by the sum of the absolute values accepted for it, and the tracked axes are unchanged |
| StageManager.PositionFromInit | imswitch/imcontrol/model/managers/positioners/ESP32StageManagerEE.py:10-40 | starting from construction, a configured axis reads exactly the total absolute travel requested on it |
| LedLaserManager.Create | imswitch/imcontrol/model/managers/lasers/ESP32LEDLaserManagerEE.py:16-24 | the manager starts disabled with value 0, and the driver gets `set_laser_intensity(0)`: intensity 0, LED state kept, channel 1 re-sent |
| LedLaserManager.SetEnabled | imswitch/imcontrol/model/managers/lasers/ESP32LEDLaserManagerEE.py:26-29 | stores the flag and sends `<L{channel_index}ON>` when enabling, `<L{channel_index}OF>` when disabling; the driver's LED state becomes the flag |
| LedLaserManager.SetValue | imswitch/imcontrol/model/managers/lasers/ESP32LEDLaserManagerEE.py:31-36 | stores the power without touching `enabled`, sends `set_led(enabled*laserval)` (the product as channel, state ON), and sets the LED state to 1 |
| LedLaserManager.CreateOnFreshDriver | imswitch/imcontrol/model/managers/lasers/ESP32LEDLaserManagerEE.py:21-24 | on a freshly connected driver the line reads `<L1OF,L2OF` then `<L1OF>`; on a driver whose port failed, nothing |
| LedLaserManager.DisabledSetValueSendsChannelZero | imswitch/imcontrol/model/managers/lasers/ESP32LEDLaserManagerEE.py:31-36 | a disabled manager's `setValue` still transmits `<L0ON>` and sets the LED state to 1, whatever the power |
| LedLaserManager.SetValueDecodes | imswitch/imcontrol/model/managers/lasers/ESP32LEDLaserManagerEE.py:36 | `setValue` transmits one command, and it decodes to channel `enabled*power` switched on |
| LedLaserManager.DisabledValueThenEnable | imswitch/imcontrol/model/managers/lasers/ESP32LEDLaserManagerEE.py:26-36 | setting a value while disabled and then enabling sends `<L0ON>` followed by the manager's own channel ON |
| IdsCamera.Construct | imswitch/imcontrol/model/interfaces/idscamera.py:9-33 | a new camera is not running, with black level 15, exposure 30 ms, gain 1, format Mono8, sensor 1920x1200 and target 30 fps |
| IdsCamera.AlignDown8 | imswitch/imcontrol/model/interfaces/idscamera.py:191-195 | the rounded size is the largest multiple of 8 not above the request |
| IdsCamera.AlignDownLoop | imswitch/imcontrol/model/interfaces/idscamera.py:191-195 | the decrement-until-divisible loop ends at the largest multiple of 8 not above its input |
| IdsCamera.AlignDownShrinks | imswitch/imcontrol/model/interfaces/idscamera.py:191-195 | rounding never increases a size, strictly decreases one that is not a multiple of 8, and keeps one that is |
| IdsCamera.SetRoi | imswitch/imcontrol/model/interfaces/idscamera.py:189-240 | returns False exactly when an offset is outside its [min, max], leaving the ROI at the minimums; a size check failure clamps Width/Height to the maxima with offsets at the minimum and returns True; otherwise the ROI is exactly the offsets and rounded size; no other node changes |
| IdsCamera.AppliedRoiWithinBounds | imswitch/imcontrol/model/interfaces/idscamera.py:228-235 | an applied ROI has a multiple-of-8 size between the minimum and the request, and ends inside the maximum width and height |
| IdsCamera.AlignedRequestApplied | imswitch/imcontrol/model/interfaces/idscamera.py:228-235 | an in-bounds request whose size is a multiple of 8 is applied verbatim and accepted |
| IdsCamera.SetRoiIdempotent | imswitch/imcontrol/model/interfaces/idscamera.py:203-235 | repeating a request gives the same answer and the same node map |
| IdsCamera.SetFramerate | imswitch/imcontrol/model/interfaces/idscamera.py:350-379 | sets exactly the target when it is present and within [min, max], otherwise the maximum; returns True; no other node changes |
| IdsCamera.FramerateWithinRange | imswitch/imcontrol/model/interfaces/idscamera.py:369-373 | with min <= max, the rate set always lies in [min, max]; no target or a target above the maximum gives the maximum |
| IdsCamera.SetNode | imswitch/imcontrol/model/interfaces/idscamera.py:99-109 | `set_value` stores the value under its key and changes no other node |
| IdsCamera.SetExposureTime | imswitch/imcontrol/model/interfaces/idscamera.py:112-114 | stores the exposure in ms, and the ExposureTime node holds exactly that value times 1000; no other node changes |
| IdsCamera.SetAnalogGain | imswitch/imcontrol/model/interfaces/idscamera.py:116-118 | stores the gain attribute and writes the Gain node; nothing else changes |
| IdsCamera.SetBlacklevel | imswitch/imcontrol/model/interfaces/idscamera.py:120-122 | stores the black level attribute and writes the BlackLevel node; nothing else changes |
| IdsCamera.SetPixelFormat | imswitch/imcontrol/model/interfaces/idscamera.py:124-126 | assigns the `pixelformat` attribute (not the constructor's `pixel_format`) and writes the PixelFormat node |
| IdsCamera.SetImageWidth | imswitch/imcontrol/model/interfaces/idscamera.py:128-130 | stores the sensor width and writes the Width node |
| IdsCamera.SetImageHeight | imswitch/imcontrol/model/interfaces/idscamera.py:132-134 | stores the sensor height and writes the Height node |
| IdsCamera.SetProperty | imswitch/imcontrol/model/interfaces/idscamera.py:245-262 | returns the given value for the six known names and False (camera unchanged) for any other; each known name dispatches to its own setter (gain, exposure, blacklevel, image_width, image_height, pixel_format), which writes only its own node, with the value itself, or 1000 times it for exposure |
| IdsCamera.GetProperty | imswitch/imcontrol/model/interfaces/idscamera.py:264-281 | an unknown name gives False; gain, exposure and pixel_format raise AttributeError; blacklevel gives the black level attribute, image_width and image_height the sensor width and height |
| IdsCamera.SetThenGet | imswitch/imcontrol/model/interfaces/idscamera.py:245-281 | reading back blacklevel, image_width or image_height after setting it yields the value set |
| IdsCamera.GetNeverReadsBack | imswitch/imcontrol/model/interfaces/idscamera.py:264-281 | gain, exposure and pixel_format are accepted by the setter but can never be read back |
| IdsCamera.ExposurePropertyScales | imswitch/imcontrol/model/interfaces/idscamera.py:249-250 | the exposure property stores the ms value and puts 1000 times it on the ExposureTime node |
| IdsCamera.StartLive | imswitch/imcontrol/model/interfaces/idscamera.py:36-61 | without a device nothing changes; otherwise the full-sensor ROI and target frame rate are applied regardless of their outcome, TLParamsLocked becomes 1 unless the stream start itself raised, and the flag becomes set only if nothing raised, otherwise it keeps its value; no other field changes |
| IdsCamera.StartLiveAppliesFullSensor | imswitch/imcontrol/model/interfaces/idscamera.py:45-58 | on a new camera whose device admits the full 1920x1200 sensor and 30 fps, a start applies exactly ROI (0, 0, 1920, 1200) and rate 30, and runs exactly when the SDK start raises nothing |
| IdsCamera.StopLive | imswitch/imcontrol/model/interfaces/idscamera.py:64-79 | never changes `is_running`; a no-op without a device or when not running; otherwise TLParamsLocked becomes 0 when the stop block raises nothing (the node map is untouched when it raises), `camera_is_open` becomes False either way, and no other field changes |
| IdsCamera.StopAfterStartStaysRunning | imswitch/imcontrol/model/interfaces/idscamera.py:54-79 | after a clean start and a clean stop the parameters are unlocked and the camera is marked closed, yet `is_running` is still True |
| IdsCamera.RunningIsSticky | imswitch/imcontrol/model/interfaces/idscamera.py:36-79 | over any sequence of starts and stops, the camera is running exactly when it already was, or it has a device and some start raised nothing |

## Left out

- Serial transport: opening the port (only its success is a parameter), `serial_ports` enumeration, `close`, byte encoding of commands. These are OS plumbing.
- `move_rel`, `move_abs` and `move_xyz` in the driver: they call an undefined `get_positions`, and they compute a target that is never sent.
- `setSpeed` of the stage manager: its body is empty.
- ESP32Manager construction and `finalize`: configuration plumbing. `query` is a pass-through to the driver's write and is folded into `StageManager.Move`.
- Logging, and the controller registration list.
- IDS SDK internals: `openCamera` device enumeration, `prepare_acquisition`, `alloc_and_announce_buffers`, `getLast`/`getLastChunk` (buffer waits, pixel conversion, the 5000 ms timeouts), `set_binning`, `suspend_live`, `prepare_live`, `close`, `openPropertiesGUI`. Their effects on the data stream and buffers are not modelled.
- SDK faults inside `setROI`, `set_framerate` and `set_value`: the model has no failing node write, so these never take their "return False" or log-only exception path.
- IdsCamera.Construct: when enumeration finds no openable camera, `openCamera` still calls `set_binning(1)`, which looks up a node on the missing node map and raises an uncaught AttributeError, so the constructor fails. The model has no failing constructor; `device == false` stands only for an SDK fault raised during enumeration, which `openCamera` catches.
- IdsCamera.StartLive: when `prepare_acquisition` leaves no data stream, `StartAcquisition` raises an AttributeError that `start_live` does not catch. The model treats every stream-start failure as a caught SDK fault (`StreamFault`). The effects of `prepare_acquisition` and buffer allocation are not modelled.
- IdsCamera.StopLive: the AcquisitionStop, KillWait, StopAcquisition and Flush calls act on the stream, not on the modelled nodes; only their joint success, which decides whether TLParamsLocked is reset, is a parameter.
- Calling a camera setter without a device: Python raises AttributeError on the missing node map. This is not modelled.
- IdsCamera.SetFramerate: the minimum, current value and increment the source reads but never uses are not modelled. Frame rates are integers, not floats.
- IdsCamera.SetProperty: requires exposure, image_width and image_height values to be integers. Python's `str * 1000` and `int(str)` for text values are not modelled.
- IdsCamera.SetExposureTime: the exposure is an integer number of ms; a float exposure, which Python would multiply by 1000 as a float, is not modelled.
- IdsCamera.SetImageWidth: the width is an integer; for a float width Python's `int()` truncates the value written to the Width node while `SensorWidth` keeps the float. This is not modelled.
- IdsCamera.SetImageHeight: the same integer restriction and float truncation as for the width.
- LedLaserManager.SetValue: power is an integer, so Python's `round()` on a float is not modelled.
- LedLaserManager.SetEnabled: the flag is a bool, passed to the driver as state 0 or 1. Other truthy Python values are not modelled.
- StageManager.SetPosition: positions are integers, not floats.
