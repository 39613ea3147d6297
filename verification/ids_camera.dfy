/**
 The decision logic of the IDS camera wrapper
 (imswitch/imcontrol/model/interfaces/idscamera.py): the ROI request with its
 reject / clamp / apply outcomes, the frame-rate choice, the property-name
 dispatch, and the `is_running` flag of the live cycle.

 The vendor SDK's GenICam node map is modelled as a map from node name to
 value; the minimum and maximum a node reports are parameters, and SDK faults
 of the live start and stop sequences are parameters.
 */
module IdsCamera {

  import opened Options

  /** A property value: numbers for most nodes, a name for the pixel format. */
  datatype Value = Num(n: int) | Text(s: string)

  type NodeMap = map<string, Value>

  /** The minimum and maximum the OffsetX/OffsetY/Width/Height nodes report. */
  datatype RoiBounds = RoiBounds(
    xMin: int, yMin: int, wMin: int, hMin: int,
    xMax: int, yMax: int, wMax: int, hMax: int)

  /** The minimum and maximum the AcquisitionFrameRate node reports. */
  datatype RateRange = RateRange(min: int, max: int)

  datatype Camera = Camera(
    device: bool,                        // an SDK device was opened
    nodes: NodeMap,                      // the remote device's node map
    isRunning: bool,
    cameraIsOpen: Option<bool>,          // only ever assigned by stop_live
    blacklevel: Value,
    exposureTime: int,                   // milliseconds
    analogGain: Value,
    pixelFormat: string,                 // the constructor's default format
    requestedPixelFormat: Option<Value>, // the attribute set_pixel_format assigns
    sensorWidth: int,
    sensorHeight: int,
    targetFps: int)

  /**
   The constructor's defaults; `nodes` is the node map the device starts with.
   `device` is true when enumeration opened a camera. It is false only when
   the SDK raised a fault during enumeration: if the enumeration merely finds
   no openable camera, `set_binning(1)` dereferences the missing node map and
   the constructor raises, so no device-less camera results.
   */
  function Construct(device: bool, nodes: NodeMap): (c: Camera)
    ensures c.device == device && c.nodes == nodes
    ensures !c.isRunning && c.cameraIsOpen == None
    ensures c.blacklevel == Num(15) && c.exposureTime == 30 && c.analogGain == Num(1)
    ensures c.pixelFormat == "Mono8" && c.requestedPixelFormat == None
    ensures c.sensorWidth == 1920 && c.sensorHeight == 1200 && c.targetFps == 30
  {
    Camera(device, nodes, false, None, Num(15), 30, Num(1), "Mono8", None, 1920, 1200, 30)
  }

  // ---------------------------------------------------------------------------
  // Region of interest
  // ---------------------------------------------------------------------------

  /** The largest multiple of 8 not above `w` (negative `w` included). */
  function AlignDown8(w: int): (r: int)
    ensures r % 8 == 0
    ensures r <= w < r + 8
  {
    w - w % 8
  }

  /** The source's rounding loop: decrement until divisible by 8. */
  method AlignDownLoop(w: int) returns (r: int)
    ensures r == AlignDown8(w)
  {
    r := w;
    while r % 8 != 0
      invariant w - r <= w % 8
      invariant r % 8 == w % 8 - (w - r)
      decreases r % 8
    {
      r := r - 1;
    }
  }

  const RoiKeys: set<string> := {"OffsetX", "OffsetY", "Width", "Height"}

  /** The node map holds exactly this ROI. */
  predicate HasRoi(nodes: NodeMap, x: int, y: int, w: int, h: int) {
    && "OffsetX" in nodes && nodes["OffsetX"] == Num(x)
    && "OffsetY" in nodes && nodes["OffsetY"] == Num(y)
    && "Width" in nodes && nodes["Width"] == Num(w)
    && "Height" in nodes && nodes["Height"] == Num(h)
  }

  /** Every node outside `keys` is as it was. */
  ghost predicate SameOutside(before: NodeMap, after: NodeMap, keys: set<string>) {
    forall k :: k !in keys ==> (k in after <==> k in before) && (k in before ==> after[k] == before[k])
  }

  function WriteRoi(nodes: NodeMap, x: int, y: int, w: int, h: int): (r: NodeMap)
    ensures HasRoi(r, x, y, w, h)
    ensures SameOutside(nodes, r, RoiKeys)
  {
    nodes["OffsetX" := Num(x)]["OffsetY" := Num(y)]["Width" := Num(w)]["Height" := Num(h)]
  }

  /** Both offsets lie within the reported [min, max]. */
  predicate OffsetsInRange(b: RoiBounds, x: int, y: int) {
    b.xMin <= x <= b.xMax && b.yMin <= y <= b.yMax
  }

  /** The (already rounded) size is at least the minimum and the ROI ends inside the maximum. */
  predicate SizeFits(b: RoiBounds, x: int, y: int, w: int, h: int) {
    b.wMin <= w && b.hMin <= h && x + w <= b.wMax && y + h <= b.hMax
  }

  datatype RoiStep = RoiStep(nodes: NodeMap, ok: bool)

  /**
   `setROI(x, y, width, height)`: rounds the size down to a multiple of 8,
   resets the ROI to the minimum, then rejects (offsets out of range), clamps
   the size to the maximum (size out of range; offsets stay at the minimum),
   or applies the request.
   */
  function SetRoi(nodes: NodeMap, b: RoiBounds, x: int, y: int, width: int, height: int): (r: RoiStep)
    ensures r.ok <==> OffsetsInRange(b, x, y)
    ensures SameOutside(nodes, r.nodes, RoiKeys)
    ensures !OffsetsInRange(b, x, y) ==> HasRoi(r.nodes, b.xMin, b.yMin, b.wMin, b.hMin)
    ensures OffsetsInRange(b, x, y) && !SizeFits(b, x, y, AlignDown8(width), AlignDown8(height)) ==>
      HasRoi(r.nodes, b.xMin, b.yMin, b.wMax, b.hMax)
    ensures OffsetsInRange(b, x, y) && SizeFits(b, x, y, AlignDown8(width), AlignDown8(height)) ==>
      HasRoi(r.nodes, x, y, AlignDown8(width), AlignDown8(height))
  {
    var w := AlignDown8(width);
    var h := AlignDown8(height);
    var reset := WriteRoi(nodes, b.xMin, b.yMin, b.wMin, b.hMin);
    if x < b.xMin || y < b.yMin || x > b.xMax || y > b.yMax then
      RoiStep(reset, false)
    else if w < b.wMin || h < b.hMin || x + w > b.wMax || y + h > b.hMax then
      RoiStep(reset["Width" := Num(b.wMax)]["Height" := Num(b.hMax)], true)
    else
      RoiStep(WriteRoi(reset, x, y, w, h), true)
  }

  /** Rounding never enlarges the request, and strictly shrinks a size that is not a multiple of 8. */
  lemma AlignDownShrinks(w: int)
    ensures AlignDown8(w) <= w
    ensures w % 8 != 0 ==> AlignDown8(w) < w
    ensures w % 8 == 0 ==> AlignDown8(w) == w
  {
  }

  /** An accepted, non-clamped ROI lies inside the device's bounds and inside the request. */
  lemma AppliedRoiWithinBounds(nodes: NodeMap, b: RoiBounds, x: int, y: int, width: int, height: int)
    requires OffsetsInRange(b, x, y) && SizeFits(b, x, y, AlignDown8(width), AlignDown8(height))
    ensures var r := SetRoi(nodes, b, x, y, width, height);
      exists w, h :: HasRoi(r.nodes, x, y, w, h)
        && w % 8 == 0 && h % 8 == 0
        && b.wMin <= w <= width && b.hMin <= h <= height
        && x + w <= b.wMax && y + h <= b.hMax
  {
    var r := SetRoi(nodes, b, x, y, width, height);
    assert HasRoi(r.nodes, x, y, AlignDown8(width), AlignDown8(height));
  }

  /** An in-bounds request whose size is already a multiple of 8 is applied verbatim. */
  lemma AlignedRequestApplied(nodes: NodeMap, b: RoiBounds, x: int, y: int, width: int, height: int)
    requires width % 8 == 0 && height % 8 == 0
    requires OffsetsInRange(b, x, y) && SizeFits(b, x, y, width, height)
    ensures SetRoi(nodes, b, x, y, width, height).ok
    ensures HasRoi(SetRoi(nodes, b, x, y, width, height).nodes, x, y, width, height)
  {
  }

  /** Repeating the same request gives the same answer and the same node map. */
  lemma SetRoiIdempotent(nodes: NodeMap, b: RoiBounds, x: int, y: int, width: int, height: int)
    ensures var r := SetRoi(nodes, b, x, y, width, height);
      SetRoi(r.nodes, b, x, y, width, height) == r
  {
  }

  // ---------------------------------------------------------------------------
  // Frame rate
  // ---------------------------------------------------------------------------

  const RateKey: string := "AcquisitionFrameRate"

  /** A target the frame-rate node accepts as it is. */
  predicate TargetInRange(rates: RateRange, target: Option<int>) {
    target.Some? && rates.min <= target.value <= rates.max
  }

  datatype RateStep = RateStep(nodes: NodeMap, ok: bool)

  /** `set_framerate(target)`: the target if it is within range, else the maximum. */
  function SetFramerate(nodes: NodeMap, rates: RateRange, target: Option<int>): (r: RateStep)
    ensures r.ok
    ensures SameOutside(nodes, r.nodes, {RateKey})
    ensures RateKey in r.nodes
    ensures TargetInRange(rates, target) ==> r.nodes[RateKey] == Num(target.value)
    ensures !TargetInRange(rates, target) ==> r.nodes[RateKey] == Num(rates.max)
  {
    match target
    case None => RateStep(nodes[RateKey := Num(rates.max)], true)
    case Some(t) =>
      if t > rates.max || t < rates.min then RateStep(nodes[RateKey := Num(rates.max)], true)
      else RateStep(nodes[RateKey := Num(t)], true)
  }

  /** With a well-formed range the rate set is always inside it. */
  lemma FramerateWithinRange(nodes: NodeMap, rates: RateRange, target: Option<int>)
    requires rates.min <= rates.max
    ensures var v := SetFramerate(nodes, rates, target).nodes[RateKey];
      v.Num? && rates.min <= v.n <= rates.max
    ensures target.Some? && target.value > rates.max ==>
      SetFramerate(nodes, rates, target).nodes[RateKey] == Num(rates.max)
    ensures target == None ==> SetFramerate(nodes, rates, target).nodes[RateKey] == Num(rates.max)
  {
  }

  // ---------------------------------------------------------------------------
  // Property setters and the name dispatch
  // ---------------------------------------------------------------------------

  /** `set_value(key, value)`; the PixelFormat node takes its value as an entry name. */
  function SetNode(nodes: NodeMap, key: string, v: Value): (r: NodeMap)
    ensures key in r && r[key] == v
    ensures SameOutside(nodes, r, {key})
  {
    nodes[key := v]
  }

  /** `set_exposure_time`: the attribute is in ms, the node in µs. */
  function SetExposureTime(c: Camera, ms: int): (r: Camera)
    ensures r.exposureTime == ms
    ensures "ExposureTime" in r.nodes && r.nodes["ExposureTime"] == Num(ms * 1000)
    ensures SameOutside(c.nodes, r.nodes, {"ExposureTime"})
    ensures r == c.(exposureTime := ms, nodes := r.nodes)
  {
    c.(exposureTime := ms, nodes := SetNode(c.nodes, "ExposureTime", Num(ms * 1000)))
  }

  function SetAnalogGain(c: Camera, g: Value): (r: Camera)
    ensures r.analogGain == g && r.nodes == SetNode(c.nodes, "Gain", g)
    ensures r == c.(analogGain := g, nodes := r.nodes)
  {
    c.(analogGain := g, nodes := SetNode(c.nodes, "Gain", g))
  }

  function SetBlacklevel(c: Camera, level: Value): (r: Camera)
    ensures r.blacklevel == level && r.nodes == SetNode(c.nodes, "BlackLevel", level)
    ensures r == c.(blacklevel := level, nodes := r.nodes)
  {
    c.(blacklevel := level, nodes := SetNode(c.nodes, "BlackLevel", level))
  }

  /** Assigns `pixelformat`, an attribute distinct from the constructor's `pixel_format`. */
  function SetPixelFormat(c: Camera, format: Value): (r: Camera)
    ensures r.requestedPixelFormat == Some(format) && r.pixelFormat == c.pixelFormat
    ensures r.nodes == SetNode(c.nodes, "PixelFormat", format)
    ensures r == c.(requestedPixelFormat := Some(format), nodes := r.nodes)
  {
    c.(requestedPixelFormat := Some(format), nodes := SetNode(c.nodes, "PixelFormat", format))
  }

  function SetImageWidth(c: Camera, width: int): (r: Camera)
    ensures r.sensorWidth == width && r.nodes == SetNode(c.nodes, "Width", Num(width))
    ensures r == c.(sensorWidth := width, nodes := r.nodes)
  {
    c.(sensorWidth := width, nodes := SetNode(c.nodes, "Width", Num(width)))
  }

  function SetImageHeight(c: Camera, height: int): (r: Camera)
    ensures r.sensorHeight == height && r.nodes == SetNode(c.nodes, "Height", Num(height))
    ensures r == c.(sensorHeight := height, nodes := r.nodes)
  {
    c.(sensorHeight := height, nodes := SetNode(c.nodes, "Height", Num(height)))
  }

  const PropertyNames: set<string> :=
    {"gain", "exposure", "blacklevel", "image_width", "image_height", "pixel_format"}

  /** The node each property name writes. */
  function NodeKey(name: string): string
    requires name in PropertyNames
  {
    match name
    case "gain" => "Gain"
    case "exposure" => "ExposureTime"
    case "blacklevel" => "BlackLevel"
    case "image_width" => "Width"
    case "image_height" => "Height"
    case _ => "PixelFormat"
  }

  /** Exposure, width and height take integers; the other properties any value. */
  predicate ValueFits(name: string, v: Value) {
    name in {"exposure", "image_width", "image_height"} ==> v.Num?
  }

  /** `setPropertyValue` returns the value it was given, or False for an unknown name. */
  datatype SetResult = Returned(value: Value) | UnknownProperty

  datatype PropStep = PropStep(camera: Camera, result: SetResult)

  function SetProperty(c: Camera, name: string, v: Value): (r: PropStep)
    requires ValueFits(name, v)
    ensures name in PropertyNames ==> r.result == Returned(v)
    ensures name !in PropertyNames ==> r == PropStep(c, UnknownProperty)
    ensures name in PropertyNames ==>
      NodeKey(name) in r.camera.nodes && SameOutside(c.nodes, r.camera.nodes, {NodeKey(name)})
    ensures name in PropertyNames - {"exposure"} ==> r.camera.nodes[NodeKey(name)] == v
    ensures name == "exposure" ==> r.camera.nodes["ExposureTime"] == Num(v.n * 1000)
    ensures name == "gain" ==> r.camera == SetAnalogGain(c, v)
    ensures name == "exposure" ==> r.camera == SetExposureTime(c, v.n)
    ensures name == "blacklevel" ==> r.camera == SetBlacklevel(c, v)
    ensures name == "image_width" ==> r.camera == SetImageWidth(c, v.n)
    ensures name == "image_height" ==> r.camera == SetImageHeight(c, v.n)
    ensures name == "pixel_format" ==> r.camera == SetPixelFormat(c, v)
    ensures r.camera.isRunning == c.isRunning && r.camera.device == c.device
  {
    if name == "gain" then PropStep(SetAnalogGain(c, v), Returned(v))
    else if name == "exposure" then PropStep(SetExposureTime(c, v.n), Returned(v))
    else if name == "blacklevel" then PropStep(SetBlacklevel(c, v), Returned(v))
    else if name == "image_width" then PropStep(SetImageWidth(c, v.n), Returned(v))
    else if name == "image_height" then PropStep(SetImageHeight(c, v.n), Returned(v))
    else if name == "pixel_format" then PropStep(SetPixelFormat(c, v), Returned(v))
    else PropStep(c, UnknownProperty)
  }

  /**
   `getPropertyValue`: for gain, exposure and pixel_format it reads attributes
   (`gain`, `exposure`, `PixelFormat`) that nothing assigns, so Python raises
   AttributeError; that outcome is `MissingAttribute`.
   */
  datatype GetResult = Found(value: Value) | UnknownName | MissingAttribute

  function GetProperty(c: Camera, name: string): (r: GetResult)
    ensures r == UnknownName <==> name !in PropertyNames
    ensures r == MissingAttribute <==> name in {"gain", "exposure", "pixel_format"}
    ensures name == "blacklevel" ==> r == Found(c.blacklevel)
    ensures name == "image_width" ==> r == Found(Num(c.sensorWidth))
    ensures name == "image_height" ==> r == Found(Num(c.sensorHeight))
  {
    if name == "gain" || name == "exposure" || name == "pixel_format" then MissingAttribute
    else if name == "blacklevel" then Found(c.blacklevel)
    else if name == "image_width" then Found(Num(c.sensorWidth))
    else if name == "image_height" then Found(Num(c.sensorHeight))
    else UnknownName
  }

  /** Reading back blacklevel, image_width or image_height yields what was set. */
  lemma SetThenGet(c: Camera, name: string, v: Value)
    requires name in {"blacklevel", "image_width", "image_height"} && ValueFits(name, v)
    ensures GetProperty(SetProperty(c, name, v).camera, name) == Found(v)
  {
  }

  /** The other three known names can never be read back, whatever was set. */
  lemma GetNeverReadsBack(c: Camera, name: string, v: Value)
    requires name in {"gain", "exposure", "pixel_format"} && ValueFits(name, v)
    ensures SetProperty(c, name, v).result == Returned(v)
    ensures GetProperty(SetProperty(c, name, v).camera, name) == MissingAttribute
  {
  }

  /** The exposure property lands on the ExposureTime node scaled by 1000. */
  lemma ExposurePropertyScales(c: Camera, ms: int)
    ensures var r := SetProperty(c, "exposure", Num(ms)).camera;
      r.exposureTime == ms && r.nodes["ExposureTime"] == Num(1000 * ms)
  {
  }

  // ---------------------------------------------------------------------------
  // Live acquisition flag
  // ---------------------------------------------------------------------------

  /** The node the source locks during acquisition (1) and unlocks on stop (0). */
  const LockKey: string := "TLParamsLocked"

  /** Where the stream-start block of `start_live` raised an SDK fault, if anywhere. */
  datatype StartFault =
    | NoFault       // stream started, parameters locked, acquisition triggered
    | StreamFault   // StartAcquisition or the lock write raised: the lock is not written
    | TriggerFault  // AcquisitionStart raised after TLParamsLocked was set to 1

  /**
   `start_live`. Without a device it returns at once. Otherwise it applies the
   full-sensor ROI and the target frame rate (each failure only logged), then
   starts the stream, locks the transport-layer parameters and triggers the
   acquisition; only when none of these raises is the camera marked running.
   */
  function StartLive(c: Camera, b: RoiBounds, rates: RateRange, fault: StartFault): (r: Camera)
    ensures !c.device ==> r == c
    ensures c.device ==> r.isRunning == (c.isRunning || fault == NoFault)
    ensures c.device ==>
      var applied := SetFramerate(SetRoi(c.nodes, b, 0, 0, c.sensorWidth, c.sensorHeight).nodes,
                                  rates, Some(c.targetFps)).nodes;
      && SameOutside(applied, r.nodes, {LockKey})
      && (fault == StreamFault ==> r.nodes == applied)
      && (fault != StreamFault ==> LockKey in r.nodes && r.nodes[LockKey] == Num(1))
    ensures r == c.(nodes := r.nodes, isRunning := r.isRunning)
  {
    if !c.device then c
    else
      var roi := SetRoi(c.nodes, b, 0, 0, c.sensorWidth, c.sensorHeight);
      var rate := SetFramerate(roi.nodes, rates, Some(c.targetFps));
      var locked := if fault == StreamFault then rate.nodes else SetNode(rate.nodes, LockKey, Num(1));
      c.(nodes := locked, isRunning := if fault == NoFault then true else c.isRunning)
  }

  /**
   On a freshly built camera whose device admits the full 1920x1200 sensor
   and a 30 fps rate, a start applies exactly that ROI and rate.
   */
  lemma StartLiveAppliesFullSensor(nodes: NodeMap, b: RoiBounds, rates: RateRange, fault: StartFault)
    requires b.xMin <= 0 <= b.xMax && b.yMin <= 0 <= b.yMax
    requires b.wMin <= 1920 <= b.wMax && b.hMin <= 1200 <= b.hMax
    requires rates.min <= 30 <= rates.max
    ensures var r := StartLive(Construct(true, nodes), b, rates, fault);
      && HasRoi(r.nodes, 0, 0, 1920, 1200)
      && r.nodes[RateKey] == Num(30)
      && r.isRunning == (fault == NoFault)
  {
    var c := Construct(true, nodes);
    AlignedRequestApplied(c.nodes, b, 0, 0, 1920, 1200);
  }

  /**
   `stop_live`: a no-op without a device or when not running. Otherwise it
   stops the stream and, if none of the SDK calls raises (`sdkOk`), unlocks
   the parameters; either way it then assigns `camera_is_open = False`. It
   never touches `is_running`.
   */
  function StopLive(c: Camera, sdkOk: bool): (r: Camera)
    ensures r.isRunning == c.isRunning
    ensures !c.device || !c.isRunning ==> r == c
    ensures c.device && c.isRunning ==> r.cameraIsOpen == Some(false)
    ensures c.device && c.isRunning && sdkOk ==>
      LockKey in r.nodes && r.nodes[LockKey] == Num(0) && SameOutside(c.nodes, r.nodes, {LockKey})
    ensures !sdkOk ==> r.nodes == c.nodes
    ensures r == c.(nodes := r.nodes, cameraIsOpen := r.cameraIsOpen)
  {
    if !c.device || !c.isRunning then c
    else
      var unlocked := if sdkOk then SetNode(c.nodes, LockKey, Num(0)) else c.nodes;
      c.(nodes := unlocked, cameraIsOpen := Some(false))
  }

  /**
   A clean start followed by a clean stop leaves the parameters unlocked and
   the camera marked closed, yet `is_running` still reads true.
   */
  lemma StopAfterStartStaysRunning(c: Camera, b: RoiBounds, rates: RateRange)
    requires c.device
    ensures var r := StopLive(StartLive(c, b, rates, NoFault), true);
      && r.isRunning
      && r.cameraIsOpen == Some(false)
      && r.nodes[LockKey] == Num(0)
  {
  }

  datatype LiveOp = Start(bounds: RoiBounds, rates: RateRange, fault: StartFault) | Stop(sdkOk: bool)

  function RunLive(c: Camera, ops: seq<LiveOp>): Camera
    decreases |ops|
  {
    if ops == [] then c
    else
      var c' := match ops[0]
        case Start(b, rates, f) => StartLive(c, b, rates, f)
        case Stop(ok) => StopLive(c, ok);
      RunLive(c', ops[1..])
  }

  /** Some start in `ops` got through its SDK calls without a fault. */
  predicate SomeStartSucceeds(ops: seq<LiveOp>) {
    exists i :: 0 <= i < |ops| && ops[i].Start? && ops[i].fault == NoFault
  }

  /**
   Across any sequence of starts and stops, the camera is running exactly
   when it already was, or it has a device and some start succeeded:
   stopping never clears the flag.
   */
  lemma {:induction false} RunningIsSticky(c: Camera, ops: seq<LiveOp>)
    ensures RunLive(c, ops).device == c.device
    ensures RunLive(c, ops).isRunning <==> c.isRunning || (c.device && SomeStartSucceeds(ops))
    decreases |ops|
  {
    if ops != [] {
      var c' := match ops[0]
        case Start(b, rates, f) => StartLive(c, b, rates, f)
        case Stop(ok) => StopLive(c, ok);
      RunningIsSticky(c', ops[1..]);
      if SomeStartSucceeds(ops[1..]) {
        var i :| 0 <= i < |ops[1..]| && ops[1..][i].Start? && ops[1..][i].fault == NoFault;
        assert ops[i + 1] == ops[1..][i];
      }
      if SomeStartSucceeds(ops) && !(ops[0].Start? && ops[0].fault == NoFault) {
        var i :| 0 <= i < |ops| && ops[i].Start? && ops[i].fault == NoFault;
        assert i > 0 && ops[1..][i - 1] == ops[i];
      }
    }
  }

}
