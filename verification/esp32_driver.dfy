/**
 The ESP32 serial driver (imswitch/imcontrol/model/interfaces/esp32driver.py):
 the connection flag decided when the port is opened, the write gate, and the
 illumination commands `<L{channel}{ON|OF}>`. The serial line itself is
 modelled by `sent`, the commands transmitted so far, oldest first.
 */
module Esp32Driver {

  import opened Options
  import opened Decimal

  datatype Driver = Driver(
    connected: bool,      // the serial port opened when the driver was built
    laserIntensity: int,  // last value given to set_laser_intensity
    ledState: int,        // last state given to set_led; non-zero is "on"
    sent: seq<string>     // commands written to the serial line
  )

  /** The command written right after a successful open; it has no closing '>'. */
  const InitCommand: string := "<L1OF,L2OF"

  /** `_write`: the command reaches the line only while connected. */
  function Write(d: Driver, cmd: string): (r: Driver)
    ensures r.connected == d.connected
    ensures r.laserIntensity == d.laserIntensity && r.ledState == d.ledState
    ensures d.connected ==> r.sent == d.sent + [cmd]
    ensures !d.connected ==> r == d
  {
    if d.connected then d.(sent := d.sent + [cmd]) else d
  }

  /**
   The constructor. `portOpened` says whether opening the serial port
   succeeded; the init command goes out before the illumination fields are set.
   */
  function Open(portOpened: bool): (d: Driver)
    ensures d.connected == portOpened
    ensures d.laserIntensity == 0 && d.ledState == 0
    ensures portOpened ==> d.sent == [InitCommand]
    ensures !portOpened ==> d.sent == []
  {
    var blank := Driver(portOpened, 0, 0, []);
    if portOpened then Write(blank, InitCommand) else blank
  }

  /** The two-letter suffix chosen by Python truthiness of the LED state. */
  function Suffix(on: bool): string {
    if on then "ON" else "OF"
  }

  /** `"<L" + str(channel) + suffix + ">"`. */
  function LedCommand(channel: int, on: bool): (cmd: string)
    ensures |cmd| >= 6
    ensures cmd[..2] == "<L" && cmd[|cmd| - 1] == '>'
    ensures cmd[2..|cmd| - 3] == IntToString(channel)
    ensures cmd[|cmd| - 3..|cmd| - 1] == (if on then "ON" else "OF")
  {
    "<L" + IntToString(channel) + Suffix(on) + ">"
  }

  /** Reads an illumination command back into its channel and on/off flag. */
  function DecodeLed(cmd: string): Option<(int, bool)> {
    if |cmd| < 6 || cmd[..2] != "<L" || cmd[|cmd| - 1] != '>' then None
    else
      var tag := cmd[|cmd| - 3..|cmd| - 1];
      if tag != "ON" && tag != "OF" then None
      else
        match ParseInt(cmd[2..|cmd| - 3])
        case Some(ch) => Some((ch, tag == "ON"))
        case None => None
  }

  lemma LedCommandRoundTrip(channel: int, on: bool)
    ensures DecodeLed(LedCommand(channel, on)) == Some((channel, on))
  {
    var cmd := LedCommand(channel, on);
    ParseIntExact(cmd[2..|cmd| - 3], channel);
  }

  /** Every command DecodeLed accepts is the encoding of what it decodes to. */
  lemma DecodeLedSound(cmd: string, channel: int, on: bool)
    requires DecodeLed(cmd) == Some((channel, on))
    ensures cmd == LedCommand(channel, on)
  {
    var mid := cmd[2..|cmd| - 3];
    var tag := cmd[|cmd| - 3..|cmd| - 1];
    assert ParseInt(mid) == Some(channel) && tag == Suffix(on);
    ParseIntExact(mid, channel);
    assert cmd == cmd[..2] + mid + tag + [cmd[|cmd| - 1]];
  }

  /** `set_laser_intensity`: stores the intensity, re-sends channel 1's LED state. */
  function SetLaserIntensity(d: Driver, intensity: int): (r: Driver)
    ensures r.laserIntensity == intensity
    ensures r.ledState == d.ledState && r.connected == d.connected
    ensures d.connected ==> r.sent == d.sent + [LedCommand(1, d.ledState != 0)]
    ensures !d.connected ==> r.sent == d.sent
  {
    Write(d.(laserIntensity := intensity), LedCommand(1, d.ledState != 0))
  }

  /** `set_led`: stores the state and sends it for the given channel. */
  function SetLed(d: Driver, channel: int, state: int := 1): (r: Driver)
    ensures r.ledState == state
    ensures r.laserIntensity == d.laserIntensity && r.connected == d.connected
    ensures d.connected ==> r.sent == d.sent + [LedCommand(channel, state != 0)]
    ensures !d.connected ==> r.sent == d.sent
  {
    Write(d.(ledState := state), LedCommand(channel, state != 0))
  }

  /** The intensity never influences what set_laser_intensity transmits. */
  lemma LaserCommandIgnoresIntensity(d: Driver, i: int, j: int)
    ensures SetLaserIntensity(d, i).sent == SetLaserIntensity(d, j).sent
    ensures SetLaserIntensity(d, i).(laserIntensity := j) == SetLaserIntensity(d, j)
  {
  }

  /** The driver operations a caller can issue after construction. */
  datatype Op =
    | RawWrite(cmd: string)
    | LaserIntensity(intensity: int)
    | Led(channel: int, state: int)

  function Apply(d: Driver, op: Op): Driver {
    match op
    case RawWrite(cmd) => Write(d, cmd)
    case LaserIntensity(i) => SetLaserIntensity(d, i)
    case Led(ch, s) => SetLed(d, ch, s)
  }

  function Run(d: Driver, ops: seq<Op>): Driver
    decreases |ops|
  {
    if ops == [] then d else Run(Apply(d, ops[0]), ops[1..])
  }

  /**
   Whatever is issued, the connection flag never changes, the line only grows,
   and a driver whose port did not open transmits nothing at all.
   */
  lemma {:induction false} RunKeepsConnection(d: Driver, ops: seq<Op>)
    ensures Run(d, ops).connected == d.connected
    ensures |d.sent| <= |Run(d, ops).sent| && Run(d, ops).sent[..|d.sent|] == d.sent
    ensures !d.connected ==> Run(d, ops).sent == d.sent
    decreases |ops|
  {
    if ops != [] {
      var d' := Apply(d, ops[0]);
      RunKeepsConnection(d', ops[1..]);
      assert d'.sent[..|d.sent|] == d.sent;
    }
  }

  /** A failed open leaves the line silent forever. */
  lemma FailedOpenIsSilent(ops: seq<Op>)
    ensures !Run(Open(false), ops).connected
    ensures Run(Open(false), ops).sent == []
  {
    RunKeepsConnection(Open(false), ops);
  }

}
