/**
 The ESP32 LED/laser manager
 (imswitch/imcontrol/model/managers/lasers/ESP32LEDLaserManagerEE.py):
 one illumination channel driven through the shared ESP32 driver. The
 manager's `setValue` hands `enabled * laserval` to the driver's `set_led` as
 its only argument, so the product lands in the CHANNEL position and the LED
 state falls back to its default 1; the model keeps that behaviour.
 */
module LedLaserManager {

  import opened Options
  import opened Decimal
  import opened Esp32Driver

  datatype LedLaser = LedLaser(channelIndex: int, laserval: int, enabled: bool)

  datatype LaserStep = LaserStep(laser: LedLaser, driver: Driver)

  /** Python's `bool * int`. */
  function Scaled(enabled: bool, value: int): (p: int)
    ensures enabled ==> p == value
    ensures !enabled ==> p == 0
  {
    if enabled then value else 0
  }

  function BoolToInt(b: bool): (i: int)
    ensures i != 0 <==> b
    ensures 0 <= i <= 1
  {
    if b then 1 else 0
  }

  /** The constructor: disabled, value 0, and `set_laser_intensity(0)` on the driver. */
  function Create(channelIndex: int, d: Driver): (r: LaserStep)
    ensures r.laser == LedLaser(channelIndex, 0, false)
    ensures r.driver.laserIntensity == 0
    ensures r.driver.ledState == d.ledState && r.driver.connected == d.connected
    ensures d.connected ==> r.driver.sent == d.sent + [LedCommand(1, d.ledState != 0)]
    ensures !d.connected ==> r.driver.sent == d.sent
  {
    var m := LedLaser(channelIndex, 0, false);
    LaserStep(m, SetLaserIntensity(d, Scaled(m.enabled, m.laserval)))
  }

  /** `setEnabled(enabled)`: switches this manager's own channel on or off. */
  function SetEnabled(m: LedLaser, d: Driver, enabled: bool): (r: LaserStep)
    ensures r.laser == m.(enabled := enabled)
    ensures r.driver.ledState == BoolToInt(enabled)
    ensures r.driver.laserIntensity == d.laserIntensity && r.driver.connected == d.connected
    ensures d.connected ==> r.driver.sent == d.sent + [LedCommand(m.channelIndex, enabled)]
    ensures !d.connected ==> r.driver.sent == d.sent
  {
    LaserStep(m.(enabled := enabled), SetLed(d, m.channelIndex, BoolToInt(enabled)))
  }

  /**
   `setValue(power)`: stores the power and calls `set_led(enabled * laserval)`,
   so the channel sent is the scaled power and the LED state becomes 1.
   `round(power)` is the identity on the integer powers modelled here.
   */
  function SetValue(m: LedLaser, d: Driver, power: int): (r: LaserStep)
    ensures r.laser == m.(laserval := power)
    ensures r.driver.ledState == 1
    ensures r.driver.laserIntensity == d.laserIntensity && r.driver.connected == d.connected
    ensures d.connected ==> r.driver.sent == d.sent + [LedCommand(Scaled(m.enabled, power), true)]
    ensures !d.connected ==> r.driver.sent == d.sent
  {
    var m' := m.(laserval := power);
    LaserStep(m', SetLed(d, Scaled(m'.enabled, m'.laserval)))
  }

  /** Building the manager on a freshly opened driver adds exactly `<L1OF>`. */
  lemma CreateOnFreshDriver(channelIndex: int, portOpened: bool)
    ensures portOpened ==> Create(channelIndex, Open(portOpened)).driver.sent == [InitCommand, "<L1OF>"]
    ensures !portOpened ==> Create(channelIndex, Open(portOpened)).driver.sent == []
  {
    assert IntToString(1) == "1";
    assert LedCommand(1, false) == "<L" + "1" + "OF" + ">" == "<L1OF>";
  }

  /**
   `setValue` on a disabled manager still transmits: channel 0, state ON,
   i.e. `<L0ON>`, whatever the power and whatever the manager's channel.
   */
  lemma DisabledSetValueSendsChannelZero(m: LedLaser, d: Driver, power: int)
    requires !m.enabled && d.connected
    ensures SetValue(m, d, power).driver.sent == d.sent + ["<L0ON>"]
    ensures SetValue(m, d, power).driver.ledState == 1
  {
    assert IntToString(0) == "0";
    assert LedCommand(0, true) == "<L" + "0" + "ON" + ">" == "<L0ON>";
  }

  /** What `setValue` transmits decodes to the scaled power as the channel, switched on. */
  lemma SetValueDecodes(m: LedLaser, d: Driver, power: int)
    requires d.connected
    ensures var sent := SetValue(m, d, power).driver.sent;
      |sent| == |d.sent| + 1 && DecodeLed(sent[|sent| - 1]) == Some((if m.enabled then power else 0, true))
  {
    LedCommandRoundTrip(Scaled(m.enabled, power), true);
  }

  /**
   Setting a value while disabled and then enabling sends two commands, the
   first of which already switches channel 0 on.
   */
  lemma DisabledValueThenEnable(channelIndex: int, d: Driver, power: int)
    requires d.connected
    ensures var c := Create(channelIndex, d);
      var v := SetValue(c.laser, c.driver, power);
      var e := SetEnabled(v.laser, v.driver, true);
      && e.laser == LedLaser(channelIndex, power, true)
      && e.driver.sent == c.driver.sent + ["<L0ON>", LedCommand(channelIndex, true)]
  {
    assert IntToString(0) == "0";
    assert LedCommand(0, true) == "<L" + "0" + "ON" + ">" == "<L0ON>";
  }

}
