/** The two dimmer classes: `AlmondMultilevelSwitch`, whose level is a
    percentage with restore-on-toggle, and `AlmondMultilevelSwitchOnOff`,
    whose on/off state is a separate binary property and whose level the hub
    keeps on a 0-255 scale. */
module Lights {
  import opened JsValues
  import opened HomeKit
  import opened Devices
  import opened Binding
  import opened RestoreLevel
  import Dispatch

  /** `Math.round(v / 255 * 100)`: a device level as a percentage. */
  function PercentFromDevice(v: Value): Value {
    var n := ToNumber(v);
    MathRound(if n.Some? then Some(n.value / 255.0 * 100.0) else None)
  }

  /** `Math.round(v / 100 * 255)`: a percentage as a device level. */
  function DeviceFromPercent(v: Value): Value {
    var n := ToNumber(v);
    MathRound(if n.Some? then Some(n.value / 100.0 * 255.0) else None)
  }

  /** Every device level in [0, 255] reads as a percentage in [0, 100]. */
  lemma PercentInRange(x: real)
    requires 0.0 <= x <= 255.0
    ensures PercentFromDevice(Num(x)).Num?
    ensures 0.0 <= PercentFromDevice(Num(x)).x <= 100.0
  {
    RoundError(x / 255.0 * 100.0);
  }

  /** On whole device levels the percentage is `(200 d + 255) / 510` in integers. */
  lemma PercentFromDeviceExact(d: int)
    ensures PercentFromDevice(Num(d as real)) == Num(((200 * d + 255) / 510) as real)
  {
    var k := (200 * d + 255) / 510;
    assert 510 * k <= 200 * d + 255 < 510 * k + 510;
    var y := d as real / 255.0 * 100.0;
    assert y * 510.0 == (200 * d) as real;
    RoundIs(y, k);
  }

  /** On whole percentages the device level is `(510 p + 100) / 200` in integers. */
  lemma DeviceFromPercentExact(p: int)
    ensures DeviceFromPercent(Num(p as real)) == Num(((510 * p + 100) / 200) as real)
  {
    var k := (510 * p + 100) / 200;
    assert 200 * k <= 510 * p + 100 < 200 * k + 200;
    var y := p as real / 100.0 * 255.0;
    assert y * 200.0 == (510 * p) as real;
    RoundIs(y, k);
  }

  /** Writing a whole percentage and reading it back gives the same percentage. */
  lemma PercentRoundTrip(p: int)
    requires 0 <= p <= 100
    ensures PercentFromDevice(DeviceFromPercent(Num(p as real))) == Num(p as real)
  {
    var q := (510 * p + 100) / 200;
    DeviceFromPercentExact(p);
    PercentFromDeviceExact(q);
    assert 200 * q <= 510 * p + 100 < 200 * q + 200;
    var k := (200 * q + 255) / 510;
    assert 510 * k <= 200 * q + 255 < 510 * k + 510;
    assert k == p;
  }

  /** Reading a whole device level as a percentage and writing that back
      lands within one step of the original level. */
  lemma DeviceRoundTrip(d: int)
    requires 0 <= d <= 255
    ensures var r := DeviceFromPercent(PercentFromDevice(Num(d as real)));
            r.Num? && d as real - 1.0 <= r.x <= d as real + 1.0 && 0.0 <= r.x <= 255.0
  {
    var p := (200 * d + 255) / 510;
    PercentFromDeviceExact(d);
    DeviceFromPercentExact(p);
    assert 510 * p <= 200 * d + 255 < 510 * p + 510;
    var q := (510 * p + 100) / 200;
    assert 200 * q <= 510 * p + 100 < 200 * q + 200;
    assert d - 1 <= q <= d + 1;
  }

  class AlmondMultilevelSwitch {
    const accessory: Accessory
    const device: Device
    /** `_cachedBrightness`. */
    var cachedBrightness: Value

    ghost predicate Valid()
      reads this, accessory
    {
      InLevelRange(cachedBrightness) && accessory.Valid() &&
      accessory.Has(Lightbulb, On) && accessory.Has(Lightbulb, Brightness)
    }

    constructor (accessory: Accessory, device: Device)
      requires accessory.Valid()
      modifies accessory
      ensures Valid() && this.accessory == accessory && this.device == device
      ensures cachedBrightness == DefaultLevel
      ensures accessory.information == Some(InformationOf(device))
      ensures accessory.services ==
        ApplyBlueprint(old(accessory.services), Blueprint(Dispatch.AlmondMultilevelSwitch), device.name)
      ensures accessory.notifications == old(accessory.notifications)
    {
      this.accessory := accessory;
      this.device := device;
      cachedBrightness := DefaultLevel;
      new;
      ghost var s0 := accessory.services;
      var bp := Blueprint(Dispatch.AlmondMultilevelSwitch);
      SetAccessoryInformation(accessory, device);
      BindAll(accessory, bp, device.name);
      BlueprintProvides(s0, bp, device.name, 0, On);
      BlueprintProvides(s0, bp, device.name, 0, Brightness);
    }

    /** `getState`: on when the level is above 0. */
    function GetState(): Value
      reads device
    {
      Bool(Greater(device.Prop("SwitchMultilevel"), 0.0))
    }

    /** `getBrightness`: the level as the device reports it. */
    function GetBrightness(): Value
      reads device
    {
      device.Prop("SwitchMultilevel")
    }

    /** `setState`: remembers the current level when it is in (0, 100], then
        writes the remembered level to switch on, or 0 to switch off. */
    method SetState(state: Value)
      requires Valid()
      modifies this`cachedBrightness, device`writes
      ensures Valid()
      ensures cachedBrightness == Observe(old(cachedBrightness), device.Prop("SwitchMultilevel"))
      ensures device.writes ==
        old(device.writes) + [Write(device.PropId("SwitchMultilevel"), LevelToWrite(cachedBrightness, state))]
    {
      var oldBrightness := device.Prop("SwitchMultilevel");
      if Greater(oldBrightness, 0.0) && AtMost(oldBrightness, 100.0) {
        cachedBrightness := oldBrightness;
      }
      var newBrightness;
      if Truthy(state) {
        newBrightness := cachedBrightness;
      } else {
        newBrightness := Num(0.0);
      }
      device.SetProp("SwitchMultilevel", newBrightness);
    }

    /** `setBrightness`: remembers a level in (0, 100] and writes the level as given. */
    method SetBrightness(brightness: Value)
      requires Valid()
      modifies this`cachedBrightness, device`writes
      ensures Valid()
      ensures cachedBrightness == Observe(old(cachedBrightness), brightness)
      ensures device.writes == old(device.writes) + [Write(device.PropId("SwitchMultilevel"), brightness)]
    {
      if Greater(brightness, 0.0) && AtMost(brightness, 100.0) {
        cachedBrightness := brightness;
      }
      device.SetProp("SwitchMultilevel", brightness);
    }

    /** `updateSwitchMultilevel`: a reported 0 turns the light off in HomeKit;
        a level in (0, 100] is remembered and pushed with On; anything else is ignored. */
    method UpdateSwitchMultilevel(brightness: Value)
      requires Valid()
      modifies this`cachedBrightness, accessory`notifications
      ensures Valid()
      ensures cachedBrightness == Observe(old(cachedBrightness), brightness)
      ensures accessory.notifications ==
        old(accessory.notifications) + LevelReport(Lightbulb, Brightness, brightness)
    {
      var ok;
      if LooselyEquals(brightness, 0.0) {
        ok := accessory.UpdateValue(Lightbulb, On, Bool(false));
      } else if Greater(brightness, 0.0) && AtMost(brightness, 100.0) {
        cachedBrightness := brightness;
        ok := accessory.UpdateValue(Lightbulb, Brightness, brightness);
        ok := accessory.UpdateValue(Lightbulb, On, Bool(true));
      }
    }

    /** The change listener: only the level property is handled. */
    method OnValueUpdated(property: PropertyId, value: Value)
      requires Valid()
      modifies this`cachedBrightness, accessory`notifications
      ensures Valid()
      ensures device.IsProp(property, "SwitchMultilevel") ==>
        cachedBrightness == Observe(old(cachedBrightness), value) &&
        accessory.notifications == old(accessory.notifications) + LevelReport(Lightbulb, Brightness, value)
      ensures !device.IsProp(property, "SwitchMultilevel") ==>
        cachedBrightness == old(cachedBrightness) && accessory.notifications == old(accessory.notifications)
    {
      if device.IsProp(property, "SwitchMultilevel") {
        UpdateSwitchMultilevel(value);
      }
    }
  }

  class AlmondMultilevelSwitchOnOff {
    const accessory: Accessory
    const device: Device

    ghost predicate Valid()
      reads this, accessory
    {
      accessory.Valid() && accessory.Has(Lightbulb, On) && accessory.Has(Lightbulb, Brightness)
    }

    constructor (accessory: Accessory, device: Device)
      requires accessory.Valid()
      modifies accessory
      ensures Valid() && this.accessory == accessory && this.device == device
      ensures accessory.information == Some(InformationOf(device))
      ensures accessory.services ==
        ApplyBlueprint(old(accessory.services), Blueprint(Dispatch.AlmondMultilevelSwitchOnOff), device.name)
      ensures accessory.notifications == old(accessory.notifications)
    {
      this.accessory := accessory;
      this.device := device;
      new;
      ghost var s0 := accessory.services;
      var bp := Blueprint(Dispatch.AlmondMultilevelSwitchOnOff);
      SetAccessoryInformation(accessory, device);
      BindAll(accessory, bp, device.name);
      BlueprintProvides(s0, bp, device.name, 0, On);
      BlueprintProvides(s0, bp, device.name, 0, Brightness);
    }

    /** `getState`: the binary switch property as reported. */
    function GetState(): Value
      reads device
    {
      device.Prop("SwitchBinary")
    }

    /** `getBrightness`: the 0-255 level as a percentage. */
    function GetBrightness(): Value
      reads device
    {
      PercentFromDevice(device.Prop("SwitchMultilevel"))
    }

    /** `setState`: writes the state to the binary switch property as given. */
    method SetState(state: Value)
      modifies device`writes
      ensures device.writes == old(device.writes) + [Write(device.PropId("SwitchBinary"), state)]
    {
      device.SetProp("SwitchBinary", state);
    }

    /** `setBrightness`: writes the percentage rescaled to 0-255. */
    method SetBrightness(brightness: Value)
      modifies device`writes
      ensures device.writes ==
        old(device.writes) + [Write(device.PropId("SwitchMultilevel"), DeviceFromPercent(brightness))]
    {
      device.SetProp("SwitchMultilevel", DeviceFromPercent(brightness));
    }

    /** `updateSwitchBinary`: pushes the reported state to On as it is. */
    method UpdateSwitchBinary(state: Value)
      requires Valid()
      modifies accessory`notifications
      ensures Valid()
      ensures accessory.notifications == old(accessory.notifications) + [Notification(Lightbulb, On, state)]
    {
      var ok := accessory.UpdateValue(Lightbulb, On, state);
    }

    /** `updateSwitchMultilevel`: pushes the reported level as a percentage,
        the value `getBrightness` gives once the device holds that level. */
    method UpdateSwitchMultilevel(brightness: Value)
      requires Valid()
      modifies accessory`notifications
      ensures Valid()
      ensures accessory.notifications ==
        old(accessory.notifications) + [Notification(Lightbulb, Brightness, PercentFromDevice(brightness))]
    {
      var ok := accessory.UpdateValue(Lightbulb, Brightness, PercentFromDevice(brightness));
    }

    /** The change listener: the binary property first, then the level property. */
    method OnValueUpdated(property: PropertyId, value: Value)
      requires Valid()
      modifies accessory`notifications
      ensures Valid()
      ensures accessory.notifications == old(accessory.notifications) +
        (if device.IsProp(property, "SwitchBinary") then [Notification(Lightbulb, On, value)]
         else if device.IsProp(property, "SwitchMultilevel")
         then [Notification(Lightbulb, Brightness, PercentFromDevice(value))]
         else [])
    {
      if device.IsProp(property, "SwitchBinary") {
        UpdateSwitchBinary(value);
      } else if device.IsProp(property, "SwitchMultilevel") {
        UpdateSwitchMultilevel(value);
      }
    }
  }
}
