/** The read-only sensors: `AlmondContactSwitch`, `AlmondFireSensor` and
    `AlmondSmokeDetector`. Their handlers turn hub values into HomeKit's
    two-valued states, either through a two-entry table indexed by the
    number the value reads as, or through a threshold. */
module Sensors {
  import opened JsValues
  import opened HomeKit
  import opened Binding
  import Devices
  import Dispatch

  /** `[a, b][Number(v)]`: `a` for 0, `b` for 1, `undefined` otherwise. */
  function TwoState(v: Value, a: nat, b: nat): Value {
    var n := ToNumber(v);
    if n == Some(0.0) then Code(a)
    else if n == Some(1.0) then Code(b)
    else Undefined
  }

  /** The contact, tamper, low-battery and smoke tables all hold 0 and then
      1, so each passes the hub's 0 and 1 through as numbers and turns
      anything else into `undefined`. */
  lemma TwoStateIsIdentity(v: Value)
    ensures TwoState(v, 0, 1) != Undefined <==> ToNumber(v) == Some(0.0) || ToNumber(v) == Some(1.0)
    ensures TwoState(v, 0, 1) != Undefined ==> TwoState(v, 0, 1) == Num(ToNumber(v).value)
    ensures ContactDetected == 0 && ContactNotDetected == 1
    ensures NotTampered == 0 && Tampered == 1
    ensures BatteryLevelNormal == 0 && BatteryLevelLow == 1
    ensures SmokeNotDetected == 0 && SmokeIsDetected == 1
  {
  }

  /** The smoke detector's low-battery threshold, `_LOW_BATTERY_THRESHOLD`. */
  const LowBatteryThreshold: real := 20.0

  /** `states[Number(v > 0)]`: smoke is detected for a positive value. */
  function SmokeLevelOf(v: Value): (r: Value)
    ensures r == TwoState(Bool(Greater(v, 0.0)), SmokeNotDetected, SmokeIsDetected)
  {
    Code(if Greater(v, 0.0) then SmokeIsDetected else SmokeNotDetected)
  }

  /** `states[Number(v <= 20)]`: the battery is low at 20 or below. */
  function BatteryLevelOf(v: Value): (r: Value)
    ensures r == TwoState(Bool(AtMost(v, LowBatteryThreshold)), BatteryLevelNormal, BatteryLevelLow)
  {
    Code(if AtMost(v, LowBatteryThreshold) then BatteryLevelLow else BatteryLevelNormal)
  }

  /** Both thresholds always give a HomeKit state; for a number they split
      exactly at 0 and at 20. */
  lemma ThresholdsSplit(x: real, v: Value)
    ensures SmokeLevelOf(v) != Undefined && BatteryLevelOf(v) != Undefined
    ensures SmokeLevelOf(Num(x)) == Code(SmokeIsDetected) <==> x > 0.0
    ensures BatteryLevelOf(Num(x)) == Code(BatteryLevelLow) <==> x <= 20.0
    ensures SmokeLevelOf(Undefined) == Code(SmokeNotDetected)
    ensures BatteryLevelOf(Undefined) == Code(BatteryLevelNormal)
  {
  }

  /** `AlmondContactSwitch` and `AlmondFireSensor` share one shape: a sensor
      service whose main state, tamper state and low-battery state each come
      from a two-entry table. */
  class AlmondContactSwitch {
    const accessory: Accessory
    const device: Devices.Device

    ghost predicate Valid()
      reads this, accessory
    {
      accessory.Valid() && accessory.Has(ContactSensor, ContactSensorState) &&
      accessory.Has(ContactSensor, StatusTampered) && accessory.Has(ContactSensor, StatusLowBattery)
    }

    constructor (accessory: Accessory, device: Devices.Device)
      requires accessory.Valid()
      modifies accessory
      ensures Valid() && this.accessory == accessory && this.device == device
      ensures accessory.information == Some(InformationOf(device))
      ensures accessory.services ==
        ApplyBlueprint(old(accessory.services), Blueprint(Dispatch.AlmondContactSwitch), device.name)
      ensures accessory.notifications == old(accessory.notifications)
    {
      this.accessory := accessory;
      this.device := device;
      new;
      ghost var s0 := accessory.services;
      var bp := Blueprint(Dispatch.AlmondContactSwitch);
      SetAccessoryInformation(accessory, device);
      BindAll(accessory, bp, device.name);
      BlueprintProvides(s0, bp, device.name, 0, ContactSensorState);
      BlueprintProvides(s0, bp, device.name, 0, StatusTampered);
      BlueprintProvides(s0, bp, device.name, 0, StatusLowBattery);
    }

    /** `getContactState`. */
    function GetContactState(): Value
      reads device
    {
      TwoState(device.Prop("State"), ContactDetected, ContactNotDetected)
    }

    /** `getTamperState`. */
    function GetTamperState(): Value
      reads device
    {
      TwoState(device.Prop("Tamper"), NotTampered, Tampered)
    }

    /** `getLowBatteryState`. */
    function GetLowBatteryState(): Value
      reads device
    {
      TwoState(device.Prop("LowBattery"), BatteryLevelNormal, BatteryLevelLow)
    }

    /** The change listener: State, then Tamper, then LowBattery. Each update
        pushes what the matching getter returns once the hub holds `value`. */
    method OnValueUpdated(property: Devices.PropertyId, value: Value)
      requires Valid()
      modifies accessory`notifications
      ensures Valid()
      ensures accessory.notifications == old(accessory.notifications) +
        (if device.IsProp(property, "State")
         then [Notification(ContactSensor, ContactSensorState, TwoState(value, ContactDetected, ContactNotDetected))]
         else if device.IsProp(property, "Tamper")
         then [Notification(ContactSensor, StatusTampered, TwoState(value, NotTampered, Tampered))]
         else if device.IsProp(property, "LowBattery")
         then [Notification(ContactSensor, StatusLowBattery, TwoState(value, BatteryLevelNormal, BatteryLevelLow))]
         else [])
    {
      var ok;
      if device.IsProp(property, "State") {
        ok := accessory.UpdateValue(ContactSensor, ContactSensorState, TwoState(value, ContactDetected, ContactNotDetected));
      } else if device.IsProp(property, "Tamper") {
        ok := accessory.UpdateValue(ContactSensor, StatusTampered, TwoState(value, NotTampered, Tampered));
      } else if device.IsProp(property, "LowBattery") {
        ok := accessory.UpdateValue(ContactSensor, StatusLowBattery, TwoState(value, BatteryLevelNormal, BatteryLevelLow));
      }
    }
  }

  class AlmondFireSensor {
    const accessory: Accessory
    const device: Devices.Device

    ghost predicate Valid()
      reads this, accessory
    {
      accessory.Valid() && accessory.Has(SmokeSensor, SmokeDetected) &&
      accessory.Has(SmokeSensor, StatusTampered) && accessory.Has(SmokeSensor, StatusLowBattery)
    }

    constructor (accessory: Accessory, device: Devices.Device)
      requires accessory.Valid()
      modifies accessory
      ensures Valid() && this.accessory == accessory && this.device == device
      ensures accessory.information == Some(InformationOf(device))
      ensures accessory.services ==
        ApplyBlueprint(old(accessory.services), Blueprint(Dispatch.AlmondFireSensor), device.name)
      ensures accessory.notifications == old(accessory.notifications)
    {
      this.accessory := accessory;
      this.device := device;
      new;
      ghost var s0 := accessory.services;
      var bp := Blueprint(Dispatch.AlmondFireSensor);
      SetAccessoryInformation(accessory, device);
      BindAll(accessory, bp, device.name);
      BlueprintProvides(s0, bp, device.name, 0, SmokeDetected);
      BlueprintProvides(s0, bp, device.name, 0, StatusTampered);
      BlueprintProvides(s0, bp, device.name, 0, StatusLowBattery);
    }

    /** `getSmokeDetectedState`. */
    function GetSmokeDetectedState(): Value
      reads device
    {
      TwoState(device.Prop("State"), SmokeNotDetected, SmokeIsDetected)
    }

    /** `getTamperState`. */
    function GetTamperState(): Value
      reads device
    {
      TwoState(device.Prop("Tamper"), NotTampered, Tampered)
    }

    /** `getLowBatteryState`. */
    function GetLowBatteryState(): Value
      reads device
    {
      TwoState(device.Prop("LowBattery"), BatteryLevelNormal, BatteryLevelLow)
    }

    /** The change listener: State, then Tamper, then LowBattery. */
    method OnValueUpdated(property: Devices.PropertyId, value: Value)
      requires Valid()
      modifies accessory`notifications
      ensures Valid()
      ensures accessory.notifications == old(accessory.notifications) +
        (if device.IsProp(property, "State")
         then [Notification(SmokeSensor, SmokeDetected, TwoState(value, SmokeNotDetected, SmokeIsDetected))]
         else if device.IsProp(property, "Tamper")
         then [Notification(SmokeSensor, StatusTampered, TwoState(value, NotTampered, Tampered))]
         else if device.IsProp(property, "LowBattery")
         then [Notification(SmokeSensor, StatusLowBattery, TwoState(value, BatteryLevelNormal, BatteryLevelLow))]
         else [])
    {
      var ok;
      if device.IsProp(property, "State") {
        ok := accessory.UpdateValue(SmokeSensor, SmokeDetected, TwoState(value, SmokeNotDetected, SmokeIsDetected));
      } else if device.IsProp(property, "Tamper") {
        ok := accessory.UpdateValue(SmokeSensor, StatusTampered, TwoState(value, NotTampered, Tampered));
      } else if device.IsProp(property, "LowBattery") {
        ok := accessory.UpdateValue(SmokeSensor, StatusLowBattery, TwoState(value, BatteryLevelNormal, BatteryLevelLow));
      }
    }
  }

  /** The smoke detector: thresholds instead of tables. Its getters read the
      `Status` and `Battery` properties while its listener watches `State` and
      `LowBattery`. */
  class AlmondSmokeDetector {
    const accessory: Accessory
    const device: Devices.Device

    ghost predicate Valid()
      reads this, accessory
    {
      accessory.Valid() && accessory.Has(SmokeSensor, SmokeDetected) &&
      accessory.Has(SmokeSensor, StatusLowBattery)
    }

    constructor (accessory: Accessory, device: Devices.Device)
      requires accessory.Valid()
      modifies accessory
      ensures Valid() && this.accessory == accessory && this.device == device
      ensures accessory.information == Some(InformationOf(device))
      ensures accessory.services ==
        ApplyBlueprint(old(accessory.services), Blueprint(Dispatch.AlmondSmokeDetector), device.name)
      ensures accessory.notifications == old(accessory.notifications)
    {
      this.accessory := accessory;
      this.device := device;
      new;
      ghost var s0 := accessory.services;
      var bp := Blueprint(Dispatch.AlmondSmokeDetector);
      SetAccessoryInformation(accessory, device);
      BindAll(accessory, bp, device.name);
      BlueprintProvides(s0, bp, device.name, 0, SmokeDetected);
      BlueprintProvides(s0, bp, device.name, 0, StatusLowBattery);
    }

    /** `getSmokeDetectedState`, which reads `Status`. */
    function GetSmokeDetectedState(): Value
      reads device
    {
      SmokeLevelOf(device.Prop("Status"))
    }

    /** `getLowBatteryState`, which reads `Battery`. */
    function GetLowBatteryState(): Value
      reads device
    {
      BatteryLevelOf(device.Prop("Battery"))
    }

    /** The change listener: `State`, then `LowBattery`. An update pushes what
        the getter would return if the getter read the property the listener watches. */
    method OnValueUpdated(property: Devices.PropertyId, value: Value)
      requires Valid()
      modifies accessory`notifications
      ensures Valid()
      ensures accessory.notifications == old(accessory.notifications) +
        (if device.IsProp(property, "State") then [Notification(SmokeSensor, SmokeDetected, SmokeLevelOf(value))]
         else if device.IsProp(property, "LowBattery")
         then [Notification(SmokeSensor, StatusLowBattery, BatteryLevelOf(value))]
         else [])
    {
      var ok;
      if device.IsProp(property, "State") {
        ok := accessory.UpdateValue(SmokeSensor, SmokeDetected, SmokeLevelOf(value));
      } else if device.IsProp(property, "LowBattery") {
        ok := accessory.UpdateValue(SmokeSensor, StatusLowBattery, BatteryLevelOf(value));
      }
    }
  }
}
