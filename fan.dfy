/** `AlmondGenericPsmFan`: the GE fan controller, a level in 0-100 on the
    `SwitchMultilevel` property with the same restore-on-toggle cell as the
    dimmer, here called `_cachedSpeed`. */
module Fans {
  import opened JsValues
  import opened HomeKit
  import opened Binding
  import opened RestoreLevel
  import Devices
  import Dispatch

  class AlmondGenericPsmFan {
    const accessory: Accessory
    const device: Devices.Device
    /** `_cachedSpeed`. */
    var cachedSpeed: Value

    ghost predicate Valid()
      reads this, accessory
    {
      InLevelRange(cachedSpeed) && accessory.Valid() &&
      accessory.Has(Fan, On) && accessory.Has(Fan, RotationSpeed)
    }

    constructor (accessory: Accessory, device: Devices.Device)
      requires accessory.Valid()
      modifies accessory
      ensures Valid() && this.accessory == accessory && this.device == device
      ensures cachedSpeed == DefaultLevel
      ensures accessory.information == Some(InformationOf(device))
      ensures accessory.services ==
        ApplyBlueprint(old(accessory.services), Blueprint(Dispatch.AlmondGenericPsmFan), device.name)
      ensures accessory.notifications == old(accessory.notifications)
    {
      this.accessory := accessory;
      this.device := device;
      cachedSpeed := DefaultLevel;
      new;
      ghost var s0 := accessory.services;
      var bp := Blueprint(Dispatch.AlmondGenericPsmFan);
      SetAccessoryInformation(accessory, device);
      BindAll(accessory, bp, device.name);
      BlueprintProvides(s0, bp, device.name, 0, On);
      BlueprintProvides(s0, bp, device.name, 0, RotationSpeed);
    }

    /** `getState`: on when the speed is above 0. */
    function GetState(): Value
      reads device
    {
      Bool(Greater(device.Prop("SwitchMultilevel"), 0.0))
    }

    /** `getRotationSpeed`: the speed as the device reports it. */
    function GetRotationSpeed(): Value
      reads device
    {
      device.Prop("SwitchMultilevel")
    }

    /** `setState`: remembers the current speed when it is in (0, 100], then
        writes the remembered speed to switch on, or 0 to switch off. */
    method SetState(state: Value)
      requires Valid()
      modifies this`cachedSpeed, device`writes
      ensures Valid()
      ensures cachedSpeed == Observe(old(cachedSpeed), device.Prop("SwitchMultilevel"))
      ensures device.writes ==
        old(device.writes) + [Devices.Write(device.PropId("SwitchMultilevel"), LevelToWrite(cachedSpeed, state))]
    {
      var oldSpeed := device.Prop("SwitchMultilevel");
      if Greater(oldSpeed, 0.0) && AtMost(oldSpeed, 100.0) {
        cachedSpeed := oldSpeed;
      }
      var newSpeed;
      if Truthy(state) {
        newSpeed := cachedSpeed;
      } else {
        newSpeed := Num(0.0);
      }
      device.SetProp("SwitchMultilevel", newSpeed);
    }

    /** `setRotationSpeed`: remembers a speed in (0, 100] and writes the speed as given. */
    method SetRotationSpeed(speed: Value)
      requires Valid()
      modifies this`cachedSpeed, device`writes
      ensures Valid()
      ensures cachedSpeed == Observe(old(cachedSpeed), speed)
      ensures device.writes == old(device.writes) + [Devices.Write(device.PropId("SwitchMultilevel"), speed)]
    {
      if Greater(speed, 0.0) && AtMost(speed, 100.0) {
        cachedSpeed := speed;
      }
      device.SetProp("SwitchMultilevel", speed);
    }

    /** `updateGenericPsmFan`: a reported 0 turns the fan off in HomeKit; a
        speed in (0, 100] is remembered and pushed with On; anything else is ignored. */
    method UpdateGenericPsmFan(speed: Value)
      requires Valid()
      modifies this`cachedSpeed, accessory`notifications
      ensures Valid()
      ensures cachedSpeed == Observe(old(cachedSpeed), speed)
      ensures accessory.notifications == old(accessory.notifications) + LevelReport(Fan, RotationSpeed, speed)
    {
      var ok;
      if LooselyEquals(speed, 0.0) {
        ok := accessory.UpdateValue(Fan, On, Bool(false));
      } else if Greater(speed, 0.0) && AtMost(speed, 100.0) {
        cachedSpeed := speed;
        ok := accessory.UpdateValue(Fan, RotationSpeed, speed);
        ok := accessory.UpdateValue(Fan, On, Bool(true));
      }
    }

    /** The change listener: only the level property is handled. */
    method OnValueUpdated(property: Devices.PropertyId, value: Value)
      requires Valid()
      modifies this`cachedSpeed, accessory`notifications
      ensures Valid()
      ensures device.IsProp(property, "SwitchMultilevel") ==>
        cachedSpeed == Observe(old(cachedSpeed), value) &&
        accessory.notifications == old(accessory.notifications) + LevelReport(Fan, RotationSpeed, value)
      ensures !device.IsProp(property, "SwitchMultilevel") ==>
        cachedSpeed == old(cachedSpeed) && accessory.notifications == old(accessory.notifications)
    {
      if device.IsProp(property, "SwitchMultilevel") {
        UpdateGenericPsmFan(value);
      }
    }
  }
}
