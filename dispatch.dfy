/** Which accessory class the platform builds for a device: a decision on
    the device type, refined by manufacturer and model for the GE fan
    controller and by the user's `setupAs` flag for on/off modules, with a
    plain switch as the fallback for unlisted types that have a binary switch. */
module Dispatch {
  import opened JsValues
  import Devices

  /** The accessory classes of the plugin. */
  datatype Kind =
    | AlmondMultilevelSwitch | AlmondMultilevelSwitchOnOff | AlmondThermostat
    | AlmondContactSwitch | AlmondFireSensor | AlmondSmokeDetector
    | AlmondGarageDoorOpener | AlmondGenericPsmFan | AlmondClick
    | AlmondBinarySwitch | AlmondOutlet

  /** The plugin's `devices` configuration: device id to its flags; None when absent. */
  type Config = Option<map<string, map<string, Value>>>

  /** `getConfigFlag(id, flag)`: the flag of the device's configuration
      entry, `undefined` when there is no configuration, no entry or no flag. */
  function GetConfigFlag(config: Config, id: string, flag: string): (r: Value)
    ensures r != Undefined ==> config.Some? && id in config.value && flag in config.value[id]
    ensures config.Some? && id in config.value && flag in config.value[id] ==> r == config.value[id][flag]
  {
    if config.Some? && id in config.value && flag in config.value[id] then config.value[id][flag]
    else Undefined
  }

  predicate IsBinaryType(t: Devices.DeviceType) {
    t == Devices.BinarySwitch || t == Devices.UnknownOnOffModule
  }

  /** The manufacturer and model of the GE continuous fan controller, which
      the hub reports as a generic PSM device. */
  predicate IsGeFan(manufacturer: string, model: string) {
    manufacturer == "GE" && model == "Unknown: type=4944,"
  }

  /** `buildAlmondAccessory`'s choice of class; None when no class applies. */
  function BuildKind(t: Devices.DeviceType, manufacturer: string, model: string,
                     setupAs: Value, hasSwitchBinary: bool): (r: Option<Kind>)
    ensures IsBinaryType(t) ==>
      r == Some(if setupAs == Str("outlet") then AlmondOutlet else AlmondBinarySwitch)
    ensures t == Devices.GenericPSM ==>
      (r.Some? <==> IsGeFan(manufacturer, model)) && (r.Some? ==> r.value == AlmondGenericPsmFan)
    ensures t.OtherType? ==>
      (r.Some? <==> hasSwitchBinary) && (r.Some? ==> r.value == AlmondBinarySwitch)
    ensures r == Some(AlmondOutlet) <==> IsBinaryType(t) && setupAs == Str("outlet")
    ensures r.None? <==>
      (t == Devices.GenericPSM && !IsGeFan(manufacturer, model)) || (t.OtherType? && !hasSwitchBinary)
  {
    match t
    case MultilevelSwitch => Some(AlmondMultilevelSwitch)
    case MultilevelSwitchOnOff => Some(AlmondMultilevelSwitchOnOff)
    case Thermostat => Some(AlmondThermostat)
    case ContactSwitch => Some(AlmondContactSwitch)
    case FireSensor => Some(AlmondFireSensor)
    case SmokeDetector => Some(AlmondSmokeDetector)
    case GarageDoorOpener => Some(AlmondGarageDoorOpener)
    case GenericPSM => if IsGeFan(manufacturer, model) then Some(AlmondGenericPsmFan) else None
    case AlmondClick => Some(AlmondClick)
    case BinarySwitch | UnknownOnOffModule =>
      if setupAs == Str("outlet") then Some(AlmondOutlet) else Some(AlmondBinarySwitch)
    case OtherType(_) => if hasSwitchBinary then Some(AlmondBinarySwitch) else None
  }

  /** The classes with a type of their own are chosen by type alone. */
  lemma DedicatedTypes(t: Devices.DeviceType, manufacturer: string, model: string,
                       setupAs: Value, hasSwitchBinary: bool)
    requires !t.OtherType? && !IsBinaryType(t) && t != Devices.GenericPSM
    ensures BuildKind(t, manufacturer, model, setupAs, hasSwitchBinary)
         == BuildKind(t, "", "", Undefined, false)
    ensures BuildKind(t, manufacturer, model, setupAs, hasSwitchBinary).Some?
  {
  }
}
