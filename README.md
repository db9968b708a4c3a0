# homebridge-almond, modelled in Dafny

This project models the homebridge-almond platform plugin (`index.js`).

The plugin connects the devices of an Almond+ hub to HomeKit. It has two layers.

- **The platform.** It keeps a cache of accessories keyed by UUID. The host fills the cache with restored accessories. The plugin builds one accessory class per hub device on top of those, registers new ones with the host, and removes, refreshes and prunes entries by scanning the cache in insertion order.
- **The accessory classes.** There is one class for each kind of device. Each binds HomeKit services and characteristics to the device's properties:
  - getters read a hub property and translate it;
  - setters write a hub property;
  - a change listener pushes hub changes to HomeKit.

The model covers both layers:

| file | module | what it holds |
|---|---|---|
| `js_values.dfy` | `JsValues` | The JavaScript values the handlers see (`undefined`, booleans, numbers as exact reals, `NaN`, strings). It defines the coercions the source relies on: `Number(v)`, loose `==`, `>`, `<=`, truthiness, property-key lookup, `+` and `Math.round`/`toFixed(1)`. |
| `homekit.dfy` | `HomeKit` | The host's object model as the plugin uses it: a platform accessory with its services as values, the information it reports, and a log of pushed values (`updateValue`). The HomeKit enumeration constants are the numeric values of the HomeKit Accessory Protocol. |
| `devices.dfy` | `Devices` | A hub device: identity, `props` (symbolic name to property id), last-known values and a log of `setProp` writes. |
| `dispatch.dfy` | `Dispatch` | `getConfigFlag` and the decision table of `buildAlmondAccessory`. |
| `binding.dfy` | `Binding` | `acquireService` / `acquireCharacteristic` (get-or-create), each class's binding "blueprint", and `setAccessoryInformation`. |
| `restore.dfy` | `RestoreLevel` | The restore-on-toggle level cell of the dimmer and the fan. |
| `lights.dfy` | `Lights` | `AlmondMultilevelSwitch` and `AlmondMultilevelSwitchOnOff`, including the 0-255 to 0-100 rescaling. |
| `thermostat.dfy` | `Thermostats` | `AlmondThermostat`: mode tables, unit conversion, and target-temperature routing. |
| `sensors.dfy` | `Sensors` | `AlmondContactSwitch`, `AlmondFireSensor`, `AlmondSmokeDetector`. |
| `garage.dfy` | `Garage` | `AlmondGarageDoorOpener`. |
| `fan.dfy` | `Fans` | `AlmondGenericPsmFan`. |
| `switches.dfy` | `Switches` | `AlmondBinarySwitch`, `AlmondOutlet`, `AlmondClick`. |
| `platform.dfy` | `Platform` | `AlmondPlatform`: the cache, `configureAccessory`, `addAccessory`, `removeAccessory`, `updateAccessory`, `_pruneAccessories`. |

State that the source changes in place is held in classes:
- the platform's cache and registration log;
- each accessory class's cached level;
- each host accessory's services, information and pushed values;
- each device's write log.

The tables, conversions and routing rules are pure functions, and lemmas relate them.

A handler that throws in JavaScript is modelled explicitly:
- A call on a service or characteristic the accessory lacks is `ok == false` with nothing pushed.
- `toFixed` on a value that is not a number gives `None`.
- Dereferencing `undefined` in the platform is `ok == false` with the cache unchanged.

Several behaviours of the code are kept as written:
- **Outlet update.** `AlmondOutlet.updateState` looks up the Switch service, not the Outlet service it created. On an accessory built by the plugin the update never reaches HomeKit.
- **Smoke detector properties.** Its getters read `Status` and `Battery`, while its listener watches `State` and `LowBattery`.
- **Thermostat mean.** In "Auto" and "Off" the thermostat's target is `(h + c) / 2`. Setpoints the hub reports as strings are joined by `+`, not added, so "68" and "76" give 3438.
- **Garage door update.** The update uses a strict `switch`: only numeric codes push anything. The getters also accept the codes as text.
- **Re-adding a device.** When a device is added again while its entry is already built, `addAccessory` passes the built object where a host accessory is expected. `setAccessoryInformation` then throws before anything changes.
- **Prune.** `_pruneAccessories` throws at the first restored entry and removes nothing (see Findings).

## Model

| member | source | states |
|---|---|---|
| `JsValues.StringsConcatenate` | index.js:763 | `+` on two digit strings yields their concatenation: it reads as the number whose decimal digits are those of both strings, `a * 10^|b| + b`. |
| `JsValues.DecimalConcat` | index.js:763 | The value of two digit strings written one after the other is `a * 10^|b| + b`. |
| `JsValues.RoundError` | index.js:526 | A fact about JavaScript's `Math.round`, which the dimmer's percentage conversion here applies: the result lies within half a unit of `x`, rounding halves up. |
| `JsValues.RoundIs` | index.js:691 | A fact about JavaScript's `Math.round`, which the Fahrenheit conversion here applies: the result is `k` exactly when `k - 1/2 <= x < k + 1/2`. |
| `JsValues.ToFixed1Error` | index.js:682 | `Number(x.toFixed(1))` lies within a twentieth of `x`. |
| `JsValues.ToFixed1OfTenths` | index.js:682 | `toFixed(1)` leaves a value that already has one decimal unchanged. |
| `JsValues.ConcatRead` | index.js:763 | A digit string reads as its decimal value under `Number`. |
| `JsValues.AllDigitsConcat` | index.js:763 | Joining two digit strings gives a digit string. |
| `HomeKit.FindServiceSpec` | index.js:249 | `getService(kind)` finds the first service of that kind, and nothing when no service has that kind. |
| `HomeKit.FindServiceAt` | index.js:249 | A service of the kind with none of that kind before it is the one `getService(kind)` finds. |
| `HomeKit.Accessory.constructor` | index.js:152 | `new Accessory(name, uuid)` has that name and UUID, no services, no information and nothing pushed. |
| `HomeKit.Accessory.UpdateValue` | index.js:1633-1635 | `getService(kind).getCharacteristic(ch).updateValue(v)` pushes `v` exactly when the accessory has that characteristic. Otherwise it throws and pushes nothing. |
| `HomeKit.RequiredProvided` | index.js:1646 | A characteristic that a service kind is created with can be got from any service of that kind. |
| `Devices.Device.GetProp` | index.js:406 | No contract of its own: `getProp(id)` is the last-known value, and `undefined` for a missing id or one the device does not have. |
| `Devices.Device.SetProp` | index.js:431 | `setProp(props[name], v)` appends exactly one write, with the id `props[name]` (`undefined` when absent) and the value as given. The device's values are unchanged until the hub confirms. |
| `Dispatch.GetConfigFlag` | index.js:72-78 | The result is defined only when the configuration has a `devices` entry for the id that holds the flag. It is then that flag's value. |
| `Dispatch.BuildKind` | index.js:80-132 | Binary switches and unknown on/off modules become an Outlet iff `setupAs` is exactly "outlet", and a BinarySwitch otherwise. GenericPSM becomes a fan only for manufacturer "GE" with model "Unknown: type=4944,". An unlisted type becomes a BinarySwitch iff `SwitchBinary` is present. There is no class exactly in the last two failing cases. |
| `Dispatch.DedicatedTypes` | index.js:83-112 | Every type with a case of its own gets its class whatever the manufacturer, model, flags and props. |
| `Binding.AcquireServiceInSpec` | index.js:248-255 | An existing service of the kind is returned and nothing is added. Otherwise exactly one service, with its required characteristics, is appended and returned. |
| `Binding.AcquireCharacteristicInSpec` | index.js:257-264 | Afterwards the characteristics are the old ones plus `ch`, with at most one added. |
| `Binding.AcquireServiceIdempotent` | index.js:248-255 | Acquiring a service twice, under any names, returns the same service and adds it once. |
| `Binding.AcquireCharacteristicIdempotent` | index.js:257-264 | Acquiring a characteristic twice adds it once. |
| `Binding.AcquireKeepsDistinct` | index.js:248-264 | Acquisition never duplicates a service kind or a characteristic. |
| `Binding.AcquireAllContents` | index.js:257-264 | Acquiring a list of characteristics leaves exactly the old ones plus the list. It changes nothing when all are present. |
| `Binding.GrowsTransitive` | index.js:248-264 | Acquisition steps compose: each only appends services or adds characteristics. |
| `Binding.GrowsKeepsFind` | index.js:249 | Growing the services never changes which service `getService` finds for a kind already present. |
| `Binding.GrowsKeepsSatisfies` | index.js:248-264 | A binding that holds keeps holding as the services grow. |
| `Binding.ApplyBindingEffect` | index.js:248-264 | One constructor binding only adds, keeps services well formed and kinds distinct, and holds afterwards. |
| `Binding.SatisfiedBindingUnchanged` | index.js:248-264 | A binding that already holds changes nothing. |
| `Binding.ApplyBlueprintEffect` | index.js:248-264 | A class's whole binding only adds, and every one of its bindings holds afterwards. |
| `Binding.SatisfiedBlueprintUnchanged` | index.js:248-264 | A whole binding that already holds changes nothing. |
| `Binding.BindTwiceAddsNothing` | index.js:142-152 | Building a class again on an accessory already bound by it, under any device name, adds no service or characteristic. |
| `Binding.BlueprintProvides` | index.js:248-264 | After binding, every characteristic a constructor acquires or gets can be got. |
| `Binding.AcquireService` | index.js:248-255 | The accessory's services and the returned position are exactly those of `AcquireServiceIn`, and the accessory stays well formed. |
| `Binding.AcquireCharacteristic` | index.js:257-264 | The service at the position gets its characteristics per `AcquireCharacteristicIn`, and no other service changes. |
| `Binding.AcquireCharacteristics` | index.js:257-264 | The service at the position gets every listed characteristic in order, as `AcquireAll` describes, and no other service changes. |
| `Binding.Bind` | index.js:248-264 | One constructor binding on the accessory: the services become exactly `ApplyBinding` of the old ones. |
| `Binding.BindAll` | index.js:248-264 | A constructor's bindings in order: the services become exactly `ApplyBlueprint` of the old ones, and the accessory stays well formed. |
| `Binding.SetAccessoryInformation` | index.js:241-246 | The information service reports the device's manufacturer, model and "name [id]" serial number. Services and pushes are unchanged. |
| `Binding.InformationOf` | index.js:241-246 | No contract of its own: the manufacturer, the model and the serial number "name [id]". `SetAccessoryInformation` states that this is what the accessory reports. |
| `RestoreLevel.Observe` | index.js:416-419 | The cell takes an observed level exactly when it is in (0, 100], so a cell in range stays in range. |
| `RestoreLevel.ReplayInRange` | index.js:371-372 | Starting from 100, the cached level lies in (0, 100] after any run of toggles, level sets and reports. |
| `RestoreLevel.ReplayAppend` | index.js:414-463 | Each further event updates the cell through `Observe`. |
| `RestoreLevel.ReplayIsLastInRange` | index.js:414-463 | The cell holds the last in-range level observed, or 100 when there was none. |
| `RestoreLevel.TurnOnKeepsLevel` | index.js:414-435 | Switching on a device already at a level in (0, 100] writes that same level. |
| `RestoreLevel.OffThenOnRestores` | index.js:414-435 | Switching off writes 0. Once the device reports 0, switching on writes the level it had before. |
| `RestoreLevel.DefaultRestored` | index.js:371-372 | With no in-range level ever observed, switching on writes 100. |
| `RestoreLevel.NoneInRange` | index.js:414-463 | With no in-range level observed, the last in-range level is the fallback. |
| `Lights.PercentInRange` | index.js:526 | A device level in [0, 255] reads as a percentage in [0, 100]. |
| `Lights.PercentFromDeviceExact` | index.js:526 | On whole device levels `round(d / 255 * 100)` equals `(200 d + 255) div 510`. |
| `Lights.DeviceFromPercentExact` | index.js:536 | On whole percentages `round(p / 100 * 255)` equals `(510 p + 100) div 200`. |
| `Lights.PercentRoundTrip` | index.js:526-536 | Every whole percentage in 0..100, written and read back, is the same percentage. |
| `Lights.DeviceRoundTrip` | index.js:526-536 | Every whole device level in 0..255, read as a percentage and written back, differs by at most 1 and stays in 0..255. |
| `Lights.PercentFromDevice` | index.js:524-531 | No contract of its own: `Math.round(d / 255 * 100)`. `PercentInRange`, `PercentFromDeviceExact` and the two round-trip lemmas state its meaning. |
| `Lights.DeviceFromPercent` | index.js:533-537 | No contract of its own: `Math.round(p / 100 * 255)`. `DeviceFromPercentExact` and the two round-trip lemmas state its meaning. |
| `Lights.AlmondMultilevelSwitch.constructor` | index.js:367-403 | The cell starts at 100. The accessory gets its information and the Lightbulb binding with Brightness. Nothing is pushed. |
| `Lights.AlmondMultilevelSwitch.GetState` | index.js:405-412 | No contract of its own: on exactly when the level is `> 0`. `UpdateSwitchMultilevel` pushes On on the same condition. |
| `Lights.AlmondMultilevelSwitch.GetBrightness` | index.js:437-443 | No contract of its own: the level as the device reports it, which is also what `UpdateSwitchMultilevel` pushes. |
| `Lights.AlmondMultilevelSwitch.SetState` | index.js:414-435 | The cell observes the current level, and the write is the cell's level when switching on and 0 when switching off. |
| `Lights.AlmondMultilevelSwitch.SetBrightness` | index.js:445-453 | The cell observes the new level, and the level is written as given. |
| `Lights.AlmondMultilevelSwitch.UpdateSwitchMultilevel` | index.js:455-469 | A reported 0 pushes On=false. An in-range level is remembered and pushed with On=true. Anything else is ignored. |
| `Lights.AlmondMultilevelSwitch.OnValueUpdated` | index.js:389-394 | Only a `SwitchMultilevel` change reaches the update. Other properties change nothing. |
| `Lights.AlmondMultilevelSwitchOnOff.constructor` | index.js:473-508 | The accessory gets its information and the Lightbulb binding with Brightness. |
| `Lights.AlmondMultilevelSwitchOnOff.GetState` | index.js:510-516 | No contract of its own: the `SwitchBinary` value as reported. |
| `Lights.AlmondMultilevelSwitchOnOff.GetBrightness` | index.js:524-531 | No contract of its own: the level through `PercentFromDevice`. `UpdateSwitchMultilevel`'s contract states that the update pushes this same value. |
| `Lights.AlmondMultilevelSwitchOnOff.SetState` | index.js:518-522 | Writes the state to `SwitchBinary` as given. |
| `Lights.AlmondMultilevelSwitchOnOff.SetBrightness` | index.js:533-537 | Writes the percentage rescaled to 0-255 to `SwitchMultilevel`. |
| `Lights.AlmondMultilevelSwitchOnOff.UpdateSwitchBinary` | index.js:539-545 | Pushes the reported state to On. |
| `Lights.AlmondMultilevelSwitchOnOff.UpdateSwitchMultilevel` | index.js:547-563 | Pushes the level as a percentage to Brightness, the same value `getBrightness` returns. |
| `Lights.AlmondMultilevelSwitchOnOff.OnValueUpdated` | index.js:497-505 | `SwitchBinary` is tried first, then `SwitchMultilevel`. Any other property pushes nothing. |
| `Thermostats.ModeNamesRoundTrip` | index.js:728-747 | Every HomeKit target mode 0..3, as a number or as text, names a hub mode that maps back to it. |
| `Thermostats.TargetModesRoundTrip` | index.js:728-747 | A hub mode maps to a target mode iff it is one of "Off", "Heat", "Cool", "Auto", and that target mode names it back. |
| `Thermostats.OperatingStateOf` | index.js:697-723 | The operating state has a HomeKit value exactly for "Idle", "Heating" and "Cooling". |
| `Thermostats.TargetModeOf` | index.js:725-738 | No contract of its own. `TargetModesRoundTrip` states its domain and that it inverts `ModeNameOf`. |
| `Thermostats.ModeNameOf` | index.js:740-747 | A HomeKit target mode names a hub mode exactly when it is the key of one of the modes 0..3. `ModeNamesRoundTrip` states that the names map back. |
| `Thermostats.UnitsOf` | index.js:856-867 | The units have a HomeKit display value exactly for "C" and "F". |
| `Thermostats.ToHomekitTemperature` | index.js:676-685 | The conversion throws exactly on a Celsius hub given a value that is not a number. |
| `Thermostats.FahrenheitRoundTrip` | index.js:676-695 | A whole Fahrenheit reading sent to HomeKit and back is unchanged. |
| `Thermostats.CelsiusRoundTrip` | index.js:676-695 | A Celsius reading with one decimal passes both ways unchanged. |
| `Thermostats.HomekitRoundTrip` | index.js:676-695 | A HomeKit temperature sent to a Fahrenheit hub and read back is within 0.33 degrees. |
| `Thermostats.ToAlmondTemperature` | index.js:687-695 | No contract of its own. `FahrenheitRoundTrip`, `CelsiusRoundTrip` and `HomekitRoundTrip` state how it inverts `ToHomekitTemperature`. |
| `Thermostats.TargetSetpoint` | index.js:824-836 | No contract of its own: the heating setpoint in "Heat", the cooling setpoint in "Cool", their `Mean` in "Auto"/"Off", and 0 otherwise. The routing lemmas below state this. |
| `Thermostats.TargetReading` | index.js:824-842 | No contract of its own: the target setpoint converted for HomeKit. The routing lemmas below and `SetThenReadTarget` state its meaning. |
| `Thermostats.Mean` | index.js:831-836 | No contract of its own: `Number(((h + c) / 2).toFixed(1))` with JavaScript `+`. `MeanOfNumbers` and `MeanOfDigitStrings` state both of its behaviours. |
| `Thermostats.HeatIgnoresCooling` | index.js:824-842 | In "Heat" the target reading does not depend on the cooling setpoint. |
| `Thermostats.CoolIgnoresHeating` | index.js:824-842 | In "Cool" the target reading does not depend on the heating setpoint. |
| `Thermostats.OtherModesReadZero` | index.js:824-842 | In a mode other than the four hub modes, the target reads 0 in hub units whatever the setpoints. |
| `Thermostats.MeanOfNumbers` | index.js:831-836 | With numeric setpoints, "Auto"/"Off" read the mean to a twentieth. |
| `Thermostats.MeanOfDigitStrings` | index.js:831-836 | With setpoints "68" and "76" the "mean" is 3438. |
| `Thermostats.FahrenheitScenario` | index.js:676-695 | A Fahrenheit hub in "Heat" at 68 shows 20.0, and a target of 21.5 is written as 71. |
| `Thermostats.SetThenReadTarget` | index.js:824-854 | In "Heat"/"Cool" a set target, once confirmed, reads back within 0.33 (Fahrenheit) or 0.05 (Celsius). |
| `Thermostats.ThresholdUpdateIsTarget` | index.js:932-982 | A threshold update in its own mode pushes, as target, exactly what the target getter reads. Otherwise it pushes nothing when the conversion throws. |
| `Thermostats.ThermostatProvides` | index.js:567-674 | After the thermostat's bindings, every characteristic its handlers update can be got from its service. |
| `Thermostats.AlmondThermostat.constructor` | index.js:567-674 | The accessory gets its information, the Thermostat binding with humidity and both thresholds, and the "<name> Fan" Fan binding. |
| `Thermostats.AlmondThermostat.GetCurrentHeatingCoolingState` | index.js:697-709 | No contract of its own: the operating state through `OperatingStateOf`, the same table `UpdateCurrentHeatingCoolingState` pushes through. |
| `Thermostats.AlmondThermostat.GetTargetHeatingCoolingState` | index.js:725-738 | No contract of its own: the mode through `TargetModeOf`. `TargetModesRoundTrip` relates it to `SetTargetHeatingCoolingState`. |
| `Thermostats.AlmondThermostat.GetCurrentTemperature` | index.js:805-812 | No contract of its own: the temperature through `ToHomekitTemperature`, or nothing when that conversion throws. `UpdateCurrentTemperature` pushes the same value. |
| `Thermostats.AlmondThermostat.GetTargetTemperature` | index.js:824-842 | No contract of its own: `TargetReading` of the mode and both setpoints, or nothing when the conversion throws. `SetThenReadTarget` and `ThresholdUpdateIsTarget` state its meaning. |
| `Thermostats.AlmondThermostat.GetTemperatureDisplayUnits` | index.js:856-867 | No contract of its own: the units through `UnitsOf`, the same table the units update pushes through. |
| `Thermostats.AlmondThermostat.GetCurrentRelativeHumidity` | index.js:893-900 | No contract of its own: `Math.round` of the humidity, the value the humidity update pushes. |
| `Thermostats.AlmondThermostat.GetCoolingThresholdTemperature` | index.js:912-919 | No contract of its own: the cooling setpoint through `ToHomekitTemperature`, or nothing when that conversion throws. It is the value the cooling threshold update pushes. |
| `Thermostats.AlmondThermostat.GetHeatingThresholdTemperature` | index.js:948-955 | No contract of its own: the heating setpoint through `ToHomekitTemperature`, or nothing when that conversion throws. It is the value the heating threshold update pushes. |
| `Thermostats.AlmondThermostat.GetFanMode` | index.js:984-990 | No contract of its own: on exactly when the fan mode is "On Low", the condition `UpdateFanMode` pushes. |
| `Thermostats.AlmondThermostat.ListenerUpdate` | index.js:645-671 | No contract of its own: the pushes of the change listener, one case per property in the listener's order. `OnValueUpdated`'s contract states that the listener pushes exactly these. |
| `Thermostats.AlmondThermostat.SetTargetHeatingCoolingState` | index.js:740-770 | Writes the hub name of the mode. It then pushes the target the new mode reads, or nothing when the conversion throws. |
| `Thermostats.AlmondThermostat.SetTargetTemperature` | index.js:844-854 | Writes the converted temperature only to `SetpointHeating` in "Heat" and only to `SetpointCooling` in "Cool", and nothing in other modes. |
| `Thermostats.AlmondThermostat.SetCoolingThresholdTemperature` | index.js:921-930 | Writes `SetpointCooling` only in "Auto". |
| `Thermostats.AlmondThermostat.SetHeatingThresholdTemperature` | index.js:957-966 | Writes `SetpointHeating` only in "Auto". |
| `Thermostats.AlmondThermostat.SetFanMode` | index.js:992-996 | Writes "On Low" when switched on and "Auto Low" otherwise. |
| `Thermostats.AlmondThermostat.PushTemperature` | index.js:814-822 | Pushes a converted temperature, or nothing when the conversion threw. |
| `Thermostats.AlmondThermostat.UpdateCurrentTemperature` | index.js:814-822 | Pushes the converted current temperature. |
| `Thermostats.AlmondThermostat.UpdateTargetHeatingCoolingState` | index.js:772-803 | Pushes the target for the new mode, then the mode itself. |
| `Thermostats.AlmondThermostat.UpdateCurrentHeatingCoolingState` | index.js:711-723 | Pushes the operating state through the Idle/Heating/Cooling table. |
| `Thermostats.AlmondThermostat.UpdateHeatingThresholdTemperature` | index.js:968-982 | Pushes the threshold, and also the target in "Heat". |
| `Thermostats.AlmondThermostat.UpdateCoolingThresholdTemperature` | index.js:932-946 | Pushes the threshold, and also the target in "Cool". |
| `Thermostats.AlmondThermostat.UpdateFanMode` | index.js:998-1004 | Pushes Fan On = (mode == "On Low"). |
| `Thermostats.AlmondThermostat.UpdateTemperatureDisplayUnits` | index.js:880-891 | Pushes the units through the C/F table. |
| `Thermostats.AlmondThermostat.UpdateCurrentRelativeHumidity` | index.js:902-910 | Pushes the humidity rounded to a whole percent. |
| `Thermostats.AlmondThermostat.OnValueUpdated` | index.js:645-671 | Each of the eight properties reaches its update in the listener's order. Others push nothing. |
| `Sensors.TwoStateIsIdentity` | index.js:1045-1130 | The two-entry tables pass the hub's 0 and 1 through as numbers and give `undefined` for anything else. |
| `Sensors.SmokeLevelOf` | index.js:1292-1319 | Smoke is detected iff the value is `> 0`. |
| `Sensors.BatteryLevelOf` | index.js:1321-1348 | The battery is low iff the value is `<= 20`. |
| `Sensors.ThresholdsSplit` | index.js:1292-1348 | Both thresholds always give a HomeKit state. For numbers they split exactly at `> 0` and `<= 20`, and `undefined` reads as no smoke and normal battery. |
| `Sensors.TwoState` | index.js:1045-1130 | No contract of its own: the two-entry array lookup after `Number(v)`. `TwoStateIsIdentity` states its meaning. |
| `Sensors.AlmondContactSwitch.constructor` | index.js:1008-1043 | The ContactSensor binding with tamper and low battery. |
| `Sensors.AlmondContactSwitch.GetContactState` | index.js:1045-1057 | No contract of its own: `State` through the contact table, the value the `State` update pushes. |
| `Sensors.AlmondContactSwitch.GetTamperState` | index.js:1074-1086 | No contract of its own: `Tamper` through the tamper table. |
| `Sensors.AlmondContactSwitch.GetLowBatteryState` | index.js:1103-1115 | No contract of its own: `LowBattery` through the battery table. |
| `Sensors.AlmondContactSwitch.OnValueUpdated` | index.js:1029-1130 | State, Tamper and LowBattery changes push their table value. Other properties push nothing. |
| `Sensors.AlmondFireSensor.constructor` | index.js:1134-1169 | The SmokeSensor binding with tamper and low battery. |
| `Sensors.AlmondFireSensor.GetSmokeDetectedState` | index.js:1171-1183 | No contract of its own: `State` through the smoke table, the value the `State` update pushes. |
| `Sensors.AlmondFireSensor.GetTamperState` | index.js:1200-1212 | No contract of its own: `Tamper` through the tamper table. |
| `Sensors.AlmondFireSensor.GetLowBatteryState` | index.js:1229-1241 | No contract of its own: `LowBattery` through the battery table. |
| `Sensors.AlmondFireSensor.OnValueUpdated` | index.js:1155-1256 | State, Tamper and LowBattery changes push their table value. |
| `Sensors.AlmondSmokeDetector.constructor` | index.js:1260-1290 | The SmokeSensor binding with low battery. |
| `Sensors.AlmondSmokeDetector.GetSmokeDetectedState` | index.js:1292-1304 | No contract of its own: `Status` through `SmokeLevelOf`, whose contract and `ThresholdsSplit` state its meaning. |
| `Sensors.AlmondSmokeDetector.GetLowBatteryState` | index.js:1321-1333 | No contract of its own: `Battery` through `BatteryLevelOf`, whose contract and `ThresholdsSplit` state its meaning. |
| `Sensors.AlmondSmokeDetector.OnValueUpdated` | index.js:1279-1348 | State and LowBattery changes push the threshold results. |
| `Garage.CurrentDoorStateOf` | index.js:1387-1401 | The door has a current state exactly for the codes 0, 252, 253, 254, 255. |
| `Garage.TargetDoorStateOf` | index.js:1403-1422 | Without a pending target, the target is OPEN or CLOSED. |
| `Garage.DoorCodeFor` | index.js:1424-1432 | Only OPEN and CLOSED have a code to write. |
| `Garage.ObstructionOf` | index.js:1434-1440 | No contract of its own: `code == 253` with loose equality. `StoppedAndClosed` and `UpdateAgreesWithGetters` state its meaning. |
| `Garage.DoorUpdate` | index.js:1442-1481 | No contract of its own: the pushes of each case of the `switch`. `UpdateAgreesWithGetters` and `UpdateOnlyOnNumbers` state its meaning. |
| `Garage.TargetRoundTrip` | index.js:1403-1432 | Setting OPEN or CLOSED writes 255 or 0. Read back, that code gives the same target and the matching finished current state. |
| `Garage.UpdateAgreesWithGetters` | index.js:1387-1481 | Every value an update pushes is what the matching getter returns for that code. |
| `Garage.UpdateOnlyOnNumbers` | index.js:1442-1481 | The update pushes something iff the code is one of the five numbers. The text "253" reads as STOPPED but pushes nothing. |
| `Garage.StoppedAndClosed` | index.js:1387-1440 | 253 is STOPPED with an obstruction, and 0 is CLOSED without one. |
| `Garage.AlmondGarageDoorOpener.constructor` | index.js:1352-1385 | The GarageDoorOpener binding. |
| `Garage.AlmondGarageDoorOpener.GetCurrentDoorState` | index.js:1387-1401 | No contract of its own: the code through `CurrentDoorStateOf`. `UpdateAgreesWithGetters` states that updates push this value. |
| `Garage.AlmondGarageDoorOpener.GetTargetDoorState` | index.js:1403-1422 | No contract of its own: `TargetDoorStateOf` of the pending target and the code. `TargetRoundTrip` relates it to `SetTargetDoorState`. |
| `Garage.AlmondGarageDoorOpener.GetObstructionDetected` | index.js:1434-1440 | No contract of its own: `ObstructionOf` the code. `UpdateAgreesWithGetters` states that updates push this value. |
| `Garage.AlmondGarageDoorOpener.SetTargetDoorState` | index.js:1424-1432 | Writes the code for the target, or `undefined`. |
| `Garage.AlmondGarageDoorOpener.UpdateGarageDoorState` | index.js:1442-1481 | Pushes the case's values in the source's order. |
| `Garage.AlmondGarageDoorOpener.OnValueUpdated` | index.js:1377-1382 | Only `BarrierOperator` changes reach the update. |
| `Fans.AlmondGenericPsmFan.constructor` | index.js:1485-1521 | The speed cell starts at 100, with the Fan binding with RotationSpeed. |
| `Fans.AlmondGenericPsmFan.GetState` | index.js:1523-1530 | No contract of its own: on exactly when the speed is `> 0`, the condition under which `UpdateGenericPsmFan` pushes On=true. |
| `Fans.AlmondGenericPsmFan.GetRotationSpeed` | index.js:1555-1561 | No contract of its own: the speed as reported, which is what `UpdateGenericPsmFan` pushes. |
| `Fans.AlmondGenericPsmFan.SetState` | index.js:1532-1553 | The cell observes the current speed, and the write is the cell's speed on and 0 off. |
| `Fans.AlmondGenericPsmFan.SetRotationSpeed` | index.js:1563-1571 | The cell observes the new speed, and the speed is written as given. |
| `Fans.AlmondGenericPsmFan.UpdateGenericPsmFan` | index.js:1573-1587 | A reported 0 pushes On=false, and an in-range speed is remembered and pushed with On=true. |
| `Fans.AlmondGenericPsmFan.OnValueUpdated` | index.js:1513-1518 | Only `SwitchMultilevel` changes reach the update. |
| `Switches.AlmondBinarySwitch.constructor` | index.js:1591-1614 | The Switch binding. |
| `Switches.AlmondBinarySwitch.GetState` | index.js:1616-1622 | No contract of its own: the `SwitchBinary` value as reported, which is what `OnValueUpdated` pushes. |
| `Switches.AlmondBinarySwitch.SetState` | index.js:1624-1628 | Writes the state as given. |
| `Switches.AlmondBinarySwitch.OnValueUpdated` | index.js:1606-1636 | A `SwitchBinary` change is pushed to On. |
| `Switches.FreshOutletPushesNothing` | index.js:1640-1692 | An outlet built on a new accessory has no Switch service, so its update pushes nothing. |
| `Switches.OutletUpdate` | index.js:1684-1692 | No contract of its own: what `updateState` pushes through the Switch service as far as its lookups succeed. `UpdateState` and `FreshOutletPushesNothing` state its consequences. |
| `Switches.AlmondOutlet.constructor` | index.js:1640-1668 | The Outlet binding. |
| `Switches.AlmondOutlet.GetState` | index.js:1670-1676 | No contract of its own: the `SwitchBinary` value as reported. |
| `Switches.AlmondOutlet.GetUsageState` | index.js:1694-1700 | No contract of its own: the same `SwitchBinary` value as `GetState`. |
| `Switches.AlmondOutlet.SetState` | index.js:1678-1682 | Writes the state as given. |
| `Switches.AlmondOutlet.UpdateState` | index.js:1684-1692 | Pushes through the Switch service: nothing without one, and On then OutletInUse as far as the lookups succeed. |
| `Switches.AlmondOutlet.OnValueUpdated` | index.js:1660-1665 | Only `SwitchBinary` changes reach the update. |
| `Switches.PressEventOf` | index.js:1725-1737 | A press has an event exactly for the codes 3, 0 and 2: code 3 is a single press, 0 a double press and 2 a long press, as a number or as its text. |
| `Switches.PressEventsDistinct` | index.js:1730-1746 | 3, 0 and 2 give single, double and long press, "3" also gives single press, and 1 gives none. |
| `Switches.AlmondClick.constructor` | index.js:1704-1723 | The StatelessProgrammableSwitch binding. |
| `Switches.AlmondClick.GetPress` | index.js:1725-1737 | No contract of its own: the press through `PressEventOf`, whose contract states its domain. It is the event `OnValueUpdated` pushes. |
| `Switches.AlmondClick.OnValueUpdated` | index.js:1715-1751 | A `Press` change pushes its event. |
| `Platform.UuidOfInjective` | index.js:147 | Different device ids give different UUIDs. |
| `Platform.UuidOf` | index.js:147 | No contract of its own: the UUID seed "AlmondDevice: id". `UuidOfInjective` states that it tells devices apart. |
| `Platform.FirstMatchFrom` | index.js:171-191 | The scan's result, when there is one, is a position in the cache order. |
| `Platform.FirstMatch` | index.js:171-191 | The first matching position, when there is one, is a position in the cache order. |
| `Platform.FirstMatchFromIsFirst` | index.js:171-191 | The scan finds a matching entry with no match before it, or finds nothing when nothing matches. |
| `Platform.KeepBuiltContents` | index.js:207-221 | Keeping the built keys keeps exactly those, each once. |
| `Platform.UnregisterStaleContents` | index.js:207-221 | The stale pass unregisters exactly the restored accessories, and every key is either kept or unregistered. |
| `Platform.RemoveAtDistinct` | index.js:177 | Deleting one key keeps the order free of repeats and holds every other key. |
| `Platform.StaleSnoc` | index.js:207-221 | One more key adds at most one kept key or one unregistration. |
| `Platform.StoreKeepsConsistent` | index.js:168 | Storing an entry under its host's UUID keeps the cache's shape. |
| `Platform.DeleteKeepsConsistent` | index.js:177 | Deleting an entry keeps the cache's shape. |
| `Platform.PrunedStep` | index.js:207-221 | Visiting one more key removes it from the cache exactly when its entry is restored. |
| `Platform.PrunedDone` | index.js:207-221 | Once every key is visited, exactly the built entries remain, unchanged. |
| `Platform.StalePass` | index.js:207-221 | The loop over the keys in order yields the kept keys, the remaining entries and the unregistrations the stale pass describes. |
| `Platform.KeepBuiltConsistent` | index.js:207-221 | Dropping the restored entries keeps the cache's shape. |
| `Platform.BuildLevel` | index.js:84-111 | Builds a dimmer or fan class: the accessory gets that class's information and binding. |
| `Platform.BuildSensor` | index.js:93-98 | Builds the contact or fire sensor class. |
| `Platform.BuildSmoke` | index.js:99-101 | Builds the smoke detector class. |
| `Platform.BuildClick` | index.js:110-112 | Builds the Click class. |
| `Platform.BuildSwitch` | index.js:113-127 | Builds the binary switch or outlet class. |
| `Platform.BuildOther` | index.js:90-104 | Builds the thermostat or garage door class. |
| `Platform.BuildFresh` | index.js:151-158 | A new accessory, named after the device and keyed by the given UUID, with the chosen class built on it. It reports the device's information, carries exactly the class's binding, and has pushed nothing. |
| `Platform.Build` | index.js:80-132 | The built object is of the chosen class, for this device and accessory. The accessory gets the device's information and the class's binding. Nothing is pushed. |
| `Platform.AlmondPlatform.Skipped` | index.js:137-145 | No contract of its own: the `skip` flag is truthy or the device has no `props`. `AddAccessory` states that nothing changes then. |
| `Platform.AlmondPlatform.KindFor` | index.js:80-132 | No contract of its own: `BuildKind` of the device's type, manufacturer, model, `setupAs` flag and `SwitchBinary` property. `BuildKind`'s contract states the decisions. |
| `Platform.AlmondPlatform.constructor` | index.js:20-29 | The cache and the registration log start empty. |
| `Platform.AlmondPlatform.ConfigureAccessory` | index.js:194-198 | The restored accessory is cached under its UUID, and a new key goes last in order. |
| `Platform.AlmondPlatform.FindMatch` | index.js:171-191 | The loop returns the first matching position in insertion order. |
| `Platform.AlmondPlatform.AddAccessory` | index.js:134-169 | A skipped device, one without `props`, or one without a class leaves the cache and registrations unchanged. Otherwise the key gets a built entry of the chosen class for this device, no other entry changes, and registration happens iff the key was new. The binding goes onto the restored accessory or a fresh one named after the device. When the key is already built the call throws and nothing changes. The host accessories under other keys are untouched, and no host changes at all when nothing is built. When something is built, its host reports the device's information (manufacturer, model, "name [id]"), and its pushes are those of the restored accessory, or none for a fresh one. |
| `Platform.AlmondPlatform.Install` | index.js:145-168 | The build-and-store half of `addAccessory`, with its exact effect on cache, order and registrations. The built host reports the device's information and keeps the restored accessory's pushes, or has none when fresh. The host accessories under other keys are untouched. |
| `Platform.AlmondPlatform.InstallRestored` | index.js:145-168 | On a restored key: the restored accessory gets the class's binding and the key now holds the built entry. The accessory now reports the device's information and keeps the pushes it had. Order, registrations and the host accessories under other keys stay as they were. |
| `Platform.AlmondPlatform.InstallFresh` | index.js:145-168 | On a new key: a fresh accessory named after the device gets the class's binding, the key goes last in order, and the accessory is registered. The new accessory reports the device's information and has pushed nothing. Every host accessory already cached is untouched. |
| `Platform.AlmondPlatform.RemoveAccessory` | index.js:171-181 | Nothing changes when nothing matches. Otherwise exactly the first matching entry is deleted and its accessory unregistered. If that entry is a restored one, the call throws and nothing changes. |
| `Platform.AlmondPlatform.UpdateAccessory` | index.js:183-192 | The cache, order and registrations are unchanged. Only the first built entry for the device gets new information, and every other host accessory is untouched. |
| `Platform.AlmondPlatform.PruneAccessories` | index.js:207-221 | As written: nothing changes, and the call throws iff some restored entry remains. |
| `Platform.AlmondPlatform.PruneStale` | index.js:207-221 | As intended: exactly the restored entries are deleted and unregistered in order. Built entries stay as they are. |

## Left out

- Logging (`this.log`, `logGet`/`logSet`/`logUpdate`) is output only.
- The platform constructor's subscriptions to the hub client's events (connected, device added, removed and updated, ready) are host wiring. The operations they call are modelled.
- The `registerPlatformAccessories` and `unregisterPlatformAccessories` host calls are entries in a log.
- `identify` and `observeDevice` are not modelled: the first only logs and calls back, and the second is empty.
- Reachability (`updateReachabilityAll`, `updateReachability`) is a host call with no state the plugin reads.
- `getDeviceTypes` inverts a table of the hub client that is not part of this model. Device types are a datatype of the types the plugin distinguishes, plus any other type.
- `addBatteryService` and its battery getters and updates are never called.
- `UUIDGen.generate` is modelled as the text it is given. Its injectivity is assumed, as for any UUID generator.
- HomeKit enumeration values come from the HomeKit Accessory Protocol, which is not part of this model.
- IEEE floating point is replaced by exact reals, and `Infinity` and `-0` are not modelled.
- JsValues.ToNumber: reads only the empty string and plain digit strings. Signs, fractions, exponents, hexadecimal and surrounding whitespace in strings read as NaN here.
- JsValues.Plus: a string joined with a number that has a fractional part gives NaN, because the model does not write out the decimal text of non-integers.
- Callback ordering in the set handlers (`callback(null)` before the write) is an asynchronous acknowledgement.
- `setTemperatureDisplayUnits` has its write commented out: it does nothing.
- The `_cachedBrightness === undefined` and `_cachedSpeed === undefined` branches of `setState` are unreachable, since the cell starts at 100 and only takes defined levels. The fan's `==` there in place of `=` is therefore never observed.
- A handler reading `device.props.X` when `props` is undefined is unreachable: `addAccessory` builds nothing for such a device.
- `getCharacteristic` on a missing characteristic is taken to give `undefined`, as `acquireCharacteristic`'s own test assumes. A following `updateValue` then throws, which is modelled as nothing pushed.
- The commented-out `Almondx` class is not modelled.
- Platform.AlmondPlatform.PruneStale: the corrected pass walks a snapshot of the keys and stores the resulting cache at the end, instead of deleting entries one at a time while iterating. The final cache, order and registrations are the same.
- Platform.AlmondPlatform.ConfigureAccessory: requires the restored accessory's services to be well formed, which the host guarantees when it restores them.

## Findings

| source | as written | input that shows it | evidently intended | confidence | as-written member | corrected member |
|---|---|---|---|---|---|---|
| index.js:207-221, index.js:171-176 | `_pruneAccessories` calls `removeAccessory(accessory.device)` for each restored entry. A restored accessory has no `device`, so this is `removeAccessory(undefined)`. That call matches the first restored entry and reads `.accessory.displayName` of it, which is `undefined`, so it throws. | A restored accessory whose device is no longer on the hub: prune throws and the stale accessory stays registered and cached. Prune runs inside the hub client's `ready` handler (index.js:32-40), so the throw also skips the `connected`, `disconnected`, `deviceAdded`, `deviceRemoved` and `deviceUpdated` subscriptions that follow it. The platform then never hears of later hub changes. | Every restored entry that no device claimed is unregistered and deleted, and every built entry stays. | high, not executed | `Platform.AlmondPlatform.PruneAccessories` | `Platform.AlmondPlatform.PruneStale` |
