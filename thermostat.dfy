/** `AlmondThermostat`: the hub reports temperatures in its own units
    (`Units` is "C" or "F") while HomeKit works in degrees Celsius with one
    decimal; the mode decides which setpoint is the target temperature. */
module Thermostats {
  import opened JsValues
  import opened HomeKit
  import Devices
  import opened Binding
  import Dispatch

  // ---------------------------------------------------------------------
  // Lookup tables

  /** The `states` table of the operating-state getter and update. */
  function OperatingStateOf(state: Value): (r: Value)
    ensures r != Undefined <==> state in {Str("Idle"), Str("Heating"), Str("Cooling")}
  {
    if state == Str("Idle") then Code(CurrentHeatingCoolingOff)
    else if state == Str("Heating") then Code(CurrentHeatingCoolingHeat)
    else if state == Str("Cooling") then Code(CurrentHeatingCoolingCool)
    else Undefined
  }

  /** The `states` table from hub mode names to HomeKit target modes. */
  function TargetModeOf(mode: Value): Value {
    if mode == Str("Off") then Code(TargetHeatingCoolingOff)
    else if mode == Str("Heat") then Code(TargetHeatingCoolingHeat)
    else if mode == Str("Cool") then Code(TargetHeatingCoolingCool)
    else if mode == Str("Auto") then Code(TargetHeatingCoolingAuto)
    else Undefined
  }

  /** The array `setTargetHeatingCoolingState` indexes with a HomeKit target mode. */
  function ModeNameOf(state: Value): (r: Value)
    ensures r != Undefined <==> exists m: nat :: m <= TargetHeatingCoolingAuto && IsKey(state, m)
  {
    if IsKey(state, TargetHeatingCoolingOff) then Str("Off")
    else if IsKey(state, TargetHeatingCoolingHeat) then Str("Heat")
    else if IsKey(state, TargetHeatingCoolingCool) then Str("Cool")
    else if IsKey(state, TargetHeatingCoolingAuto) then Str("Auto")
    else Undefined
  }

  /** The `unitTypes` table from hub units to HomeKit display units. */
  function UnitsOf(units: Value): (r: Value)
    ensures r != Undefined <==> units in {Str("C"), Str("F")}
  {
    if units == Str("C") then Code(DisplayCelsius)
    else if units == Str("F") then Code(DisplayFahrenheit)
    else Undefined
  }

  /** Every HomeKit target mode names a hub mode that maps back to it. */
  lemma {:induction false} ModeNamesRoundTrip(n: nat)
    requires n <= TargetHeatingCoolingAuto
    ensures ModeNameOf(Code(n)) != Undefined
    ensures TargetModeOf(ModeNameOf(Code(n))) == Code(n)
    ensures TargetModeOf(ModeNameOf(Str(NatText(n)))) == Code(n)
  {
  }

  /** Every hub mode HomeKit knows maps to a target mode that names it back;
      any other mode maps to `undefined`. */
  lemma TargetModesRoundTrip(mode: Value)
    ensures TargetModeOf(mode) != Undefined ==> ModeNameOf(TargetModeOf(mode)) == mode
    ensures TargetModeOf(mode) != Undefined <==>
      mode in {Str("Off"), Str("Heat"), Str("Cool"), Str("Auto")}
  {
  }

  // ---------------------------------------------------------------------
  // Temperature conversion

  predicate IsFahrenheit(units: Value) {
    units == Str("F")
  }

  /** `toHomekitTemperature`: from Fahrenheit when the hub's units are "F",
      then `Number(t.toFixed(1))`. None is the TypeError `toFixed` throws on
      a value that is not a number, which only a Celsius hub reaches. */
  function ToHomekitTemperature(units: Value, t: Value): (r: Option<Value>)
    ensures r.None? <==> !IsFahrenheit(units) && !t.Num? && !t.NaN?
  {
    if IsFahrenheit(units) then
      var n := ToNumber(t);
      Some(if n.Some? then Num(ToFixed1((n.value - 32.0) / 1.8)) else NaN)
    else
      match t
      case Num(x) => Some(Num(ToFixed1(x)))
      case NaN => Some(NaN)
      case _ => None
  }

  /** `toAlmondTemperature`: to whole degrees Fahrenheit when the hub's units
      are "F", otherwise the value as given. */
  function ToAlmondTemperature(units: Value, t: Value): Value {
    if IsFahrenheit(units) then
      var n := ToNumber(t);
      MathRound(if n.Some? then Some(n.value * 1.8 + 32.0) else None)
    else t
  }

  /** A whole Fahrenheit reading survives the trip to HomeKit and back. */
  lemma FahrenheitRoundTrip(f: int)
    ensures var h := ToHomekitTemperature(Str("F"), Num(f as real));
            h.Some? && ToAlmondTemperature(Str("F"), h.value) == Num(f as real)
  {
    var c := (f as real - 32.0) / 1.8;
    ToFixed1Error(c);
    var h := ToFixed1(c);
    assert c * 1.8 + 32.0 == f as real;
    assert f as real - 0.09 <= h * 1.8 + 32.0 <= f as real + 0.09;
    RoundIs(h * 1.8 + 32.0, f);
  }

  /** A Celsius reading with one decimal survives the trip to HomeKit and back. */
  lemma CelsiusRoundTrip(units: Value, tenths: int)
    requires !IsFahrenheit(units)
    ensures var t := Num(tenths as real / 10.0);
            ToHomekitTemperature(units, t) == Some(t) && ToAlmondTemperature(units, t) == t
  {
    ToFixed1OfTenths(tenths);
  }

  /** A HomeKit temperature sent to a Fahrenheit hub and read back is off by
      less than a third of a degree: one rounding to whole Fahrenheit, one to tenths. */
  lemma HomekitRoundTrip(c: real)
    ensures var f := ToAlmondTemperature(Str("F"), Num(c));
            var h := ToHomekitTemperature(Str("F"), f);
            f.Num? && h.Some? && h.value.Num? && c - 0.33 <= h.value.x <= c + 0.33
  {
    var y := c * 1.8 + 32.0;
    RoundError(y);
    var f := Round(y) as real;
    var back := (f - 32.0) / 1.8;
    assert back * 1.8 == f - 32.0;
    assert c - 0.28 <= back <= c + 0.28;
    ToFixed1Error(back);
  }

  // ---------------------------------------------------------------------
  // Target temperature routing

  /** `Number(((h + c) / 2).toFixed(1))`, with JavaScript's `+`. */
  function Mean(heating: Value, cooling: Value): Value {
    var n := ToNumber(Plus(heating, cooling));
    if n.Some? then Num(ToFixed1(n.value / 2.0)) else NaN
  }

  /** The setpoint the target temperature is taken from, in hub units: the
      heating setpoint in "Heat", the cooling setpoint in "Cool", their mean in
      "Auto" and "Off", and 0 in any other mode. */
  function TargetSetpoint(mode: Value, heating: Value, cooling: Value): Value {
    if mode == Str("Heat") then heating
    else if mode == Str("Cool") then cooling
    else if mode == Str("Auto") || mode == Str("Off") then Mean(heating, cooling)
    else Num(0.0)
  }

  /** The target temperature HomeKit is given for a mode and the two setpoints. */
  function TargetReading(units: Value, mode: Value, heating: Value, cooling: Value): Option<Value> {
    ToHomekitTemperature(units, TargetSetpoint(mode, heating, cooling))
  }

  /** In "Heat" the target ignores the cooling setpoint. */
  lemma HeatIgnoresCooling(units: Value, h: Value, c: Value, c': Value)
    ensures TargetReading(units, Str("Heat"), h, c) == TargetReading(units, Str("Heat"), h, c')
  {
    assert TargetSetpoint(Str("Heat"), h, c) == h == TargetSetpoint(Str("Heat"), h, c');
  }

  /** In "Cool" the target ignores the heating setpoint. */
  lemma CoolIgnoresHeating(units: Value, h: Value, h': Value, c: Value)
    ensures TargetReading(units, Str("Cool"), h, c) == TargetReading(units, Str("Cool"), h', c)
  {
    assert TargetSetpoint(Str("Cool"), h, c) == c == TargetSetpoint(Str("Cool"), h', c);
  }

  /** In modes other than the four hub modes the target is 0 in hub units
      whatever both setpoints are (which a Fahrenheit hub shows as -17.8). */
  lemma OtherModesReadZero(units: Value, mode: Value, h: Value, c: Value)
    requires mode !in {Str("Heat"), Str("Cool"), Str("Auto"), Str("Off")}
    ensures TargetReading(units, mode, h, c) == ToHomekitTemperature(units, Num(0.0))
  {
    assert TargetSetpoint(mode, h, c) == Num(0.0);
  }

  /** With numeric setpoints, "Auto" and "Off" report their mean to a twentieth. */
  lemma MeanOfNumbers(h: real, c: real)
    ensures Mean(Num(h), Num(c)).Num?
    ensures (h + c) / 2.0 - 0.05 <= Mean(Num(h), Num(c)).x <= (h + c) / 2.0 + 0.05
  {
    ToFixed1Error((h + c) / 2.0);
  }

  /** With setpoints reported as digit strings, `+` joins them: 68 and 76
      give a "mean" of 3438, not 72. */
  lemma MeanOfDigitStrings()
    ensures Mean(Str("68"), Str("76")) == Num(3438.0)
  {
    StringsConcatenate("68", "76");
    assert DecimalValue("68") == 68 by {
      assert "68"[..1] == "6";
      assert DecimalValue("6") == 6 by { assert "6"[..0] == ""; }
    }
    assert DecimalValue("76") == 76 by {
      assert "76"[..1] == "7";
      assert DecimalValue("7") == 7 by { assert "7"[..0] == ""; }
    }
    assert Pow10(2) == 100;
    ToFixed1OfTenths(34380);
    assert 6876.0 / 2.0 == 34380 as real / 10.0;
  }

  /** A Fahrenheit hub in "Heat" at 68 shows a target of 20.0; a target of 21.5
      set from HomeKit is written as 71. */
  lemma FahrenheitScenario(c: Value)
    ensures TargetReading(Str("F"), Str("Heat"), Num(68.0), c) == Some(Num(20.0))
    ensures ToAlmondTemperature(Str("F"), Num(21.5)) == Num(71.0)
  {
    ToFixed1OfTenths(200);
    assert (68.0 - 32.0) / 1.8 == 200 as real / 10.0;
    RoundIs(21.5 * 1.8 + 32.0, 71);
  }

  /** Setting the target in "Heat" or "Cool" writes the setpoint the target
      is read from; once the hub confirms it, the target HomeKit reads is the
      temperature it set, to a third of a degree in Fahrenheit and to a
      twentieth in Celsius. */
  lemma SetThenReadTarget(units: Value, mode: Value, h: Value, c: Value, t: real)
    requires mode == Str("Heat") || mode == Str("Cool")
    ensures var w := ToAlmondTemperature(units, Num(t));
            var r := if mode == Str("Heat") then TargetReading(units, mode, w, c)
                     else TargetReading(units, mode, h, w);
            r.Some? && r.value.Num? &&
            t - (if IsFahrenheit(units) then 0.33 else 0.05) <= r.value.x <=
            t + (if IsFahrenheit(units) then 0.33 else 0.05)
  {
    if IsFahrenheit(units) {
      HomekitRoundTrip(t);
    } else {
      ToFixed1Error(t);
    }
  }

  // ---------------------------------------------------------------------
  // What each update pushes

  /** `updateCurrentTemperature`; nothing when the conversion throws. */
  function CurrentTemperatureUpdate(units: Value, t: Value): seq<Notification> {
    match ToHomekitTemperature(units, t)
    case Some(v) => [Notification(Thermostat, CurrentTemperature, v)]
    case None => []
  }

  /** `updateTargetHeatingCoolingState`: the target temperature for the new
      mode, then the mode; nothing when the conversion throws. */
  function TargetModeUpdate(units: Value, mode: Value, h: Value, c: Value): seq<Notification> {
    match TargetReading(units, mode, h, c)
    case Some(v) =>
      [Notification(Thermostat, TargetTemperature, v),
       Notification(Thermostat, TargetHeatingCoolingState, TargetModeOf(mode))]
    case None => []
  }

  /** `updateHeatingThresholdTemperature` / `updateCoolingThresholdTemperature`:
      the threshold, and also the target when the hub is in the threshold's mode. */
  function ThresholdUpdate(units: Value, mode: Value, t: Value, ch: CharKind, modeName: string): seq<Notification> {
    match ToHomekitTemperature(units, t)
    case Some(v) =>
      [Notification(Thermostat, ch, v)] +
      (if mode == Str(modeName) then [Notification(Thermostat, TargetTemperature, v)] else [])
    case None => []
  }

  /** A threshold update that also pushes the target pushes what the target
      getter reads once the hub holds the new setpoint. */
  lemma ThresholdUpdateIsTarget(units: Value, h: Value, c: Value)
    ensures var u := ThresholdUpdate(units, Str("Heat"), h, HeatingThresholdTemperature, "Heat");
            (|u| == 2 || u == []) &&
            (|u| == 2 ==> Some(u[1].value) == TargetReading(units, Str("Heat"), h, c))
    ensures var u := ThresholdUpdate(units, Str("Cool"), c, CoolingThresholdTemperature, "Cool");
            (|u| == 2 || u == []) &&
            (|u| == 2 ==> Some(u[1].value) == TargetReading(units, Str("Cool"), h, c))
  {
  }

  /** After the thermostat's bindings, every characteristic its handlers use can be got. */
  lemma ThermostatProvides(s: seq<Service>, name: string)
    requires AllWellFormed(s)
    ensures var t := ApplyBlueprint(s, Blueprint(Dispatch.AlmondThermostat), name);
            Provides(t, Thermostat, CurrentHeatingCoolingState) && Provides(t, Thermostat, TargetHeatingCoolingState) &&
            Provides(t, Thermostat, CurrentTemperature) && Provides(t, Thermostat, TargetTemperature) &&
            Provides(t, Thermostat, TemperatureDisplayUnits) && Provides(t, Thermostat, CurrentRelativeHumidity) &&
            Provides(t, Thermostat, CoolingThresholdTemperature) && Provides(t, Thermostat, HeatingThresholdTemperature) &&
            Provides(t, Fan, On)
  {
    var bp := Blueprint(Dispatch.AlmondThermostat);
    BlueprintProvides(s, bp, name, 0, CurrentHeatingCoolingState);
    BlueprintProvides(s, bp, name, 0, TargetHeatingCoolingState);
    BlueprintProvides(s, bp, name, 0, CurrentTemperature);
    BlueprintProvides(s, bp, name, 0, TargetTemperature);
    BlueprintProvides(s, bp, name, 0, TemperatureDisplayUnits);
    BlueprintProvides(s, bp, name, 0, CurrentRelativeHumidity);
    BlueprintProvides(s, bp, name, 0, CoolingThresholdTemperature);
    BlueprintProvides(s, bp, name, 0, HeatingThresholdTemperature);
    BlueprintProvides(s, bp, name, 1, On);
  }

  class AlmondThermostat {
    const accessory: Accessory
    const device: Devices.Device

    ghost predicate Valid()
      reads this, accessory
    {
      accessory.Valid() &&
      accessory.Has(Thermostat, CurrentHeatingCoolingState) &&
      accessory.Has(Thermostat, TargetHeatingCoolingState) &&
      accessory.Has(Thermostat, CurrentTemperature) &&
      accessory.Has(Thermostat, TargetTemperature) &&
      accessory.Has(Thermostat, TemperatureDisplayUnits) &&
      accessory.Has(Thermostat, CurrentRelativeHumidity) &&
      accessory.Has(Thermostat, CoolingThresholdTemperature) &&
      accessory.Has(Thermostat, HeatingThresholdTemperature) &&
      accessory.Has(Fan, On)
    }

    constructor (accessory: Accessory, device: Devices.Device)
      requires accessory.Valid()
      modifies accessory
      ensures Valid() && this.accessory == accessory && this.device == device
      ensures accessory.information == Some(InformationOf(device))
      ensures accessory.services ==
        ApplyBlueprint(old(accessory.services), Blueprint(Dispatch.AlmondThermostat), device.name)
      ensures accessory.notifications == old(accessory.notifications)
    {
      this.accessory := accessory;
      this.device := device;
      new;
      SetAccessoryInformation(accessory, device);
      ghost var s0 := accessory.services;
      var bp := Blueprint(Dispatch.AlmondThermostat);
      BindAll(accessory, bp, device.name);
      ThermostatProvides(s0, device.name);
    }

    function Units(): Value
      reads device
    {
      device.Prop("Units")
    }

    /** `getCurrentHeatingCoolingState`. */
    function GetCurrentHeatingCoolingState(): Value
      reads device
    {
      OperatingStateOf(device.Prop("OperatingState"))
    }

    /** `getTargetHeatingCoolingState`. */
    function GetTargetHeatingCoolingState(): Value
      reads device
    {
      TargetModeOf(device.Prop("Mode"))
    }

    /** `getCurrentTemperature`; None when it throws. */
    function GetCurrentTemperature(): Option<Value>
      reads device
    {
      ToHomekitTemperature(Units(), device.Prop("Temperature"))
    }

    /** `getTargetTemperature`; None when it throws. */
    function GetTargetTemperature(): Option<Value>
      reads device
    {
      TargetReading(Units(), device.Prop("Mode"), device.Prop("SetpointHeating"), device.Prop("SetpointCooling"))
    }

    /** `getTemperatureDisplayUnits`. */
    function GetTemperatureDisplayUnits(): Value
      reads device
    {
      UnitsOf(Units())
    }

    /** `getCurrentRelativeHumidity`: the humidity rounded to a whole percent. */
    function GetCurrentRelativeHumidity(): Value
      reads device
    {
      MathRound(ToNumber(device.Prop("Humidity")))
    }

    /** `getCoolingThresholdTemperature`; None when it throws. */
    function GetCoolingThresholdTemperature(): Option<Value>
      reads device
    {
      ToHomekitTemperature(Units(), device.Prop("SetpointCooling"))
    }

    /** `getHeatingThresholdTemperature`; None when it throws. */
    function GetHeatingThresholdTemperature(): Option<Value>
      reads device
    {
      ToHomekitTemperature(Units(), device.Prop("SetpointHeating"))
    }

    /** `getFanMode`: on exactly when the fan mode is "On Low". */
    function GetFanMode(): Value
      reads device
    {
      Bool(device.Prop("FanMode") == Str("On Low"))
    }

    /** `setTargetHeatingCoolingState`: writes the hub's name for the mode,
        then pushes the target temperature that mode will have; the push is
        lost when the conversion throws. */
    method SetTargetHeatingCoolingState(state: Value)
      requires Valid()
      modifies device`writes, accessory`notifications
      ensures Valid()
      ensures device.writes == old(device.writes) + [Devices.Write(device.PropId("Mode"), ModeNameOf(state))]
      ensures var r := TargetReading(Units(), ModeNameOf(state), device.Prop("SetpointHeating"), device.Prop("SetpointCooling"));
              accessory.notifications == old(accessory.notifications) +
                (if r.Some? then [Notification(Thermostat, TargetTemperature, r.value)] else [])
    {
      var mode := ModeNameOf(state);
      device.SetProp("Mode", mode);
      var target := TargetSetpoint(mode, device.Prop("SetpointHeating"), device.Prop("SetpointCooling"));
      var converted := ToHomekitTemperature(Units(), target);
      if converted.Some? {
        var ok := accessory.UpdateValue(Thermostat, TargetTemperature, converted.value);
      }
    }

    /** `setTargetTemperature`: writes the heating setpoint in "Heat", the
        cooling setpoint in "Cool", and nothing in any other mode. */
    method SetTargetTemperature(temperature: Value)
      modifies device`writes
      ensures var mode := device.Prop("Mode");
              var w := ToAlmondTemperature(Units(), temperature);
              device.writes == old(device.writes) +
                (if mode == Str("Heat") then [Devices.Write(device.PropId("SetpointHeating"), w)]
                 else if mode == Str("Cool") then [Devices.Write(device.PropId("SetpointCooling"), w)]
                 else [])
    {
      var target := ToAlmondTemperature(Units(), temperature);
      var mode := device.Prop("Mode");
      if mode == Str("Heat") {
        device.SetProp("SetpointHeating", target);
      } else if mode == Str("Cool") {
        device.SetProp("SetpointCooling", target);
      }
    }

    /** `setCoolingThresholdTemperature`: writes only in "Auto". */
    method SetCoolingThresholdTemperature(temperature: Value)
      modifies device`writes
      ensures device.writes == old(device.writes) +
        (if device.Prop("Mode") == Str("Auto")
         then [Devices.Write(device.PropId("SetpointCooling"), ToAlmondTemperature(Units(), temperature))]
         else [])
    {
      var mode := device.Prop("Mode");
      if mode == Str("Auto") {
        device.SetProp("SetpointCooling", ToAlmondTemperature(Units(), temperature));
      }
    }

    /** `setHeatingThresholdTemperature`: writes only in "Auto". */
    method SetHeatingThresholdTemperature(temperature: Value)
      modifies device`writes
      ensures device.writes == old(device.writes) +
        (if device.Prop("Mode") == Str("Auto")
         then [Devices.Write(device.PropId("SetpointHeating"), ToAlmondTemperature(Units(), temperature))]
         else [])
    {
      var mode := device.Prop("Mode");
      if mode == Str("Auto") {
        device.SetProp("SetpointHeating", ToAlmondTemperature(Units(), temperature));
      }
    }

    /** `setFanMode`: "On Low" when switched on, "Auto Low" when switched off. */
    method SetFanMode(state: Value)
      modifies device`writes
      ensures device.writes == old(device.writes) +
        [Devices.Write(device.PropId("FanMode"), Str(if Truthy(state) then "On Low" else "Auto Low"))]
    {
      device.SetProp("FanMode", Str(if Truthy(state) then "On Low" else "Auto Low"));
    }

    /** The notifications the change listener pushes for a change of `property`
        to `value`, trying the properties in the listener's order. */
    function ListenerUpdate(property: Devices.PropertyId, value: Value): seq<Notification>
      reads device
    {
      var units := Units();
      if device.IsProp(property, "Temperature") then CurrentTemperatureUpdate(units, value)
      else if device.IsProp(property, "Mode") then
        TargetModeUpdate(units, value, device.Prop("SetpointHeating"), device.Prop("SetpointCooling"))
      else if device.IsProp(property, "OperatingState") then
        [Notification(Thermostat, CurrentHeatingCoolingState, OperatingStateOf(value))]
      else if device.IsProp(property, "SetpointHeating") then
        ThresholdUpdate(units, device.Prop("Mode"), value, HeatingThresholdTemperature, "Heat")
      else if device.IsProp(property, "SetpointCooling") then
        ThresholdUpdate(units, device.Prop("Mode"), value, CoolingThresholdTemperature, "Cool")
      else if device.IsProp(property, "FanMode") then
        [Notification(Fan, On, Bool(value == Str("On Low")))]
      else if device.IsProp(property, "Units") then
        [Notification(Thermostat, TemperatureDisplayUnits, UnitsOf(value))]
      else if device.IsProp(property, "Humidity") then
        [Notification(Thermostat, CurrentRelativeHumidity, MathRound(ToNumber(value)))]
      else []
    }

    /** Pushes a converted temperature, unless the conversion threw. */
    method PushTemperature(ch: CharKind, t: Option<Value>)
      requires Valid() && accessory.Has(Thermostat, ch)
      modifies accessory`notifications
      ensures Valid()
      ensures accessory.notifications == old(accessory.notifications) +
        (if t.Some? then [Notification(Thermostat, ch, t.value)] else [])
    {
      if t.Some? {
        var ok := accessory.UpdateValue(Thermostat, ch, t.value);
      }
    }

    /** `updateCurrentTemperature`. */
    method UpdateCurrentTemperature(temperature: Value)
      requires Valid()
      modifies accessory`notifications
      ensures Valid()
      ensures accessory.notifications == old(accessory.notifications) + CurrentTemperatureUpdate(Units(), temperature)
    {
      PushTemperature(CurrentTemperature, ToHomekitTemperature(Units(), temperature));
    }

    /** `updateTargetHeatingCoolingState`: pushes the target temperature the
        reported mode gives, then the mode itself. */
    method UpdateTargetHeatingCoolingState(state: Value)
      requires Valid()
      modifies accessory`notifications
      ensures Valid()
      ensures accessory.notifications == old(accessory.notifications) +
        TargetModeUpdate(Units(), state, device.Prop("SetpointHeating"), device.Prop("SetpointCooling"))
    {
      var target := TargetReading(Units(), state, device.Prop("SetpointHeating"), device.Prop("SetpointCooling"));
      if target.Some? {
        var ok := accessory.UpdateValue(Thermostat, TargetTemperature, target.value);
        ok := accessory.UpdateValue(Thermostat, TargetHeatingCoolingState, TargetModeOf(state));
      }
    }

    /** `updateCurrentHeatingCoolingState`. */
    method UpdateCurrentHeatingCoolingState(state: Value)
      requires Valid()
      modifies accessory`notifications
      ensures Valid()
      ensures accessory.notifications == old(accessory.notifications) +
        [Notification(Thermostat, CurrentHeatingCoolingState, OperatingStateOf(state))]
    {
      var ok := accessory.UpdateValue(Thermostat, CurrentHeatingCoolingState, OperatingStateOf(state));
    }

    /** `updateHeatingThresholdTemperature`. */
    method UpdateHeatingThresholdTemperature(temperature: Value)
      requires Valid()
      modifies accessory`notifications
      ensures Valid()
      ensures accessory.notifications == old(accessory.notifications) +
        ThresholdUpdate(Units(), device.Prop("Mode"), temperature, HeatingThresholdTemperature, "Heat")
    {
      var t := ToHomekitTemperature(Units(), temperature);
      PushTemperature(HeatingThresholdTemperature, t);
      if t.Some? && device.Prop("Mode") == Str("Heat") {
        var ok := accessory.UpdateValue(Thermostat, TargetTemperature, t.value);
      }
    }

    /** `updateCoolingThresholdTemperature`. */
    method UpdateCoolingThresholdTemperature(temperature: Value)
      requires Valid()
      modifies accessory`notifications
      ensures Valid()
      ensures accessory.notifications == old(accessory.notifications) +
        ThresholdUpdate(Units(), device.Prop("Mode"), temperature, CoolingThresholdTemperature, "Cool")
    {
      var t := ToHomekitTemperature(Units(), temperature);
      PushTemperature(CoolingThresholdTemperature, t);
      if t.Some? && device.Prop("Mode") == Str("Cool") {
        var ok := accessory.UpdateValue(Thermostat, TargetTemperature, t.value);
      }
    }

    /** `updateFanMode`. */
    method UpdateFanMode(mode: Value)
      requires Valid()
      modifies accessory`notifications
      ensures Valid()
      ensures accessory.notifications == old(accessory.notifications) +
        [Notification(Fan, On, Bool(mode == Str("On Low")))]
    {
      var ok := accessory.UpdateValue(Fan, On, Bool(mode == Str("On Low")));
    }

    /** `updateTemperatureDisplayUnits`. */
    method UpdateTemperatureDisplayUnits(units: Value)
      requires Valid()
      modifies accessory`notifications
      ensures Valid()
      ensures accessory.notifications == old(accessory.notifications) +
        [Notification(Thermostat, TemperatureDisplayUnits, UnitsOf(units))]
    {
      var ok := accessory.UpdateValue(Thermostat, TemperatureDisplayUnits, UnitsOf(units));
    }

    /** `updateCurrentRelativeHumidity`. */
    method UpdateCurrentRelativeHumidity(humidity: Value)
      requires Valid()
      modifies accessory`notifications
      ensures Valid()
      ensures accessory.notifications == old(accessory.notifications) +
        [Notification(Thermostat, CurrentRelativeHumidity, MathRound(ToNumber(humidity)))]
    {
      var ok := accessory.UpdateValue(Thermostat, CurrentRelativeHumidity, MathRound(ToNumber(humidity)));
    }

    /** The change listener. */
    method OnValueUpdated(property: Devices.PropertyId, value: Value)
      requires Valid()
      modifies accessory`notifications
      ensures Valid()
      ensures accessory.notifications == old(accessory.notifications) + ListenerUpdate(property, value)
    {
      if device.IsProp(property, "Temperature") {
        UpdateCurrentTemperature(value);
      } else if device.IsProp(property, "Mode") {
        UpdateTargetHeatingCoolingState(value);
      } else if device.IsProp(property, "OperatingState") {
        UpdateCurrentHeatingCoolingState(value);
      } else if device.IsProp(property, "SetpointHeating") {
        UpdateHeatingThresholdTemperature(value);
      } else if device.IsProp(property, "SetpointCooling") {
        UpdateCoolingThresholdTemperature(value);
      } else if device.IsProp(property, "FanMode") {
        UpdateFanMode(value);
      } else if device.IsProp(property, "Units") {
        UpdateTemperatureDisplayUnits(value);
      } else if device.IsProp(property, "Humidity") {
        UpdateCurrentRelativeHumidity(value);
      }
    }
  }
}
