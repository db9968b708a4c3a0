/** The part of the HomeKit host's object model the plugin touches: platform
    accessories holding services, services holding characteristics, value
    notifications pushed to HomeKit, and the numeric constants of the HomeKit
    Accessory Protocol characteristics the plugin reads and writes. */
module HomeKit {
  import opened JsValues

  datatype ServiceKind =
    | Lightbulb | Thermostat | Fan | ContactSensor | SmokeSensor
    | GarageDoorOpener | Switch | Outlet | StatelessProgrammableSwitch

  datatype CharKind =
    | On | Brightness | RotationSpeed
    | CurrentHeatingCoolingState | TargetHeatingCoolingState
    | CurrentTemperature | TargetTemperature | TemperatureDisplayUnits
    | CurrentRelativeHumidity | CoolingThresholdTemperature | HeatingThresholdTemperature
    | ContactSensorState | SmokeDetected | StatusTampered | StatusLowBattery
    | CurrentDoorState | TargetDoorState | ObstructionDetected
    | OutletInUse | ProgrammableSwitchEvent

  // Characteristic constants of the HomeKit Accessory Protocol.
  const CurrentHeatingCoolingOff: nat := 0
  const CurrentHeatingCoolingHeat: nat := 1
  const CurrentHeatingCoolingCool: nat := 2
  const TargetHeatingCoolingOff: nat := 0
  const TargetHeatingCoolingHeat: nat := 1
  const TargetHeatingCoolingCool: nat := 2
  const TargetHeatingCoolingAuto: nat := 3
  const DisplayCelsius: nat := 0
  const DisplayFahrenheit: nat := 1
  const ContactDetected: nat := 0
  const ContactNotDetected: nat := 1
  const NotTampered: nat := 0
  const Tampered: nat := 1
  const BatteryLevelNormal: nat := 0
  const BatteryLevelLow: nat := 1
  const SmokeNotDetected: nat := 0
  const SmokeIsDetected: nat := 1
  const CurrentDoorOpen: nat := 0
  const CurrentDoorClosed: nat := 1
  const CurrentDoorOpening: nat := 2
  const CurrentDoorClosing: nat := 3
  const CurrentDoorStopped: nat := 4
  const TargetDoorOpen: nat := 0
  const TargetDoorClosed: nat := 1
  const SinglePress: nat := 0
  const DoublePress: nat := 1
  const LongPress: nat := 2

  /** A HomeKit constant as the number value a handler returns or pushes. */
  function Code(n: nat): Value { Num(n as real) }

  /** The characteristics a service of each kind is created with. */
  function Required(kind: ServiceKind): seq<CharKind> {
    match kind
    case Lightbulb => [On]
    case Thermostat =>
      [CurrentHeatingCoolingState, TargetHeatingCoolingState, CurrentTemperature,
       TargetTemperature, TemperatureDisplayUnits]
    case Fan => [On]
    case ContactSensor => [ContactSensorState]
    case SmokeSensor => [SmokeDetected]
    case GarageDoorOpener => [CurrentDoorState, TargetDoorState, ObstructionDetected]
    case Switch => [On]
    case Outlet => [On, OutletInUse]
    case StatelessProgrammableSwitch => [ProgrammableSwitchEvent]
  }

  /** A service of an accessory; its identity is its position in the accessory. */
  datatype Service = Service(kind: ServiceKind, name: string, characteristics: seq<CharKind>)

  /** Every service holds the characteristics its kind is created with. */
  predicate WellFormed(s: Service) {
    forall c :: c in Required(s.kind) ==> c in s.characteristics
  }

  /** The position of the first service of `kind`, as the host's `getService` finds it. */
  function FindService(services: seq<Service>, kind: ServiceKind): (r: Option<nat>)
    ensures r.Some? ==> r.value < |services| && services[r.value].kind == kind
  {
    if services == [] then None
    else if services[0].kind == kind then Some(0)
    else
      match FindService(services[1..], kind)
      case None => None
      case Some(i) => Some(i + 1)
  }

  /** `getService` finds the first service of the kind, and nothing only
      when no service has that kind. */
  lemma {:induction false} FindServiceSpec(services: seq<Service>, kind: ServiceKind)
    ensures var r := FindService(services, kind);
            (r.Some? ==> forall j :: 0 <= j < r.value ==> services[j].kind != kind) &&
            (r.None? ==> forall j :: 0 <= j < |services| ==> services[j].kind != kind)
    decreases |services|
  {
    if services != [] && services[0].kind != kind {
      FindServiceSpec(services[1..], kind);
      forall j | 1 <= j < |services| ensures services[j] == services[1..][j - 1] { }
    }
  }

  /** The first service of the kind is the one `getService` finds. */
  lemma {:induction false} FindServiceAt(services: seq<Service>, kind: ServiceKind, i: nat)
    requires i < |services| && services[i].kind == kind
    requires forall j :: 0 <= j < i ==> services[j].kind != kind
    ensures FindService(services, kind) == Some(i)
    decreases i
  {
    if i > 0 {
      assert services[0].kind != kind;
      FindServiceAt(services[1..], kind, i - 1);
    }
  }

  /** `getService(kind).getCharacteristic(ch)` finds a characteristic. */
  predicate Provides(services: seq<Service>, kind: ServiceKind, ch: CharKind) {
    var i := FindService(services, kind);
    i.Some? && ch in services[i.value].characteristics
  }

  /** The host's UUID of an accessory, represented by the text it was generated
      from (the generator is taken to be injective). */
  datatype Uuid = Uuid(seed: string)

  /** What the AccessoryInformation service reports. */
  datatype Information = Information(manufacturer: string, model: string, serialNumber: string)

  /** One `updateValue` pushed to HomeKit. */
  datatype Notification = Notification(service: ServiceKind, characteristic: CharKind, value: Value)

  /** A platform accessory, as created by the plugin or restored by the host. */
  class Accessory {
    const uuid: Uuid
    const displayName: string
    var services: seq<Service>
    var information: Option<Information>
    var notifications: seq<Notification>

    ghost predicate Valid()
      reads this
    {
      forall i :: 0 <= i < |services| ==> WellFormed(services[i])
    }

    constructor (displayName: string, uuid: Uuid)
      ensures Valid()
      ensures this.displayName == displayName && this.uuid == uuid
      ensures services == [] && information == None && notifications == []
    {
      this.displayName := displayName;
      this.uuid := uuid;
      services := [];
      information := None;
      notifications := [];
    }

    predicate Has(kind: ServiceKind, ch: CharKind)
      reads this
    {
      Provides(services, kind, ch)
    }

    /** `getService(kind).getCharacteristic(ch).updateValue(v)`: pushes the
        value when the accessory has that characteristic; otherwise one of the
        two lookups yields `undefined` and the call throws (`ok` is false). */
    method UpdateValue(kind: ServiceKind, ch: CharKind, v: Value) returns (ok: bool)
      modifies this`notifications
      ensures ok == Has(kind, ch)
      ensures notifications == old(notifications) + (if ok then [Notification(kind, ch, v)] else [])
    {
      ok := Has(kind, ch);
      if ok {
        notifications := notifications + [Notification(kind, ch, v)];
      }
    }
  }

  /** A well-formed accessory provides every characteristic a service of
      that kind is created with, once it has such a service. */
  lemma RequiredProvided(services: seq<Service>, kind: ServiceKind, ch: CharKind)
    requires forall i :: 0 <= i < |services| ==> WellFormed(services[i])
    requires FindService(services, kind).Some?
    requires ch in Required(kind)
    ensures Provides(services, kind, ch)
  {
    FindServiceSpec(services, kind);
    var i := FindService(services, kind).value;
    assert WellFormed(services[i]);
  }
}
