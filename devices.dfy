/** A device of the Almond+ hub as the hub client presents it: identity,
    type, descriptive fields, the map from symbolic property names to numeric
    property ids, the last-known property values, and the log of property
    writes the plugin sends to the hub. */
module Devices {
  import opened JsValues

  /** The device types the plugin distinguishes; any other type code is `OtherType`. */
  datatype DeviceType =
    | MultilevelSwitch | MultilevelSwitchOnOff | Thermostat | ContactSwitch
    | FireSensor | SmokeDetector | GarageDoorOpener | GenericPSM | AlmondClick
    | BinarySwitch | UnknownOnOffModule | OtherType(code: int)

  type PropertyId = int

  /** One `setProp(id, value)` call; the id is `undefined` when the device's
      `props` has no entry under the name the handler used. */
  datatype Write = Write(property: Option<PropertyId>, value: Value)

  class Device {
    const id: string
    const deviceType: DeviceType
    var name: string
    var manufacturer: string
    var model: string
    /** `props`: symbolic property name to property id; None when the hub sent none. */
    const props: Option<map<string, PropertyId>>
    /** Last-known property values, as `getProp` returns them. */
    var values: map<PropertyId, Value>
    /** Every `setProp` call, oldest first. */
    var writes: seq<Write>
    /** `_targetDoorState`: read by the garage door handler, assigned nowhere in the plugin. */
    const targetDoorState: Value

    constructor (id: string, deviceType: DeviceType, name: string, manufacturer: string, model: string,
                 props: Option<map<string, PropertyId>>, values: map<PropertyId, Value>)
      ensures this.id == id && this.deviceType == deviceType && this.name == name
      ensures this.manufacturer == manufacturer && this.model == model
      ensures this.props == props && this.values == values
      ensures writes == [] && targetDoorState == Undefined
    {
      this.id := id;
      this.deviceType := deviceType;
      this.name := name;
      this.manufacturer := manufacturer;
      this.model := model;
      this.props := props;
      this.values := values;
      writes := [];
      targetDoorState := Undefined;
    }

    /** `props[name]`. */
    function PropId(name: string): Option<PropertyId> {
      if props.Some? && name in props.value then Some(props.value[name]) else None
    }

    /** `getProp(id)`: the last-known value, `undefined` for an unknown id. */
    function GetProp(p: Option<PropertyId>): Value
      reads this
    {
      if p.Some? && p.value in values then values[p.value] else Undefined
    }

    /** `getProp(props[name])`. */
    function Prop(name: string): Value
      reads this
    {
      GetProp(PropId(name))
    }

    /** Whether a change event for `property` is the one for `props[name]`. */
    predicate IsProp(property: PropertyId, name: string) {
      PropId(name) == Some(property)
    }

    /** `setProp(props[name], v)`: sends the write; the value the device
        reports changes only when the hub confirms it with a change event. */
    method SetProp(name: string, v: Value)
      modifies this`writes
      ensures writes == old(writes) + [Write(PropId(name), v)]
    {
      writes := writes + [Write(PropId(name), v)];
    }
  }
}
