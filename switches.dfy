/** The plain switches, `AlmondBinarySwitch` and `AlmondOutlet`, which pass
    the hub's `SwitchBinary` value through unchanged, and `AlmondClick`, a
    button whose press codes become HomeKit switch events. */
module Switches {
  import opened JsValues
  import opened HomeKit
  import opened Binding
  import Devices
  import Dispatch

  class AlmondBinarySwitch {
    const accessory: Accessory
    const device: Devices.Device

    ghost predicate Valid()
      reads this, accessory
    {
      accessory.Valid() && accessory.Has(Switch, On)
    }

    constructor (accessory: Accessory, device: Devices.Device)
      requires accessory.Valid()
      modifies accessory
      ensures Valid() && this.accessory == accessory && this.device == device
      ensures accessory.information == Some(InformationOf(device))
      ensures accessory.services ==
        ApplyBlueprint(old(accessory.services), Blueprint(Dispatch.AlmondBinarySwitch), device.name)
      ensures accessory.notifications == old(accessory.notifications)
    {
      this.accessory := accessory;
      this.device := device;
      new;
      ghost var s0 := accessory.services;
      var bp := Blueprint(Dispatch.AlmondBinarySwitch);
      SetAccessoryInformation(accessory, device);
      BindAll(accessory, bp, device.name);
      BlueprintProvides(s0, bp, device.name, 0, On);
    }

    /** `getState`: the binary switch property as reported. */
    function GetState(): Value
      reads device
    {
      device.Prop("SwitchBinary")
    }

    /** `setState`: writes the state as given. */
    method SetState(state: Value)
      modifies device`writes
      ensures device.writes == old(device.writes) + [Devices.Write(device.PropId("SwitchBinary"), state)]
    {
      device.SetProp("SwitchBinary", state);
    }

    /** The change listener: a reported `SwitchBinary` is pushed to On as it is,
        the value `getState` returns once the hub holds it. */
    method OnValueUpdated(property: Devices.PropertyId, value: Value)
      requires Valid()
      modifies accessory`notifications
      ensures Valid()
      ensures accessory.notifications == old(accessory.notifications) +
        (if device.IsProp(property, "SwitchBinary") then [Notification(Switch, On, value)] else [])
    {
      if device.IsProp(property, "SwitchBinary") {
        var ok := accessory.UpdateValue(Switch, On, value);
      }
    }
  }

  /** The notifications `AlmondOutlet.updateState` manages to push. It looks
      up the Switch service rather than the Outlet service: when the accessory
      has no Switch service the first lookup throws and nothing is pushed;
      when it has one, On is pushed there and the OutletInUse lookup throws
      unless that service also has OutletInUse. */
  function OutletUpdate(services: seq<Service>, state: Value): seq<Notification> {
    if !Provides(services, Switch, On) then []
    else if !Provides(services, Switch, OutletInUse) then [Notification(Switch, On, state)]
    else [Notification(Switch, On, state), Notification(Switch, OutletInUse, state)]
  }

  /** An outlet built on a fresh accessory has no Switch service, so its
      update never reaches HomeKit. */
  lemma FreshOutletPushesNothing(state: Value, name: string)
    ensures OutletUpdate(ApplyBlueprint([], Blueprint(Dispatch.AlmondOutlet), name), state) == []
  {
    var s := ApplyBlueprint([], Blueprint(Dispatch.AlmondOutlet), name);
    assert s == ApplyBinding([], Blueprint(Dispatch.AlmondOutlet)[0], name);
    assert |s| == 1 && s[0].kind == Outlet;
    assert FindService(s[1..], Switch) == None;
  }

  class AlmondOutlet {
    const accessory: Accessory
    const device: Devices.Device

    ghost predicate Valid()
      reads this, accessory
    {
      accessory.Valid() && accessory.Has(Outlet, On) && accessory.Has(Outlet, OutletInUse)
    }

    constructor (accessory: Accessory, device: Devices.Device)
      requires accessory.Valid()
      modifies accessory
      ensures Valid() && this.accessory == accessory && this.device == device
      ensures accessory.information == Some(InformationOf(device))
      ensures accessory.services ==
        ApplyBlueprint(old(accessory.services), Blueprint(Dispatch.AlmondOutlet), device.name)
      ensures accessory.notifications == old(accessory.notifications)
    {
      this.accessory := accessory;
      this.device := device;
      new;
      ghost var s0 := accessory.services;
      var bp := Blueprint(Dispatch.AlmondOutlet);
      SetAccessoryInformation(accessory, device);
      BindAll(accessory, bp, device.name);
      BlueprintProvides(s0, bp, device.name, 0, On);
      BlueprintProvides(s0, bp, device.name, 0, OutletInUse);
    }

    /** `getState`: the binary switch property as reported. */
    function GetState(): Value
      reads device
    {
      device.Prop("SwitchBinary")
    }

    /** `getUsageState`: the binary switch property as reported, the same value as `getState`. */
    function GetUsageState(): Value
      reads device
    {
      device.Prop("SwitchBinary")
    }

    /** `setState`: writes the state as given. */
    method SetState(state: Value)
      modifies device`writes
      ensures device.writes == old(device.writes) + [Devices.Write(device.PropId("SwitchBinary"), state)]
    {
      device.SetProp("SwitchBinary", state);
    }

    /** `updateState`, with its lookup of the Switch service. */
    method UpdateState(state: Value)
      requires Valid()
      modifies accessory`notifications
      ensures Valid()
      ensures accessory.notifications == old(accessory.notifications) + OutletUpdate(accessory.services, state)
    {
      var ok := accessory.UpdateValue(Switch, On, state);
      if ok {
        ok := accessory.UpdateValue(Switch, OutletInUse, state);
      }
    }

    /** The change listener: only `SwitchBinary` is handled. */
    method OnValueUpdated(property: Devices.PropertyId, value: Value)
      requires Valid()
      modifies accessory`notifications
      ensures Valid()
      ensures accessory.notifications == old(accessory.notifications) +
        (if device.IsProp(property, "SwitchBinary") then OutletUpdate(accessory.services, value) else [])
    {
      if device.IsProp(property, "SwitchBinary") {
        UpdateState(value);
      }
    }
  }

  /** The `events` table of `AlmondClick`: press code 3 is a single press, 0 a
      double press, 2 a long press; any other code is `undefined`. */
  function PressEventOf(press: Value): (r: Value)
    ensures r != Undefined <==> IsKey(press, 3) || IsKey(press, 0) || IsKey(press, 2)
    ensures IsKey(press, 3) ==> r == Code(SinglePress)
    ensures IsKey(press, 0) ==> r == Code(DoublePress)
    ensures IsKey(press, 2) ==> r == Code(LongPress)
  {
    if IsKey(press, 3) then Code(SinglePress)
    else if IsKey(press, 0) then Code(DoublePress)
    else if IsKey(press, 2) then Code(LongPress)
    else Undefined
  }

  /** The three press codes give three different events, and code 1 gives none. */
  lemma PressEventsDistinct()
    ensures PressEventOf(Num(3.0)) == Code(SinglePress)
    ensures PressEventOf(Num(0.0)) == Code(DoublePress)
    ensures PressEventOf(Num(2.0)) == Code(LongPress)
    ensures PressEventOf(Str("3")) == Code(SinglePress)
    ensures PressEventOf(Num(1.0)) == Undefined
  {
    assert NatText(3) == "3" && NatText(0) == "0" && NatText(2) == "2";
  }

  class AlmondClick {
    const accessory: Accessory
    const device: Devices.Device

    ghost predicate Valid()
      reads this, accessory
    {
      accessory.Valid() && accessory.Has(StatelessProgrammableSwitch, ProgrammableSwitchEvent)
    }

    constructor (accessory: Accessory, device: Devices.Device)
      requires accessory.Valid()
      modifies accessory
      ensures Valid() && this.accessory == accessory && this.device == device
      ensures accessory.information == Some(InformationOf(device))
      ensures accessory.services ==
        ApplyBlueprint(old(accessory.services), Blueprint(Dispatch.AlmondClick), device.name)
      ensures accessory.notifications == old(accessory.notifications)
    {
      this.accessory := accessory;
      this.device := device;
      new;
      ghost var s0 := accessory.services;
      var bp := Blueprint(Dispatch.AlmondClick);
      SetAccessoryInformation(accessory, device);
      BindAll(accessory, bp, device.name);
      BlueprintProvides(s0, bp, device.name, 0, ProgrammableSwitchEvent);
    }

    /** `getPress`. */
    function GetPress(): Value
      reads device
    {
      PressEventOf(device.Prop("Press"))
    }

    /** The change listener: a reported press is pushed as its event, the value
        `getPress` returns once the hub holds it. */
    method OnValueUpdated(property: Devices.PropertyId, value: Value)
      requires Valid()
      modifies accessory`notifications
      ensures Valid()
      ensures accessory.notifications == old(accessory.notifications) +
        (if device.IsProp(property, "Press")
         then [Notification(StatelessProgrammableSwitch, ProgrammableSwitchEvent, PressEventOf(value))]
         else [])
    {
      if device.IsProp(property, "Press") {
        var ok := accessory.UpdateValue(StatelessProgrammableSwitch, ProgrammableSwitchEvent, PressEventOf(value));
      }
    }
  }
}
