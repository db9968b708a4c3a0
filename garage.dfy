/** `AlmondGarageDoorOpener`: the hub's barrier operator reports one code
    (0 closed, 252 closing, 253 stopped, 254 opening, 255 open), from which
    the HomeKit current state, target state and obstruction are derived. */
module Garage {
  import opened JsValues
  import opened HomeKit
  import opened Binding
  import Devices
  import Dispatch

  /** The barrier operator codes. */
  const Closed: nat := 0
  const Closing: nat := 252
  const Stopped: nat := 253
  const Opening: nat := 254
  const Open: nat := 255

  /** `getCurrentDoorState`'s table, looked up with the code as key. */
  function CurrentDoorStateOf(code: Value): (r: Value)
    ensures r != Undefined <==> exists c :: c in [Closed, Closing, Stopped, Opening, Open] && IsKey(code, c)
  {
    if IsKey(code, Closed) then Code(CurrentDoorClosed)
    else if IsKey(code, Closing) then Code(CurrentDoorClosing)
    else if IsKey(code, Stopped) then Code(CurrentDoorStopped)
    else if IsKey(code, Opening) then Code(CurrentDoorOpening)
    else if IsKey(code, Open) then Code(CurrentDoorOpen)
    else Undefined
  }

  /** `getTargetDoorState`: the device's `_targetDoorState` when it is set;
      otherwise CLOSED for a closed or closing door, OPEN for an open or
      opening one, and CLOSED for anything else. */
  function TargetDoorStateOf(pending: Value, code: Value): (r: Value)
    ensures pending == Undefined ==> r == Code(TargetDoorOpen) || r == Code(TargetDoorClosed)
  {
    if pending != Undefined then pending
    else if LooselyEquals(code, Closed as real) || LooselyEquals(code, Closing as real) then Code(TargetDoorClosed)
    else if LooselyEquals(code, Opening as real) || LooselyEquals(code, Open as real) then Code(TargetDoorOpen)
    else Code(TargetDoorClosed)
  }

  /** `getObstructionDetected`: `code == 253`. */
  predicate ObstructionOf(code: Value) {
    LooselyEquals(code, Stopped as real)
  }

  /** `setTargetDoorState`'s array: OPEN writes 255, CLOSED writes 0. */
  function DoorCodeFor(target: Value): (r: Value)
    ensures r == Undefined <==> !IsKey(target, TargetDoorOpen) && !IsKey(target, TargetDoorClosed)
  {
    if IsKey(target, TargetDoorOpen) then Num(Open as real)
    else if IsKey(target, TargetDoorClosed) then Num(Closed as real)
    else Undefined
  }

  /** `updateGarageDoorState`: a `switch` on the code, so only the five
      numbers match; each pushes obstruction, target and current state in
      the order the source does. */
  function DoorUpdate(code: Value): seq<Notification> {
    if code == Num(Closed as real) then
      [Notification(GarageDoorOpener, ObstructionDetected, Bool(false)),
       Notification(GarageDoorOpener, TargetDoorState, Code(TargetDoorClosed)),
       Notification(GarageDoorOpener, CurrentDoorState, Code(CurrentDoorClosed))]
    else if code == Num(Closing as real) then
      [Notification(GarageDoorOpener, TargetDoorState, Code(TargetDoorClosed)),
       Notification(GarageDoorOpener, CurrentDoorState, Code(CurrentDoorClosing))]
    else if code == Num(Stopped as real) then
      [Notification(GarageDoorOpener, CurrentDoorState, Code(CurrentDoorStopped)),
       Notification(GarageDoorOpener, ObstructionDetected, Bool(true))]
    else if code == Num(Opening as real) then
      [Notification(GarageDoorOpener, TargetDoorState, Code(TargetDoorOpen)),
       Notification(GarageDoorOpener, CurrentDoorState, Code(CurrentDoorOpening))]
    else if code == Num(Open as real) then
      [Notification(GarageDoorOpener, ObstructionDetected, Bool(false)),
       Notification(GarageDoorOpener, TargetDoorState, Code(TargetDoorOpen)),
       Notification(GarageDoorOpener, CurrentDoorState, Code(CurrentDoorOpen))]
    else []
  }

  /** Setting OPEN or CLOSED writes the code of the finished door; once the
      hub reports that code, the target HomeKit reads is the one it set. */
  lemma TargetRoundTrip(target: nat)
    requires target == TargetDoorOpen || target == TargetDoorClosed
    ensures DoorCodeFor(Code(target)) != Undefined
    ensures TargetDoorStateOf(Undefined, DoorCodeFor(Code(target))) == Code(target)
    ensures CurrentDoorStateOf(DoorCodeFor(Code(target))) ==
            Code(if target == TargetDoorOpen then CurrentDoorOpen else CurrentDoorClosed)
  {
  }

  /** Every value an update pushes for a numeric code is the value the
      matching getter returns once the hub holds that code. */
  lemma UpdateAgreesWithGetters(code: Value, k: nat)
    requires k < |DoorUpdate(code)|
    ensures var n := DoorUpdate(code)[k];
            (n.characteristic == CurrentDoorState ==> n.value == CurrentDoorStateOf(code)) &&
            (n.characteristic == TargetDoorState ==> n.value == TargetDoorStateOf(Undefined, code)) &&
            (n.characteristic == ObstructionDetected ==> n.value == Bool(ObstructionOf(code)))
  {
  }

  /** The update pushes something exactly for the five numeric codes; the
      getters also accept the codes as text, which the update ignores. */
  lemma UpdateOnlyOnNumbers(code: Value)
    ensures DoorUpdate(code) != [] <==> code in {Num(0.0), Num(252.0), Num(253.0), Num(254.0), Num(255.0)}
    ensures CurrentDoorStateOf(Str("253")) == Code(CurrentDoorStopped) && DoorUpdate(Str("253")) == []
  {
    assert NatText(25) == "25" by { assert NatText(2) == "2"; }
    assert NatText(253) == "253";
    assert NatText(252) == "252";
    assert NatText(0) == "0";
  }

  /** The stopped code shows as STOPPED with an obstruction; the closed code as
      CLOSED with none. */
  lemma StoppedAndClosed()
    ensures CurrentDoorStateOf(Num(253.0)) == Code(CurrentDoorStopped) && ObstructionOf(Num(253.0))
    ensures CurrentDoorStateOf(Num(0.0)) == Code(CurrentDoorClosed) && !ObstructionOf(Num(0.0))
  {
  }

  class AlmondGarageDoorOpener {
    const accessory: Accessory
    const device: Devices.Device

    ghost predicate Valid()
      reads this, accessory
    {
      accessory.Valid() && accessory.Has(GarageDoorOpener, CurrentDoorState) &&
      accessory.Has(GarageDoorOpener, TargetDoorState) && accessory.Has(GarageDoorOpener, ObstructionDetected)
    }

    constructor (accessory: Accessory, device: Devices.Device)
      requires accessory.Valid()
      modifies accessory
      ensures Valid() && this.accessory == accessory && this.device == device
      ensures accessory.information == Some(InformationOf(device))
      ensures accessory.services ==
        ApplyBlueprint(old(accessory.services), Blueprint(Dispatch.AlmondGarageDoorOpener), device.name)
      ensures accessory.notifications == old(accessory.notifications)
    {
      this.accessory := accessory;
      this.device := device;
      new;
      ghost var s0 := accessory.services;
      var bp := Blueprint(Dispatch.AlmondGarageDoorOpener);
      SetAccessoryInformation(accessory, device);
      BindAll(accessory, bp, device.name);
      BlueprintProvides(s0, bp, device.name, 0, CurrentDoorState);
      BlueprintProvides(s0, bp, device.name, 0, TargetDoorState);
      BlueprintProvides(s0, bp, device.name, 0, ObstructionDetected);
    }

    /** `getCurrentDoorState`. */
    function GetCurrentDoorState(): Value
      reads device
    {
      CurrentDoorStateOf(device.Prop("BarrierOperator"))
    }

    /** `getTargetDoorState`. */
    function GetTargetDoorState(): Value
      reads device
    {
      TargetDoorStateOf(device.targetDoorState, device.Prop("BarrierOperator"))
    }

    /** `getObstructionDetected`. */
    function GetObstructionDetected(): Value
      reads device
    {
      Bool(ObstructionOf(device.Prop("BarrierOperator")))
    }

    /** `setTargetDoorState`: writes 255 for OPEN, 0 for CLOSED, `undefined` otherwise. */
    method SetTargetDoorState(state: Value)
      modifies device`writes
      ensures device.writes == old(device.writes) + [Devices.Write(device.PropId("BarrierOperator"), DoorCodeFor(state))]
    {
      device.SetProp("BarrierOperator", DoorCodeFor(state));
    }

    /** `updateGarageDoorState`. */
    method UpdateGarageDoorState(state: Value)
      requires Valid()
      modifies accessory`notifications
      ensures Valid()
      ensures accessory.notifications == old(accessory.notifications) + DoorUpdate(state)
    {
      var ok;
      if state == Num(Closed as real) {
        ok := accessory.UpdateValue(GarageDoorOpener, ObstructionDetected, Bool(false));
        ok := accessory.UpdateValue(GarageDoorOpener, TargetDoorState, Code(TargetDoorClosed));
        ok := accessory.UpdateValue(GarageDoorOpener, CurrentDoorState, Code(CurrentDoorClosed));
      } else if state == Num(Closing as real) {
        ok := accessory.UpdateValue(GarageDoorOpener, TargetDoorState, Code(TargetDoorClosed));
        ok := accessory.UpdateValue(GarageDoorOpener, CurrentDoorState, Code(CurrentDoorClosing));
      } else if state == Num(Stopped as real) {
        ok := accessory.UpdateValue(GarageDoorOpener, CurrentDoorState, Code(CurrentDoorStopped));
        ok := accessory.UpdateValue(GarageDoorOpener, ObstructionDetected, Bool(true));
      } else if state == Num(Opening as real) {
        ok := accessory.UpdateValue(GarageDoorOpener, TargetDoorState, Code(TargetDoorOpen));
        ok := accessory.UpdateValue(GarageDoorOpener, CurrentDoorState, Code(CurrentDoorOpening));
      } else if state == Num(Open as real) {
        ok := accessory.UpdateValue(GarageDoorOpener, ObstructionDetected, Bool(false));
        ok := accessory.UpdateValue(GarageDoorOpener, TargetDoorState, Code(TargetDoorOpen));
        ok := accessory.UpdateValue(GarageDoorOpener, CurrentDoorState, Code(CurrentDoorOpen));
      }
    }

    /** The change listener: only the barrier operator is handled. */
    method OnValueUpdated(property: Devices.PropertyId, value: Value)
      requires Valid()
      modifies accessory`notifications
      ensures Valid()
      ensures accessory.notifications == old(accessory.notifications) +
        (if device.IsProp(property, "BarrierOperator") then DoorUpdate(value) else [])
    {
      if device.IsProp(property, "BarrierOperator") {
        UpdateGarageDoorState(value);
      }
    }
  }
}
