/** How an accessory class binds to its host accessory: the services it
    acquires (get-or-create) and the characteristics it acquires on them,
    the identification it writes, and the proof that binding the same class
    twice on one accessory adds nothing the first binding did not. */
module Binding {
  import opened JsValues
  import opened HomeKit
  import opened Dispatch
  import Devices

  /** One service an accessory class acquires: its kind, the text appended to
      the device name when the service has to be created, and the
      characteristics acquired on it beyond those it is created with. */
  datatype ServiceBinding = ServiceBinding(kind: ServiceKind, suffix: string, acquired: seq<CharKind>)

  /** The services and characteristics each accessory class's constructor acquires, in order. */
  function Blueprint(k: Kind): seq<ServiceBinding> {
    match k
    case AlmondMultilevelSwitch => [ServiceBinding(Lightbulb, "", [Brightness])]
    case AlmondMultilevelSwitchOnOff => [ServiceBinding(Lightbulb, "", [Brightness])]
    case AlmondThermostat =>
      [ServiceBinding(Thermostat, "",
         [CurrentRelativeHumidity, CoolingThresholdTemperature, HeatingThresholdTemperature]),
       ServiceBinding(Fan, " Fan", [])]
    case AlmondContactSwitch => [ServiceBinding(ContactSensor, "", [StatusTampered, StatusLowBattery])]
    case AlmondFireSensor => [ServiceBinding(SmokeSensor, "", [StatusTampered, StatusLowBattery])]
    case AlmondSmokeDetector => [ServiceBinding(SmokeSensor, "", [StatusLowBattery])]
    case AlmondGarageDoorOpener => [ServiceBinding(GarageDoorOpener, "", [])]
    case AlmondGenericPsmFan => [ServiceBinding(Fan, "", [RotationSpeed])]
    case AlmondClick => [ServiceBinding(StatelessProgrammableSwitch, "", [])]
    case AlmondBinarySwitch => [ServiceBinding(Switch, "", [])]
    case AlmondOutlet => [ServiceBinding(Outlet, "", [])]
  }

  predicate AllWellFormed(services: seq<Service>) {
    forall i :: 0 <= i < |services| ==> WellFormed(services[i])
  }

  /** `acquireService`: the services afterwards and the position of the one
      returned. An existing service of the kind is returned and nothing is
      added; otherwise one new service is appended and returned. */
  function AcquireServiceIn(services: seq<Service>, kind: ServiceKind, name: string): (r: (seq<Service>, nat))
    ensures r.1 < |r.0| && r.0[r.1].kind == kind
  {
    match FindService(services, kind)
    case Some(i) => (services, i)
    case None => (services + [Service(kind, name, Required(kind))], |services|)
  }

  lemma AcquireServiceInSpec(services: seq<Service>, kind: ServiceKind, name: string)
    ensures var r := AcquireServiceIn(services, kind, name);
            r.1 < |r.0| && FindService(r.0, kind) == Some(r.1) &&
            (FindService(services, kind).Some? ==> r.0 == services) &&
            (FindService(services, kind).None? ==> r.0 == services + [Service(kind, name, Required(kind))])
  {
    FindServiceSpec(services, kind);
    var r := AcquireServiceIn(services, kind, name);
    if FindService(services, kind).None? {
      FindServiceSpec(r.0, kind);
      assert r.0[|services|].kind == kind;
      assert forall j :: 0 <= j < |services| ==> r.0[j] == services[j];
    }
  }

  /** `acquireCharacteristic`: the characteristics afterwards. The result
      holds `ch` and exactly what was there before, and grows by at most one. */
  function AcquireCharacteristicIn(chars: seq<CharKind>, ch: CharKind): seq<CharKind> {
    if ch in chars then chars else chars + [ch]
  }

  lemma AcquireCharacteristicInSpec(chars: seq<CharKind>, ch: CharKind)
    ensures var r := AcquireCharacteristicIn(chars, ch);
            (forall c :: c in r <==> c in chars || c == ch) && |chars| <= |r| <= |chars| + 1
  {
  }

  /** Acquiring a characteristic twice adds it once. */
  lemma AcquireCharacteristicIdempotent(chars: seq<CharKind>, ch: CharKind)
    ensures AcquireCharacteristicIn(AcquireCharacteristicIn(chars, ch), ch) == AcquireCharacteristicIn(chars, ch)
  {
  }

  /** Acquiring a service twice returns the same service and adds it once. */
  lemma AcquireServiceIdempotent(services: seq<Service>, kind: ServiceKind, name: string, name': string)
    ensures var r := AcquireServiceIn(services, kind, name);
            AcquireServiceIn(r.0, kind, name') == r
  {
    AcquireServiceInSpec(services, kind, name);
  }

  /** No service kind occurs twice. */
  predicate DistinctKinds(services: seq<Service>) {
    forall i, j :: 0 <= i < j < |services| ==> services[i].kind != services[j].kind
  }

  /** No characteristic occurs twice. */
  predicate DistinctChars(chars: seq<CharKind>) {
    forall i, j :: 0 <= i < j < |chars| ==> chars[i] != chars[j]
  }

  /** Acquisition never duplicates a service or a characteristic. */
  lemma AcquireKeepsDistinct(services: seq<Service>, kind: ServiceKind, name: string,
                             chars: seq<CharKind>, ch: CharKind)
    ensures DistinctKinds(services) ==> DistinctKinds(AcquireServiceIn(services, kind, name).0)
    ensures DistinctChars(chars) ==> DistinctChars(AcquireCharacteristicIn(chars, ch))
  {
    FindServiceSpec(services, kind);
    if DistinctKinds(services) && FindService(services, kind).None? {
      var s' := AcquireServiceIn(services, kind, name).0;
      forall i, j | 0 <= i < j < |s'| ensures s'[i].kind != s'[j].kind {
        if j == |services| {
          assert services[i].kind != kind;
        } else {
          assert s'[i] == services[i] && s'[j] == services[j];
        }
      }
    }
  }

  /** The characteristics after acquiring each of `wanted` in turn. */
  function AcquireAll(chars: seq<CharKind>, wanted: seq<CharKind>): seq<CharKind>
    decreases |wanted|
  {
    if wanted == [] then chars else AcquireAll(AcquireCharacteristicIn(chars, wanted[0]), wanted[1..])
  }

  lemma {:induction false} AcquireAllContents(chars: seq<CharKind>, wanted: seq<CharKind>)
    ensures forall c :: c in AcquireAll(chars, wanted) <==> c in chars || c in wanted
    ensures (forall c :: c in wanted ==> c in chars) ==> AcquireAll(chars, wanted) == chars
    decreases |wanted|
  {
    if wanted != [] {
      AcquireAllContents(AcquireCharacteristicIn(chars, wanted[0]), wanted[1..]);
      assert forall c :: c in wanted <==> c == wanted[0] || c in wanted[1..];
    }
  }

  /** The services after one binding: the service is acquired (created
      under the device name plus the suffix when missing) and then each of
      its characteristics. */
  function ApplyBinding(services: seq<Service>, b: ServiceBinding, deviceName: string): seq<Service> {
    var r := AcquireServiceIn(services, b.kind, deviceName + b.suffix);
    r.0[r.1 := r.0[r.1].(characteristics := AcquireAll(r.0[r.1].characteristics, b.acquired))]
  }

  /** The services after a whole blueprint, binding by binding. */
  function ApplyBlueprint(services: seq<Service>, bp: seq<ServiceBinding>, deviceName: string): seq<Service>
    decreases |bp|
  {
    if bp == [] then services else ApplyBlueprint(ApplyBinding(services, bp[0], deviceName), bp[1..], deviceName)
  }

  /** The service of the binding's kind exists and holds the characteristics it acquires. */
  predicate Satisfies(services: seq<Service>, b: ServiceBinding) {
    var i := FindService(services, b.kind);
    i.Some? && forall c :: c in b.acquired ==> c in services[i.value].characteristics
  }

  /** `t` is `s` with services appended or characteristics added, nothing removed. */
  predicate Grows(s: seq<Service>, t: seq<Service>) {
    |s| <= |t| &&
    forall i :: 0 <= i < |s| ==>
      t[i].kind == s[i].kind && forall c :: c in s[i].characteristics ==> c in t[i].characteristics
  }

  lemma GrowsTransitive(s: seq<Service>, t: seq<Service>, u: seq<Service>)
    requires Grows(s, t) && Grows(t, u)
    ensures Grows(s, u)
  {
  }

  lemma GrowsKeepsFind(s: seq<Service>, t: seq<Service>, kind: ServiceKind)
    requires Grows(s, t) && FindService(s, kind).Some?
    ensures FindService(t, kind) == FindService(s, kind)
  {
    var i := FindService(s, kind).value;
    FindServiceSpec(s, kind);
    forall j | 0 <= j < i ensures t[j].kind != kind {
      assert t[j].kind == s[j].kind;
    }
    FindServiceAt(t, kind, i);
  }

  lemma GrowsKeepsSatisfies(s: seq<Service>, t: seq<Service>, b: ServiceBinding)
    requires Grows(s, t) && Satisfies(s, b)
    ensures Satisfies(t, b)
  {
    GrowsKeepsFind(s, t, b.kind);
  }

  /** One binding only adds, leaves the services well formed, and is satisfied afterwards. */
  lemma ApplyBindingEffect(s: seq<Service>, b: ServiceBinding, name: string)
    ensures Grows(s, ApplyBinding(s, b, name))
    ensures Satisfies(ApplyBinding(s, b, name), b)
    ensures AllWellFormed(s) ==> AllWellFormed(ApplyBinding(s, b, name))
    ensures DistinctKinds(s) ==> DistinctKinds(ApplyBinding(s, b, name))
  {
    var r := AcquireServiceIn(s, b.kind, name + b.suffix);
    var t := ApplyBinding(s, b, name);
    AcquireServiceInSpec(s, b.kind, name + b.suffix);
    AcquireAllContents(r.0[r.1].characteristics, b.acquired);
    AcquireKeepsDistinct(s, b.kind, name + b.suffix, [], On);
    assert Grows(r.0, t);
    assert Grows(s, r.0);
    GrowsTransitive(s, r.0, t);
    GrowsKeepsFind(r.0, t, b.kind);
    if AllWellFormed(s) {
      forall i | 0 <= i < |t| ensures WellFormed(t[i]) {
        assert WellFormed(r.0[i]);
      }
    }
    if DistinctKinds(s) {
      forall i, j | 0 <= i < j < |t| ensures t[i].kind != t[j].kind {
        assert t[i].kind == r.0[i].kind && t[j].kind == r.0[j].kind;
      }
    }
  }

  /** A binding that is already satisfied changes nothing. */
  lemma SatisfiedBindingUnchanged(s: seq<Service>, b: ServiceBinding, name: string)
    requires Satisfies(s, b)
    ensures ApplyBinding(s, b, name) == s
  {
    var i := FindService(s, b.kind).value;
    AcquireAllContents(s[i].characteristics, b.acquired);
  }

  /** A blueprint only adds, and every one of its bindings is satisfied afterwards. */
  lemma {:induction false} ApplyBlueprintEffect(s: seq<Service>, bp: seq<ServiceBinding>, name: string)
    ensures Grows(s, ApplyBlueprint(s, bp, name))
    ensures forall b :: b in bp ==> Satisfies(ApplyBlueprint(s, bp, name), b)
    ensures AllWellFormed(s) ==> AllWellFormed(ApplyBlueprint(s, bp, name))
    ensures DistinctKinds(s) ==> DistinctKinds(ApplyBlueprint(s, bp, name))
    decreases |bp|
  {
    if bp != [] {
      var s1 := ApplyBinding(s, bp[0], name);
      var t := ApplyBlueprint(s, bp, name);
      ApplyBindingEffect(s, bp[0], name);
      ApplyBlueprintEffect(s1, bp[1..], name);
      GrowsTransitive(s, s1, t);
      GrowsKeepsSatisfies(s1, t, bp[0]);
      forall b | b in bp ensures Satisfies(t, b) {
        if b != bp[0] {
          assert b in bp[1..];
        }
      }
    }
  }

  /** A blueprint whose bindings are all satisfied changes nothing. */
  lemma {:induction false} SatisfiedBlueprintUnchanged(s: seq<Service>, bp: seq<ServiceBinding>, name: string)
    requires forall b :: b in bp ==> Satisfies(s, b)
    ensures ApplyBlueprint(s, bp, name) == s
    decreases |bp|
  {
    if bp != [] {
      SatisfiedBindingUnchanged(s, bp[0], name);
      forall b | b in bp[1..] ensures Satisfies(s, b) {
        assert b in bp;
      }
      SatisfiedBlueprintUnchanged(s, bp[1..], name);
    }
  }

  /** Binding an accessory a second time, under any device name, adds no
      service and no characteristic: the services are exactly those the first
      binding left. */
  lemma BindTwiceAddsNothing(s: seq<Service>, bp: seq<ServiceBinding>, name: string, name': string)
    ensures ApplyBlueprint(ApplyBlueprint(s, bp, name), bp, name') == ApplyBlueprint(s, bp, name)
  {
    ApplyBlueprintEffect(s, bp, name);
    SatisfiedBlueprintUnchanged(ApplyBlueprint(s, bp, name), bp, name');
  }

  /** After a blueprint, every characteristic a binding acquires, and every
      one its service is created with, is found by `getService(..).getCharacteristic(..)`. */
  lemma BlueprintProvides(s: seq<Service>, bp: seq<ServiceBinding>, name: string, j: nat, c: CharKind)
    requires AllWellFormed(s) && j < |bp|
    requires c in bp[j].acquired || c in Required(bp[j].kind)
    ensures Provides(ApplyBlueprint(s, bp, name), bp[j].kind, c)
  {
    ApplyBlueprintEffect(s, bp, name);
    assert bp[j] in bp;
    var t := ApplyBlueprint(s, bp, name);
    if c in Required(bp[j].kind) {
      RequiredProvided(t, bp[j].kind, c);
    }
  }

  /** The identification `setAccessoryInformation` writes for a device. */
  function InformationOf(device: Devices.Device): Information
    reads device
  {
    Information(device.manufacturer, device.model, device.name + " [" + device.id + "]")
  }

  /** `acquireService`, on the host accessory. */
  method AcquireService(accessory: Accessory, kind: ServiceKind, name: string) returns (i: nat)
    requires accessory.Valid()
    modifies accessory`services
    ensures accessory.Valid()
    ensures (accessory.services, i) == AcquireServiceIn(old(accessory.services), kind, name)
  {
    var existing := FindService(accessory.services, kind);
    if existing.None? {
      i := |accessory.services|;
      accessory.services := accessory.services + [Service(kind, name, Required(kind))];
      assert WellFormed(accessory.services[i]);
    } else {
      i := existing.value;
    }
  }

  /** `acquireCharacteristic`, on the service at position `i`. */
  method AcquireCharacteristic(accessory: Accessory, i: nat, ch: CharKind)
    requires accessory.Valid() && i < |accessory.services|
    modifies accessory`services
    ensures accessory.Valid()
    ensures accessory.services ==
      old(accessory.services)[i := old(accessory.services)[i].(characteristics :=
        AcquireCharacteristicIn(old(accessory.services)[i].characteristics, ch))]
  {
    var s := accessory.services[i];
    var chars := s.characteristics;
    if ch !in chars {
      chars := chars + [ch];
    }
    accessory.services := accessory.services[i := s.(characteristics := chars)];
    assert WellFormed(accessory.services[i]);
  }

  /** The `acquireCharacteristic` calls a constructor makes on the service at
      position `i`, one per characteristic of `wanted`, in order. */
  method AcquireCharacteristics(accessory: Accessory, i: nat, wanted: seq<CharKind>)
    requires accessory.Valid() && i < |accessory.services|
    modifies accessory`services
    ensures accessory.Valid()
    ensures accessory.services ==
      old(accessory.services)[i := old(accessory.services)[i].(characteristics :=
        AcquireAll(old(accessory.services)[i].characteristics, wanted))]
    decreases |wanted|
  {
    if wanted != [] {
      ghost var s0 := accessory.services;
      AcquireCharacteristic(accessory, i, wanted[0]);
      ghost var s1 := accessory.services;
      AcquireCharacteristics(accessory, i, wanted[1..]);
      assert s1[i] == s0[i].(characteristics := AcquireCharacteristicIn(s0[i].characteristics, wanted[0]));
    }
  }

  /** One binding of a constructor: `acquireService` for the binding's
      service, named after the device, then `acquireCharacteristic` for each
      characteristic the binding lists. */
  method Bind(accessory: Accessory, b: ServiceBinding, deviceName: string)
    requires accessory.Valid()
    modifies accessory`services
    ensures accessory.Valid()
    ensures accessory.services == ApplyBinding(old(accessory.services), b, deviceName)
  {
    var i := AcquireService(accessory, b.kind, deviceName + b.suffix);
    AcquireCharacteristics(accessory, i, b.acquired);
  }

  /** All the bindings of a constructor, in order. */
  method BindAll(accessory: Accessory, bp: seq<ServiceBinding>, deviceName: string)
    requires accessory.Valid()
    modifies accessory`services
    ensures accessory.Valid()
    ensures accessory.services == ApplyBlueprint(old(accessory.services), bp, deviceName)
    decreases |bp|
  {
    if bp != [] {
      Bind(accessory, bp[0], deviceName);
      BindAll(accessory, bp[1..], deviceName);
    }
  }

  /** `setAccessoryInformation`. */
  method SetAccessoryInformation(accessory: Accessory, device: Devices.Device)
    modifies accessory`information
    ensures accessory.information == Some(InformationOf(device))
  {
    accessory.information := Some(InformationOf(device));
  }
}
