/** `AlmondPlatform`: the keyed cache of accessories, filled by the host with
    restored accessories (`configureAccessory`) and by the plugin with built
    ones (`addAccessory`), scanned in insertion order by `removeAccessory`,
    `updateAccessory` and `_pruneAccessories`. Registration with the host is
    kept as a log of register and unregister calls. */
module Platform {
  import opened JsValues
  import HomeKit
  import Devices
  import Dispatch
  import Binding
  import Lights
  import Thermostats
  import Sensors
  import Garage
  import Fans
  import Switches

  /** A built accessory: an instance of one of the plugin's classes. */
  datatype Almond =
    | MultilevelSwitch(multilevelSwitch: Lights.AlmondMultilevelSwitch)
    | MultilevelSwitchOnOff(multilevelSwitchOnOff: Lights.AlmondMultilevelSwitchOnOff)
    | Thermostat(thermostat: Thermostats.AlmondThermostat)
    | ContactSwitch(contactSwitch: Sensors.AlmondContactSwitch)
    | FireSensor(fireSensor: Sensors.AlmondFireSensor)
    | SmokeDetector(smokeDetector: Sensors.AlmondSmokeDetector)
    | GarageDoorOpener(garageDoorOpener: Garage.AlmondGarageDoorOpener)
    | GenericPsmFan(genericPsmFan: Fans.AlmondGenericPsmFan)
    | Click(click: Switches.AlmondClick)
    | BinarySwitch(binarySwitch: Switches.AlmondBinarySwitch)
    | Outlet(outlet: Switches.AlmondOutlet)

  function KindOf(a: Almond): Dispatch.Kind {
    match a
    case MultilevelSwitch(_) => Dispatch.AlmondMultilevelSwitch
    case MultilevelSwitchOnOff(_) => Dispatch.AlmondMultilevelSwitchOnOff
    case Thermostat(_) => Dispatch.AlmondThermostat
    case ContactSwitch(_) => Dispatch.AlmondContactSwitch
    case FireSensor(_) => Dispatch.AlmondFireSensor
    case SmokeDetector(_) => Dispatch.AlmondSmokeDetector
    case GarageDoorOpener(_) => Dispatch.AlmondGarageDoorOpener
    case GenericPsmFan(_) => Dispatch.AlmondGenericPsmFan
    case Click(_) => Dispatch.AlmondClick
    case BinarySwitch(_) => Dispatch.AlmondBinarySwitch
    case Outlet(_) => Dispatch.AlmondOutlet
  }

  /** `almondAccessory.accessory`. */
  function AccessoryOf(a: Almond): HomeKit.Accessory {
    match a
    case MultilevelSwitch(x) => x.accessory
    case MultilevelSwitchOnOff(x) => x.accessory
    case Thermostat(x) => x.accessory
    case ContactSwitch(x) => x.accessory
    case FireSensor(x) => x.accessory
    case SmokeDetector(x) => x.accessory
    case GarageDoorOpener(x) => x.accessory
    case GenericPsmFan(x) => x.accessory
    case Click(x) => x.accessory
    case BinarySwitch(x) => x.accessory
    case Outlet(x) => x.accessory
  }

  /** `almondAccessory.device`. */
  function DeviceOf(a: Almond): Devices.Device {
    match a
    case MultilevelSwitch(x) => x.device
    case MultilevelSwitchOnOff(x) => x.device
    case Thermostat(x) => x.device
    case ContactSwitch(x) => x.device
    case FireSensor(x) => x.device
    case SmokeDetector(x) => x.device
    case GarageDoorOpener(x) => x.device
    case GenericPsmFan(x) => x.device
    case Click(x) => x.device
    case BinarySwitch(x) => x.device
    case Outlet(x) => x.device
  }

  /** A cache entry: a built accessory, or an accessory the host restored
      that no device has claimed yet. */
  datatype Entry = Built(almond: Almond) | Cached(accessory: HomeKit.Accessory)

  /** The host accessory behind an entry. */
  function HostOf(e: Entry): HomeKit.Accessory {
    match e
    case Built(a) => AccessoryOf(a)
    case Cached(acc) => acc
  }

  /** What `removeAccessory` compares with `almondAccessory.device`: a device,
      or `undefined`, which is what a restored accessory's `.device` is. */
  datatype DeviceRef = NoDevice | Dev(device: Devices.Device)

  /** `almondAccessory.device === ref`. */
  predicate Matches(e: Entry, ref: DeviceRef) {
    match e
    case Built(a) => ref == Dev(DeviceOf(a))
    case Cached(_) => ref == NoDevice
  }

  datatype Registration = Register(accessory: HomeKit.Accessory) | Unregister(accessory: HomeKit.Accessory)

  /** `UUIDGen.generate("AlmondDevice: " + id)`. */
  function UuidOf(id: string): HomeKit.Uuid {
    HomeKit.Uuid("AlmondDevice: " + id)
  }

  /** Different devices get different UUIDs. */
  lemma UuidOfInjective(a: string, b: string)
    ensures UuidOf(a) == UuidOf(b) ==> a == b
  {
    var p := "AlmondDevice: ";
    if UuidOf(a) == UuidOf(b) {
      assert a == (p + a)[|p|..];
      assert b == (p + b)[|p|..];
    }
  }

  /** The position in `order` of the first entry matching `ref`, from `i` on. */
  function FirstMatchFrom(order: seq<HomeKit.Uuid>, entries: map<HomeKit.Uuid, Entry>, ref: DeviceRef, i: nat): (r: Option<nat>)
    requires forall k :: k in order ==> k in entries
    ensures r.Some? ==> i <= r.value < |order|
    decreases |order| - i
  {
    if i >= |order| then None
    else if Matches(entries[order[i]], ref) then Some(i)
    else FirstMatchFrom(order, entries, ref, i + 1)
  }

  /** The position of the first entry, in insertion order, matching `ref`. */
  function FirstMatch(order: seq<HomeKit.Uuid>, entries: map<HomeKit.Uuid, Entry>, ref: DeviceRef): (r: Option<nat>)
    requires forall k :: k in order ==> k in entries
    ensures r.Some? ==> r.value < |order|
  {
    FirstMatchFrom(order, entries, ref, 0)
  }

  /** The search finds the first match: nothing before it matches, and when
      it finds nothing, nothing matches. */
  lemma {:induction false} FirstMatchFromIsFirst(order: seq<HomeKit.Uuid>, entries: map<HomeKit.Uuid, Entry>, ref: DeviceRef, i: nat)
    requires forall k :: k in order ==> k in entries
    ensures var r := FirstMatchFrom(order, entries, ref, i);
            (r.Some? ==> i <= r.value < |order| && Matches(entries[order[r.value]], ref) &&
                         forall j :: i <= j < r.value ==> !Matches(entries[order[j]], ref)) &&
            (r.None? ==> forall j :: i <= j < |order| ==> !Matches(entries[order[j]], ref))
    decreases |order| - i
  {
    if i < |order| && !Matches(entries[order[i]], ref) {
      FirstMatchFromIsFirst(order, entries, ref, i + 1);
    }
  }

  /** The keys of the entries that are built, in order. */
  function KeepBuilt(order: seq<HomeKit.Uuid>, entries: map<HomeKit.Uuid, Entry>): seq<HomeKit.Uuid>
    requires forall k :: k in order ==> k in entries
  {
    if order == [] then []
    else
      var last := order[|order| - 1];
      KeepBuilt(order[..|order| - 1], entries) + (if entries[last].Built? then [last] else [])
  }

  /** The unregistrations of the restored entries, in order. */
  function UnregisterStale(order: seq<HomeKit.Uuid>, entries: map<HomeKit.Uuid, Entry>): seq<Registration>
    requires forall k :: k in order ==> k in entries
  {
    if order == [] then []
    else
      var last := order[|order| - 1];
      UnregisterStale(order[..|order| - 1], entries) +
      (if entries[last].Cached? then [Unregister(entries[last].accessory)] else [])
  }

  /** No key appears twice. */
  ghost predicate Distinct(s: seq<HomeKit.Uuid>) {
    forall i, j :: 0 <= i < j < |s| ==> s[i] != s[j]
  }

  /** `KeepBuilt` keeps exactly the built keys, each once. */
  lemma {:induction false} KeepBuiltContents(order: seq<HomeKit.Uuid>, entries: map<HomeKit.Uuid, Entry>)
    requires forall k :: k in order ==> k in entries
    requires Distinct(order)
    ensures forall k :: k in KeepBuilt(order, entries) <==> k in order && entries[k].Built?
    ensures Distinct(KeepBuilt(order, entries))
  {
    if order != [] {
      var init := order[..|order| - 1];
      var last := order[|order| - 1];
      assert forall k :: k in order <==> k in init || k == last;
      KeepBuiltContents(init, entries);
      assert last !in init;
      assert last !in KeepBuilt(init, entries);
    }
  }

  /** Deleting one key from a list without repeats leaves a list without
      repeats holding every other key. */
  lemma RemoveAtDistinct(s: seq<HomeKit.Uuid>, i: nat)
    requires i < |s|
    requires Distinct(s)
    ensures Distinct(s[..i] + s[i + 1..])
    ensures forall k :: k in s[..i] + s[i + 1..] <==> k in s && k != s[i]
  {
    var t := s[..i] + s[i + 1..];
    assert forall a :: 0 <= a < |t| ==> t[a] == (if a < i then s[a] else s[a + 1]);
    forall k | k in s && k != s[i] ensures k in t {
      var a :| 0 <= a < |s| && s[a] == k;
      if a < i { assert t[a] == k; } else { assert t[a - 1] == k; }
    }
  }

  /** `buildAlmondAccessory` for the level devices: dimmers and the fan. */
  method BuildLevel(kind: Dispatch.Kind, accessory: HomeKit.Accessory, device: Devices.Device) returns (almond: Almond)
    requires kind == Dispatch.AlmondMultilevelSwitch || kind == Dispatch.AlmondMultilevelSwitchOnOff || kind == Dispatch.AlmondGenericPsmFan
    requires accessory.Valid()
    modifies accessory
    ensures KindOf(almond) == kind && AccessoryOf(almond) == accessory && DeviceOf(almond) == device
    ensures accessory.information == Some(Binding.InformationOf(device))
    ensures accessory.services == Binding.ApplyBlueprint(old(accessory.services), Binding.Blueprint(kind), device.name)
    ensures accessory.notifications == old(accessory.notifications)
  {
    if kind == Dispatch.AlmondMultilevelSwitch {
      var x := new Lights.AlmondMultilevelSwitch(accessory, device);
      almond := MultilevelSwitch(x);
    } else if kind == Dispatch.AlmondMultilevelSwitchOnOff {
      var x := new Lights.AlmondMultilevelSwitchOnOff(accessory, device);
      almond := MultilevelSwitchOnOff(x);
    } else {
      var x := new Fans.AlmondGenericPsmFan(accessory, device);
      almond := GenericPsmFan(x);
    }
  }

  /** `buildAlmondAccessory` for the contact and fire sensors. */
  method BuildSensor(kind: Dispatch.Kind, accessory: HomeKit.Accessory, device: Devices.Device) returns (almond: Almond)
    requires kind == Dispatch.AlmondContactSwitch || kind == Dispatch.AlmondFireSensor
    requires accessory.Valid()
    modifies accessory
    ensures KindOf(almond) == kind && AccessoryOf(almond) == accessory && DeviceOf(almond) == device
    ensures accessory.information == Some(Binding.InformationOf(device))
    ensures accessory.services == Binding.ApplyBlueprint(old(accessory.services), Binding.Blueprint(kind), device.name)
    ensures accessory.notifications == old(accessory.notifications)
  {
    if kind == Dispatch.AlmondContactSwitch {
      var x := new Sensors.AlmondContactSwitch(accessory, device);
      almond := ContactSwitch(x);
    } else {
      var x := new Sensors.AlmondFireSensor(accessory, device);
      almond := FireSensor(x);
    }
  }

  /** `buildAlmondAccessory` for the smoke detector. */
  method BuildSmoke(accessory: HomeKit.Accessory, device: Devices.Device) returns (almond: Almond)
    requires accessory.Valid()
    modifies accessory
    ensures KindOf(almond) == Dispatch.AlmondSmokeDetector && AccessoryOf(almond) == accessory && DeviceOf(almond) == device
    ensures accessory.information == Some(Binding.InformationOf(device))
    ensures accessory.services ==
      Binding.ApplyBlueprint(old(accessory.services), Binding.Blueprint(Dispatch.AlmondSmokeDetector), device.name)
    ensures accessory.notifications == old(accessory.notifications)
  {
    var x := new Sensors.AlmondSmokeDetector(accessory, device);
    almond := SmokeDetector(x);
  }

  /** `buildAlmondAccessory` for the button. */
  method BuildClick(accessory: HomeKit.Accessory, device: Devices.Device) returns (almond: Almond)
    requires accessory.Valid()
    modifies accessory
    ensures KindOf(almond) == Dispatch.AlmondClick && AccessoryOf(almond) == accessory && DeviceOf(almond) == device
    ensures accessory.information == Some(Binding.InformationOf(device))
    ensures accessory.services ==
      Binding.ApplyBlueprint(old(accessory.services), Binding.Blueprint(Dispatch.AlmondClick), device.name)
    ensures accessory.notifications == old(accessory.notifications)
  {
    var x := new Switches.AlmondClick(accessory, device);
    almond := Click(x);
  }

  /** `buildAlmondAccessory` for the binary switch and the outlet. */
  method BuildSwitch(kind: Dispatch.Kind, accessory: HomeKit.Accessory, device: Devices.Device) returns (almond: Almond)
    requires kind == Dispatch.AlmondBinarySwitch || kind == Dispatch.AlmondOutlet
    requires accessory.Valid()
    modifies accessory
    ensures KindOf(almond) == kind && AccessoryOf(almond) == accessory && DeviceOf(almond) == device
    ensures accessory.information == Some(Binding.InformationOf(device))
    ensures accessory.services == Binding.ApplyBlueprint(old(accessory.services), Binding.Blueprint(kind), device.name)
    ensures accessory.notifications == old(accessory.notifications)
  {
    if kind == Dispatch.AlmondBinarySwitch {
      var x := new Switches.AlmondBinarySwitch(accessory, device);
      almond := BinarySwitch(x);
    } else {
      var x := new Switches.AlmondOutlet(accessory, device);
      almond := Outlet(x);
    }
  }

  /** `buildAlmondAccessory` for the thermostat and the garage door opener. */
  method BuildOther(kind: Dispatch.Kind, accessory: HomeKit.Accessory, device: Devices.Device) returns (almond: Almond)
    requires kind == Dispatch.AlmondThermostat || kind == Dispatch.AlmondGarageDoorOpener
    requires accessory.Valid()
    modifies accessory
    ensures KindOf(almond) == kind && AccessoryOf(almond) == accessory && DeviceOf(almond) == device
    ensures accessory.information == Some(Binding.InformationOf(device))
    ensures accessory.services == Binding.ApplyBlueprint(old(accessory.services), Binding.Blueprint(kind), device.name)
    ensures accessory.notifications == old(accessory.notifications)
  {
    if kind == Dispatch.AlmondThermostat {
      var x := new Thermostats.AlmondThermostat(accessory, device);
      almond := Thermostat(x);
    } else {
      var x := new Garage.AlmondGarageDoorOpener(accessory, device);
      almond := GarageDoorOpener(x);
    }
  }

  /** `buildAlmondAccessory`, once a class is picked: builds the class
      `kind` on `accessory` for `device`. */
  method Build(kind: Dispatch.Kind, accessory: HomeKit.Accessory, device: Devices.Device) returns (almond: Almond)
    requires accessory.Valid()
    modifies accessory
    ensures KindOf(almond) == kind && AccessoryOf(almond) == accessory && DeviceOf(almond) == device
    ensures accessory.information == Some(Binding.InformationOf(device))
    ensures accessory.services == Binding.ApplyBlueprint(old(accessory.services), Binding.Blueprint(kind), device.name)
    ensures accessory.notifications == old(accessory.notifications)
  {
    match kind
    case AlmondMultilevelSwitch | AlmondMultilevelSwitchOnOff | AlmondGenericPsmFan =>
      almond := BuildLevel(kind, accessory, device);
    case AlmondContactSwitch | AlmondFireSensor =>
      almond := BuildSensor(kind, accessory, device);
    case AlmondSmokeDetector =>
      almond := BuildSmoke(accessory, device);
    case AlmondClick =>
      almond := BuildClick(accessory, device);
    case AlmondBinarySwitch | AlmondOutlet =>
      almond := BuildSwitch(kind, accessory, device);
    case AlmondThermostat | AlmondGarageDoorOpener =>
      almond := BuildOther(kind, accessory, device);
  }

  /** The cache's shape: `order` lists each key once, the host accessory of
      every entry carries the entry's key as its UUID, and a built entry sits
      under its device's UUID. */
  ghost predicate Consistent(order: seq<HomeKit.Uuid>, entries: map<HomeKit.Uuid, Entry>) {
    Distinct(order) &&
    (forall k :: k in entries <==> k in order) &&
    (forall k :: k in entries ==> HostOf(entries[k]).uuid == k) &&
    (forall k :: k in entries && entries[k].Built? ==> k == UuidOf(DeviceOf(entries[k].almond).id))
  }

  /** `new PlatformAccessory(device.name, uuid)` followed by
      `buildAlmondAccessory`: the class `kind` built on a new accessory. */
  method BuildFresh(kind: Dispatch.Kind, uuid: HomeKit.Uuid, device: Devices.Device) returns (almond: Almond)
    ensures KindOf(almond) == kind && DeviceOf(almond) == device
    ensures var host := AccessoryOf(almond);
            fresh(host) && host.displayName == device.name && host.uuid == uuid &&
            host.information == Some(Binding.InformationOf(device)) && host.notifications == [] &&
            host.services == Binding.ApplyBlueprint([], Binding.Blueprint(kind), device.name)
  {
    var accessory := new HomeKit.Accessory(device.name, uuid);
    almond := Build(kind, accessory, device);
  }

  /** Storing an entry under its host's UUID keeps the cache's shape. */
  lemma StoreKeepsConsistent(order: seq<HomeKit.Uuid>, entries: map<HomeKit.Uuid, Entry>, key: HomeKit.Uuid, e: Entry)
    requires Consistent(order, entries)
    requires HostOf(e).uuid == key && (e.Built? ==> key == UuidOf(DeviceOf(e.almond).id))
    ensures Consistent(order + (if key in entries then [] else [key]), entries[key := e])
  {
    var o := order + (if key in entries then [] else [key]);
    assert forall k :: k in o <==> k in order || k == key;
  }

  /** Deleting the entry at position `i` of `order` keeps the cache's shape. */
  lemma DeleteKeepsConsistent(order: seq<HomeKit.Uuid>, entries: map<HomeKit.Uuid, Entry>, i: nat)
    requires Consistent(order, entries) && i < |order|
    ensures Consistent(order[..i] + order[i + 1..], entries - {order[i]})
  {
    RemoveAtDistinct(order, i);
  }

  /** Keeping only the built entries keeps the cache's shape. */
  lemma KeepBuiltConsistent(order: seq<HomeKit.Uuid>, entries: map<HomeKit.Uuid, Entry>)
    requires Consistent(order, entries)
    ensures Consistent(KeepBuilt(order, entries), map k | k in entries && entries[k].Built? :: entries[k])
  {
    KeepBuiltContents(order, entries);
    var m := map k | k in entries && entries[k].Built? :: entries[k];
    var r := KeepBuilt(order, entries);
    assert forall k :: k in m <==> k in r;
    assert forall k :: k in m ==> HostOf(m[k]).uuid == k;
    assert forall k :: k in m && m[k].Built? ==> k == UuidOf(DeviceOf(m[k].almond).id);
  }

  /** The stale pass unregisters exactly the restored accessories, each once
      per key. */
  lemma {:induction false} UnregisterStaleContents(order: seq<HomeKit.Uuid>, entries: map<HomeKit.Uuid, Entry>)
    requires forall k :: k in order ==> k in entries
    ensures forall r :: r in UnregisterStale(order, entries) <==>
              exists k :: k in order && entries[k].Cached? && r == Unregister(entries[k].accessory)
    ensures |UnregisterStale(order, entries)| + |KeepBuilt(order, entries)| == |order|
  {
    if order != [] {
      var init := order[..|order| - 1];
      var last := order[|order| - 1];
      assert forall k :: k in order <==> k in init || k == last;
      UnregisterStaleContents(init, entries);
    }
  }

  /** One more key at the end adds at most one entry to each list. */
  lemma StaleSnoc(order: seq<HomeKit.Uuid>, entries: map<HomeKit.Uuid, Entry>, key: HomeKit.Uuid)
    requires forall k :: k in order ==> k in entries
    requires key in entries
    ensures KeepBuilt(order + [key], entries) ==
            KeepBuilt(order, entries) + (if entries[key].Built? then [key] else [])
    ensures UnregisterStale(order + [key], entries) ==
            UnregisterStale(order, entries) + (if entries[key].Cached? then [Unregister(entries[key].accessory)] else [])
  {
    assert (order + [key])[..|order|] == order;
  }

  /** The cache after the stale pass has visited the first `i` keys of
      `order`: the restored entries among them are gone. */
  ghost function Pruned(order: seq<HomeKit.Uuid>, entries: map<HomeKit.Uuid, Entry>, i: nat): map<HomeKit.Uuid, Entry>
    requires i <= |order|
  {
    map k | k in entries && (k in order[..i] ==> entries[k].Built?) :: entries[k]
  }

  /** Visiting one more key deletes it when it is restored. */
  lemma PrunedStep(order: seq<HomeKit.Uuid>, entries: map<HomeKit.Uuid, Entry>, i: nat)
    requires i < |order| && order[i] in entries
    ensures Pruned(order, entries, i + 1) ==
            if entries[order[i]].Cached? then Pruned(order, entries, i) - {order[i]} else Pruned(order, entries, i)
  {
    assert order[..i + 1] == order[..i] + [order[i]];
  }

  /** Once every key is visited, only the built entries are left. */
  lemma PrunedDone(order: seq<HomeKit.Uuid>, entries: map<HomeKit.Uuid, Entry>)
    requires forall k :: k in entries ==> k in order
    ensures Pruned(order, entries, |order|) == map k | k in entries && entries[k].Built? :: entries[k]
  {
    assert order[..|order|] == order;
  }

  /** The stale pass over the cache's keys in order: each restored entry is
      unregistered and dropped, each built entry is kept. */
  method StalePass(keys: seq<HomeKit.Uuid>, e0: map<HomeKit.Uuid, Entry>)
    returns (kept: seq<HomeKit.Uuid>, entries: map<HomeKit.Uuid, Entry>, unregs: seq<Registration>)
    requires forall k :: k in keys ==> k in e0
    ensures kept == KeepBuilt(keys, e0)
    ensures entries == Pruned(keys, e0, |keys|)
    ensures unregs == UnregisterStale(keys, e0)
  {
    kept, entries, unregs := [], e0, [];
    var i := 0;
    assert keys[..0] == [];
    while i < |keys|
      invariant 0 <= i <= |keys|
      invariant kept == KeepBuilt(keys[..i], e0)
      invariant unregs == UnregisterStale(keys[..i], e0)
      invariant entries == Pruned(keys, e0, i)
      decreases |keys| - i
    {
      var key := keys[i];
      assert keys[..i + 1] == keys[..i] + [key];
      StaleSnoc(keys[..i], e0, key);
      PrunedStep(keys, e0, i);
      if e0[key].Cached? {
        unregs := unregs + [Unregister(e0[key].accessory)];
        entries := entries - {key};
      } else {
        kept := kept + [key];
      }
      i := i + 1;
    }
    assert keys[..i] == keys;
  }

  class AlmondPlatform {
    const config: Dispatch.Config
    /** The cache's keys in insertion order, the order `for...in` visits them. */
    var order: seq<HomeKit.Uuid>
    /** `this.accessories`. */
    var entries: map<HomeKit.Uuid, Entry>
    /** Every `registerPlatformAccessories` and `unregisterPlatformAccessories` call. */
    var registry: seq<Registration>

    /** The host accessories the cache holds. */
    ghost function Hosts(): set<HomeKit.Accessory>
      reads this
    {
      set k | k in entries :: HostOf(entries[k])
    }

    ghost predicate Valid()
      reads this, Hosts()
    {
      Consistent(order, entries) &&
      forall k :: k in entries && entries[k].Cached? ==> entries[k].accessory.Valid()
    }

    constructor (config: Dispatch.Config)
      ensures Valid() && this.config == config
      ensures order == [] && entries == map[] && registry == []
    {
      this.config := config;
      order := [];
      entries := map[];
      registry := [];
    }

    /** `getConfigFlag(device.id, "skip")` is truthy, or the device has no `props`. */
    predicate Skipped(device: Devices.Device) {
      Truthy(Dispatch.GetConfigFlag(config, device.id, "skip")) || device.props.None?
    }

    /** The class `buildAlmondAccessory` picks for the device. */
    function KindFor(device: Devices.Device): Option<Dispatch.Kind>
      reads device
    {
      Dispatch.BuildKind(device.deviceType, device.manufacturer, device.model,
                         Dispatch.GetConfigFlag(config, device.id, "setupAs"),
                         device.PropId("SwitchBinary").Some?)
    }

    /** `configureAccessory`: the host hands over a restored accessory, which
        is cached under its UUID. */
    method ConfigureAccessory(accessory: HomeKit.Accessory)
      requires Valid() && accessory.Valid()
      modifies this`entries, this`order
      ensures Valid()
      ensures entries == old(entries)[accessory.uuid := Cached(accessory)]
      ensures order == old(order) + (if accessory.uuid in old(entries) then [] else [accessory.uuid])
    {
      StoreKeepsConsistent(order, entries, accessory.uuid, Cached(accessory));
      if accessory.uuid !in entries {
        order := order + [accessory.uuid];
      }
      entries := entries[accessory.uuid := Cached(accessory)];
    }

    /** The index of the first entry matching `ref`. */
    method FindMatch(ref: DeviceRef) returns (r: Option<nat>)
      requires Valid()
      ensures r == FirstMatch(order, entries, ref)
    {
      var i := 0;
      while i < |order|
        invariant 0 <= i <= |order|
        invariant FirstMatchFrom(order, entries, ref, i) == FirstMatch(order, entries, ref)
        decreases |order| - i
      {
        if Matches(entries[order[i]], ref) {
          return Some(i);
        }
        i := i + 1;
      }
      return None;
    }

    /** `addAccessory`. Nothing changes for a skipped device, a device without
        `props` or one no class supports. Otherwise the class is built on the
        restored accessory cached under the device's UUID, or on a new one
        that is then registered, and the built accessory takes that key. When
        the key already holds a built accessory the build throws (`ok` is
        false) before anything changes. */
    method AddAccessory(device: Devices.Device) returns (ok: bool)
      requires Valid()
      modifies this`entries, this`order, this`registry, Hosts()
      ensures Valid()
      ensures forall k :: k in old(entries) && k != UuidOf(device.id) ==> unchanged(HostOf(old(entries)[k]))
      ensures Skipped(device) || KindFor(device).None? || !ok ==>
              forall k :: k in old(entries) ==> unchanged(HostOf(old(entries)[k]))
      ensures var uuid := UuidOf(device.id);
              var unsupported := Skipped(device) || KindFor(device).None?;
              var existing := uuid in old(entries);
              (ok <==> unsupported || !existing || old(entries)[uuid].Cached?) &&
              (unsupported || !ok ==> entries == old(entries) && order == old(order) && registry == old(registry)) &&
              (!unsupported && ok ==>
                 uuid in entries && entries[uuid].Built? &&
                 KindOf(entries[uuid].almond) == KindFor(device).value &&
                 DeviceOf(entries[uuid].almond) == device &&
                 entries == old(entries)[uuid := entries[uuid]] &&
                 order == old(order) + (if existing then [] else [uuid]) &&
                 registry == old(registry) + (if existing then [] else [Register(AccessoryOf(entries[uuid].almond))]))
      ensures var uuid := UuidOf(device.id);
              !Skipped(device) && KindFor(device).Some? && ok ==>
              var host := AccessoryOf(entries[uuid].almond);
              (uuid in old(entries) ==> host == old(entries)[uuid].accessory) &&
              (uuid !in old(entries) ==> fresh(host) && host.displayName == device.name) &&
              host.services == Binding.ApplyBlueprint(
                if uuid in old(entries) then old(entries[uuid].accessory.services) else [],
                Binding.Blueprint(KindFor(device).value), device.name)
      ensures var uuid := UuidOf(device.id);
              !Skipped(device) && KindFor(device).Some? && ok ==>
              var host := AccessoryOf(entries[uuid].almond);
              host.information == Some(Binding.InformationOf(device)) &&
              host.notifications == (if uuid in old(entries) then old(entries[uuid].accessory.notifications) else [])
    {
      ok := true;
      if Truthy(Dispatch.GetConfigFlag(config, device.id, "skip")) || device.props.None? {
        return;
      }
      var uuid := UuidOf(device.id);
      var kind := KindFor(device);
      if kind.None? {
        return;
      }
      if uuid in entries && entries[uuid].Built? {
        // The built accessory has no `getService`: `setAccessoryInformation` throws.
        ok := false;
        return;
      }
      Install(uuid, kind.value, device);
    }

    /** The second half of `addAccessory`: builds the class on the restored
        accessory under `uuid`, or on a new accessory that is registered, and
        caches the result under `uuid`. */
    method Install(uuid: HomeKit.Uuid, kind: Dispatch.Kind, device: Devices.Device)
      requires Valid() && uuid == UuidOf(device.id)
      requires uuid in entries ==> entries[uuid].Cached?
      modifies this`entries, this`order, this`registry, Hosts()
      ensures Valid()
      ensures forall k :: k in old(entries) && k != uuid ==> unchanged(HostOf(old(entries)[k]))
      ensures uuid in entries && entries[uuid].Built? && entries == old(entries)[uuid := entries[uuid]]
      ensures var a := entries[uuid].almond;
              KindOf(a) == kind && DeviceOf(a) == device &&
              order == old(order) + (if uuid in old(entries) then [] else [uuid]) &&
              registry == old(registry) + (if uuid in old(entries) then [] else [Register(AccessoryOf(a))]) &&
              (uuid in old(entries) ==> AccessoryOf(a) == old(entries[uuid].accessory)) &&
              (uuid !in old(entries) ==> fresh(AccessoryOf(a)) && AccessoryOf(a).displayName == device.name) &&
              AccessoryOf(a).services == Binding.ApplyBlueprint(
                if uuid in old(entries) then old(entries[uuid].accessory.services) else [],
                Binding.Blueprint(kind), device.name)
      ensures var host := AccessoryOf(entries[uuid].almond);
              host.information == Some(Binding.InformationOf(device)) &&
              host.notifications == (if uuid in old(entries) then old(entries[uuid].accessory.notifications) else [])
    {
      if uuid in entries {
        InstallRestored(uuid, kind, device);
      } else {
        InstallFresh(uuid, kind, device);
      }
    }

    /** `addAccessory` on the restored accessory cached under `uuid`. */
    method InstallRestored(uuid: HomeKit.Uuid, kind: Dispatch.Kind, device: Devices.Device)
      requires Valid() && uuid == UuidOf(device.id)
      requires uuid in entries && entries[uuid].Cached?
      modifies this`entries, entries[uuid].accessory
      ensures Valid()
      ensures forall k :: k in old(entries) && k != uuid ==> unchanged(HostOf(old(entries)[k]))
      ensures uuid in entries && entries[uuid].Built? && entries == old(entries)[uuid := entries[uuid]]
      ensures var a := entries[uuid].almond;
              KindOf(a) == kind && DeviceOf(a) == device && AccessoryOf(a) == old(entries[uuid].accessory) &&
              AccessoryOf(a).services == Binding.ApplyBlueprint(old(entries[uuid].accessory.services), Binding.Blueprint(kind), device.name)
      ensures var host := AccessoryOf(entries[uuid].almond);
              host.information == Some(Binding.InformationOf(device)) &&
              host.notifications == old(entries[uuid].accessory.notifications)
    {
      var accessory := entries[uuid].accessory;
      var almond := Build(kind, accessory, device);
      forall k | k in entries && k != uuid ensures unchanged(HostOf(entries[k])) {
        assert HostOf(entries[k]).uuid == k;
      }
      StoreKeepsConsistent(order, entries, uuid, Built(almond));
      entries := entries[uuid := Built(almond)];
    }

    /** `addAccessory` on a new accessory, which is registered. */
    method InstallFresh(uuid: HomeKit.Uuid, kind: Dispatch.Kind, device: Devices.Device)
      requires Valid() && uuid == UuidOf(device.id)
      requires uuid !in entries
      modifies this`entries, this`order, this`registry
      ensures Valid()
      ensures forall k :: k in old(entries) ==> unchanged(HostOf(old(entries)[k]))
      ensures uuid in entries && entries[uuid].Built? && entries == old(entries)[uuid := entries[uuid]]
      ensures var a := entries[uuid].almond;
              KindOf(a) == kind && DeviceOf(a) == device &&
              order == old(order) + [uuid] && registry == old(registry) + [Register(AccessoryOf(a))] &&
              fresh(AccessoryOf(a)) && AccessoryOf(a).displayName == device.name &&
              AccessoryOf(a).services == Binding.ApplyBlueprint([], Binding.Blueprint(kind), device.name)
      ensures var host := AccessoryOf(entries[uuid].almond);
              host.information == Some(Binding.InformationOf(device)) && host.notifications == []
    {
      var almond := BuildFresh(kind, uuid, device);
      forall k | k in entries ensures unchanged(HostOf(entries[k])) { }
      StoreKeepsConsistent(order, entries, uuid, Built(almond));
      registry := registry + [Register(AccessoryOf(almond))];
      order := order + [uuid];
      entries := entries[uuid := Built(almond)];
      forall k | k in entries && entries[k].Cached? ensures entries[k].accessory.Valid() {
        assert k != uuid && entries[k] == old(entries[k]);
      }
      assert entries[uuid].almond == almond;
    }

    /** `removeAccessory(ref)`: the first entry, in insertion order, whose
        device is `ref` is unregistered and deleted, and no other entry
        changes; nothing happens when none matches. A restored accessory
        matches `undefined`, and reading its `.accessory.displayName` then
        throws (`ok` is false) before anything changes. */
    method RemoveAccessory(ref: DeviceRef) returns (ok: bool)
      requires Valid()
      modifies this`entries, this`order, this`registry
      ensures Valid()
      ensures var m := FirstMatch(old(order), old(entries), ref);
              (ok <==> m.None? || old(entries)[old(order)[m.value]].Built?) &&
              (m.None? || !ok ==> entries == old(entries) && order == old(order) && registry == old(registry)) &&
              (m.Some? && ok ==>
                 var key := old(order)[m.value];
                 entries == old(entries) - {key} &&
                 order == old(order)[..m.value] + old(order)[m.value + 1..] &&
                 registry == old(registry) + [Unregister(HostOf(old(entries)[key]))])
    {
      var found := FindMatch(ref);
      if found.None? {
        return true;
      }
      var i := found.value;
      FirstMatchFromIsFirst(order, entries, ref, 0);
      var key := order[i];
      if entries[key].Cached? {
        // `almondAccessory.accessory` is undefined for a restored accessory.
        return false;
      }
      registry := registry + [Unregister(HostOf(entries[key]))];
      DeleteKeepsConsistent(order, entries, i);
      entries := entries - {key};
      order := order[..i] + order[i + 1..];
      ok := true;
    }

    /** `updateAccessory(device)`: the first built entry for the device gets
        the device's identification again; the cache itself does not change. */
    method UpdateAccessory(device: Devices.Device)
      requires Valid()
      modifies Hosts()
      ensures Valid()
      ensures entries == old(entries) && order == old(order) && registry == old(registry)
      ensures var m := FirstMatch(order, entries, Dev(device));
              m.Some? ==> var host := HostOf(entries[order[m.value]]);
                          host.information == Some(Binding.InformationOf(device)) &&
                          host.services == old(host.services) && host.notifications == old(host.notifications)
      ensures var m := FirstMatch(order, entries, Dev(device));
              forall h :: h in Hosts() && (m.None? || h != HostOf(entries[order[m.value]])) ==> unchanged(h)
    {
      var found := FindMatch(Dev(device));
      if found.Some? {
        FirstMatchFromIsFirst(order, entries, Dev(device), 0);
        var key := order[found.value];
        var host := HostOf(entries[key]);
        Binding.SetAccessoryInformation(host, device);
      }
    }

    /** `_pruneAccessories`, as written: at the first restored entry it calls
        `removeAccessory(accessory.device)`, that is `removeAccessory(undefined)`,
        which throws on the first restored entry. So it removes nothing, and
        `ok` is false exactly when some restored entry is left. */
    method PruneAccessories() returns (ok: bool)
      requires Valid()
      modifies this`entries, this`order, this`registry
      ensures Valid()
      ensures entries == old(entries) && order == old(order) && registry == old(registry)
      ensures ok <==> forall k :: k in entries ==> entries[k].Built?
    {
      var i := 0;
      while i < |order|
        invariant 0 <= i <= |order|
        invariant entries == old(entries) && order == old(order) && registry == old(registry)
        invariant forall j :: 0 <= j < i ==> entries[order[j]].Built?
        decreases |order| - i
      {
        if entries[order[i]].Cached? {
          FirstMatchFromIsFirst(order, entries, NoDevice, 0);
          assert FirstMatch(order, entries, NoDevice).Some?;
          ok := RemoveAccessory(NoDevice);
          return;
        }
        i := i + 1;
      }
      ok := true;
    }

    /** `_pruneAccessories` as its comment intends: every restored entry that
        no device claimed is unregistered and deleted, in order, and every
        built entry stays as it is. */
    method PruneStale()
      requires Valid()
      modifies this`entries, this`order, this`registry
      ensures Valid()
      ensures order == KeepBuilt(old(order), old(entries))
      ensures entries == map k | k in old(entries) && old(entries)[k].Built? :: old(entries)[k]
      ensures registry == old(registry) + UnregisterStale(old(order), old(entries))
    {
      var kept, rest, unregs := StalePass(order, entries);
      KeepBuiltConsistent(order, entries);
      PrunedDone(order, entries);
      registry := registry + unregs;
      entries := rest;
      order := kept;
    }
  }
}
