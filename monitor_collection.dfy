/** The monitor registry (MonitorCollection): it holds the physical monitor
    devices of the last refresh and one MonitorInstance per usable WMI
    monitor, and keeps a WMI event watcher per event exactly while that event
    has subscribers. */
module Registry {
  import opened CSharp
  import opened PropertyDataExtensions
  import opened PhysicalMonitors
  import opened DevicePaths
  import opened Platform
  import opened NativeApi
  import opened Runtime
  import opened Instances

  /** A subscribed event handler, by identity. Delegates are never null here. */
  type Handler = nat

  function BrightnessObjectNamed(name: CsString): BrightnessObject -> bool
  {
    (o: BrightnessObject) => o.instanceName == name
  }

  function MethodsObjectNamed(name: CsString): CsString -> bool
  {
    (n: CsString) => n == name
  }

  /** The number of WmiMonitorBrightness / WmiMonitorBrightnessMethods
      objects with the instance name. */
  function BrightnessCount(wmi: WmiState, name: CsString): nat
  {
    Count(wmi.brightnessObjects, BrightnessObjectNamed(name))
  }

  function MethodsCount(wmi: WmiState, name: CsString): nat
  {
    Count(wmi.brightnessMethods, MethodsObjectNamed(name))
  }

  /** The identity strings of a WmiMonitorID object, decoded. */
  function InstanceFor(id: MonitorIdObject, channel: Channel): (x: MonitorInstance)
    ensures x.instanceName == id.instanceName && x.channel == channel
    ensures x.manufacturerName == NulTerminated(id.manufacturerName)
    ensures x.productCodeId == NulTerminated(id.productCodeId)
    ensures x.serialNumberId == NulTerminated(id.serialNumberId)
  {
    MonitorInstance(id.instanceName, NulTerminated(id.manufacturerName), NulTerminated(id.productCodeId),
                    NulTerminated(id.serialNumberId), channel)
  }

  /** What Refresh makes of one WmiMonitorID object: a WMI instance when
      exactly one brightness object and one brightness-methods object carry
      its name; otherwise a handle instance bound to the first held device
      whose DeviceId is the derived path, or nothing. Two objects with the
      same name throw InvalidOperationException (SingleOrDefault); a name
      not ending in "_0" that reaches the path derivation throws
      NotSupportedException. */
  function Classify(id: MonitorIdObject, wmi: WmiState, devices: seq<PhysicalMonitorDevice>): Result<Option<MonitorInstance>>
  {
    var name := id.instanceName;
    var brightnessObject := SingleOrDefault(wmi.brightnessObjects, BrightnessObjectNamed(name));
    if brightnessObject.Throw? then Throw(brightnessObject.error)
    else
      var methodsObject := SingleOrDefault(wmi.brightnessMethods, MethodsObjectNamed(name));
      if methodsObject.Throw? then Throw(methodsObject.error)
      else if brightnessObject.value.Some? && methodsObject.value.Some? then Ok(Some(InstanceFor(id, Wmi)))
      else
        match FindPhysicalMonitorInfo(name, devices)
        case Throw(e) => Throw(e)
        case Ok(None) => Ok(None)
        case Ok(Some(d)) => Ok(Some(InstanceFor(id, Pmd(d))))
  }

  /** The classification by cases: WMI exactly when both WMI classes have
      one object with the name, otherwise the first device with the derived
      path, or nothing; with its two exceptions. */
  lemma ClassifyCases(id: MonitorIdObject, wmi: WmiState, devices: seq<PhysicalMonitorDevice>)
    ensures var r := Classify(id, wmi, devices);
      var name := id.instanceName;
      var viaWmi := BrightnessCount(wmi, name) == 1 && MethodsCount(wmi, name) == 1;
      && (r.Throw? <==> BrightnessCount(wmi, name) > 1 || MethodsCount(wmi, name) > 1 || (!viaWmi && !EndsWith(name, OrdinalSuffix)))
      && (r.Throw? && (BrightnessCount(wmi, name) > 1 || MethodsCount(wmi, name) > 1) ==> r.error == InvalidOperation)
      && (r.Throw? && BrightnessCount(wmi, name) <= 1 && MethodsCount(wmi, name) <= 1 ==> r.error == NotSupported)
      && (r.Ok? && viaWmi ==> r.value == Some(InstanceFor(id, Wmi)))
      && (r.Ok? && !viaWmi ==> match FindPhysicalMonitorInfo(name, devices)
            case Ok(Some(d)) => r.value == Some(InstanceFor(id, Pmd(d)))
            case Ok(None) => r.value == None
            case Throw(_) => false)
  {
  }

  /** What classifying one monitor gives: an instance, nothing, or an
      exception. */
  type Outcome = Result<Option<MonitorInstance>>

  /** Classify applied to every enumerated WmiMonitorID object, in order. */
  function Outcomes(ids: seq<MonitorIdObject>, wmi: WmiState, devices: seq<PhysicalMonitorDevice>): (r: seq<Outcome>)
    ensures |r| == |ids|
    ensures forall j | 0 <= j < |ids| :: r[j] == Classify(ids[j], wmi, devices)
  {
    seq(|ids|, j requires 0 <= j < |ids| => Classify(ids[j], wmi, devices))
  }

  /** The instance loop of Refresh from monitor `i` on, over the monitors'
      outcomes: instances are appended in enumeration order; the first
      exception ends the loop with the instances added so far kept. */
  function BuildFrom(outcomes: seq<Outcome>, i: nat, acc: seq<MonitorInstance>): (seq<MonitorInstance>, Option<Exception>)
    requires i <= |outcomes|
    decreases |outcomes| - i
  {
    if i == |outcomes| then (acc, None)
    else
      match outcomes[i]
      case Throw(e) => (acc, Some(e))
      case Ok(None) => BuildFrom(outcomes, i + 1, acc)
      case Ok(Some(x)) => BuildFrom(outcomes, i + 1, acc + [x])
  }

  /** Reference definition: the instances of monitors `i..`, one for each
      monitor that yields one, in enumeration order. */
  function Kept(outcomes: seq<Outcome>, i: nat): seq<MonitorInstance>
    requires i <= |outcomes|
    decreases |outcomes| - i
  {
    if i == |outcomes| then []
    else (match outcomes[i] case Ok(Some(x)) => [x] case _ => []) + Kept(outcomes, i + 1)
  }

  /** Every monitor from `i` on classifies without an exception. */
  predicate AllOk(outcomes: seq<Outcome>, i: nat)
  {
    forall j | i <= j < |outcomes| :: outcomes[j].Ok?
  }

  /** The loop completes exactly when every monitor classifies, and then
      holds the reference instances after those it started with. */
  lemma {:induction false} BuildFromKept(outcomes: seq<Outcome>, i: nat, acc: seq<MonitorInstance>)
    requires i <= |outcomes|
    ensures var (xs, thrown) := BuildFrom(outcomes, i, acc);
      && (thrown.None? <==> AllOk(outcomes, i))
      && (thrown.None? ==> xs == acc + Kept(outcomes, i))
    decreases |outcomes| - i
  {
    if i < |outcomes| {
      var c := outcomes[i];
      if c.Ok? {
        var head := if c.value.Some? then [c.value.value] else [];
        assert acc + [] == acc;
        BuildFromKept(outcomes, i + 1, acc + head);
        assert acc + head + Kept(outcomes, i + 1) == acc + (head + Kept(outcomes, i + 1));
      }
    }
  }

  /** An exception that ends the loop is the one some monitor classifies to. */
  lemma {:induction false} BuildFromThrows(outcomes: seq<Outcome>, i: nat, acc: seq<MonitorInstance>)
    requires i <= |outcomes|
    ensures var (xs, thrown) := BuildFrom(outcomes, i, acc);
      thrown.Some? ==> exists j | i <= j < |outcomes| :: outcomes[j] == Throw(thrown.value)
    decreases |outcomes| - i
  {
    if i < |outcomes| {
      match outcomes[i]
      case Throw(e) =>
      case Ok(None) =>
        BuildFromThrows(outcomes, i + 1, acc);
      case Ok(Some(x)) =>
        BuildFromThrows(outcomes, i + 1, acc + [x]);
    }
  }

  /** The reference instances keep enumeration order (at most one per
      monitor), each is what its monitor classifies to, and every monitor
      that yields an instance is represented; `names` are the monitors'
      instance names, which their instances carry. */
  lemma {:induction false} KeptFaithful(outcomes: seq<Outcome>, names: seq<CsString>, i: nat)
    requires i <= |outcomes| == |names|
    requires forall j | 0 <= j < |outcomes| && outcomes[j].Ok? && outcomes[j].value.Some? ::
      outcomes[j].value.value.instanceName == names[j]
    ensures var xs := Kept(outcomes, i);
      && |xs| <= |outcomes| - i
      && IsSubsequence(NamesOf(xs), names[i..])
      && (forall x | x in xs :: exists j | i <= j < |outcomes| :: outcomes[j] == Ok(Some(x)))
      && (forall j | i <= j < |outcomes| && outcomes[j].Ok? && outcomes[j].value.Some? :: outcomes[j].value.value in xs)
    decreases |outcomes| - i
  {
    var xs := Kept(outcomes, i);
    if i == |outcomes| {
      assert NamesOf(xs) == [];
    } else {
      KeptFaithful(outcomes, names, i + 1);
      var rest := Kept(outcomes, i + 1);
      assert names[i..][1..] == names[i + 1..];
      match outcomes[i]
      case Ok(Some(x)) =>
        assert xs == [x] + rest;
        assert NamesOf(xs)[1..] == NamesOf(rest);
        assert NamesOf(xs)[0] == x.instanceName == names[i..][0];
      case _ =>
        assert xs == rest;
    }
  }

  /** Refresh's instance list, when it completes, is in enumeration order
      with at most one instance per monitor, holds exactly what the
      monitors classify to, and every instance carries its monitor's name. */
  lemma RefreshInstancesFaithful(ids: seq<MonitorIdObject>, wmi: WmiState, devices: seq<PhysicalMonitorDevice>)
    ensures var (xs, thrown) := BuildFrom(Outcomes(ids, wmi, devices), 0, []);
      && (thrown.None? <==> forall j | 0 <= j < |ids| :: Classify(ids[j], wmi, devices).Ok?)
      && (thrown.Some? ==> exists j | 0 <= j < |ids| :: Classify(ids[j], wmi, devices) == Throw(thrown.value))
      && (thrown.None? ==>
            && |xs| <= |ids|
            && IsSubsequence(NamesOf(xs), InstanceNamesOf(ids))
            && (forall x | x in xs :: exists j | 0 <= j < |ids| :: Classify(ids[j], wmi, devices) == Ok(Some(x)))
            && (forall j | 0 <= j < |ids| && Classify(ids[j], wmi, devices).Ok? && Classify(ids[j], wmi, devices).value.Some? ::
                  Classify(ids[j], wmi, devices).value.value in xs))
  {
    var outcomes := Outcomes(ids, wmi, devices);
    var names := InstanceNamesOf(ids);
    forall j | 0 <= j < |outcomes| && outcomes[j].Ok? && outcomes[j].value.Some?
      ensures outcomes[j].value.value.instanceName == names[j]
    {
      ClassifyCases(ids[j], wmi, devices);
    }
    BuildFromKept(outcomes, 0, []);
    BuildFromThrows(outcomes, 0, []);
    KeptFaithful(outcomes, names, 0);
    assert names[0..] == names;
    assert [] + Kept(outcomes, 0) == Kept(outcomes, 0);
  }

  /** The instance names of `xs`, in order. */
  function NamesOf(xs: seq<MonitorInstance>): (r: seq<CsString>)
    ensures |r| == |xs|
    ensures forall i | 0 <= i < |xs| :: r[i] == xs[i].instanceName
  {
    seq(|xs|, i requires 0 <= i < |xs| => xs[i].instanceName)
  }

  class MonitorCollection {
    /** The native API with its process-wide capability cache. */
    const api: MonitorApi
    var physicalMonitorDevices: seq<PhysicalMonitorDevice>
    var monitorInstances: seq<MonitorInstance>
    var brightnessChanged: seq<Handler>
    var brightnessEventWatcher: ManagementEventWatcher?
    var deviceChanged: seq<Handler>
    var deviceChangeEventWatcher: ManagementEventWatcher?

    /** Each event's watcher exists exactly while the event has subscribers,
        and then runs its own query with the forwarding handler attached. */
    ghost predicate Valid()
      reads this, brightnessEventWatcher, deviceChangeEventWatcher
    {
      && (brightnessEventWatcher != null <==> brightnessChanged != [])
      && (brightnessEventWatcher != null ==>
            && brightnessEventWatcher.query == BrightnessEvents
            && brightnessEventWatcher.handlerAttached && brightnessEventWatcher.started && !brightnessEventWatcher.disposed)
      && (deviceChangeEventWatcher != null <==> deviceChanged != [])
      && (deviceChangeEventWatcher != null ==>
            && deviceChangeEventWatcher.query == DeviceChangeEvents
            && deviceChangeEventWatcher.handlerAttached && deviceChangeEventWatcher.started && !deviceChangeEventWatcher.disposed)
    }

    /** The field initialisers: both lists empty, no subscriber, no watcher. */
    constructor (api: MonitorApi)
      ensures this.api == api
      ensures physicalMonitorDevices == [] && monitorInstances == []
      ensures brightnessChanged == [] && deviceChanged == []
      ensures brightnessEventWatcher == null && deviceChangeEventWatcher == null
      ensures Valid()
    {
      this.api := api;
      physicalMonitorDevices, monitorInstances := [], [];
      brightnessChanged, deviceChanged := [], [];
      brightnessEventWatcher, deviceChangeEventWatcher := null, null;
    }

    /** new MonitorCollection(): the initialised collection, refreshed once.
        An exception from that refresh leaves the constructor, and the
        collection with the handles it already holds is lost. */
    static method Create(api: MonitorApi, machine: Machine) returns (r: Result<MonitorCollection>)
      modifies api, machine`destroyed
      ensures machine.destroyed == old(machine.destroyed)
      ensures r.Ok? ==> fresh(r.value) && r.value.api == api && r.value.Valid()
      ensures var (devices, cache) := EnumerateDevices(machine.adapters, old(api.capabilitiesCache));
        && api.capabilitiesCache == cache
        && var (instances, thrown) := BuildFrom(Outcomes(machine.wmi.monitorIds, machine.wmi, devices), 0, []);
        && (r.Ok? <==> thrown.None?)
        && (r.Throw? ==> r.error == thrown.value)
        && (r.Ok? ==> r.value.physicalMonitorDevices == devices && r.value.monitorInstances == instances)
    {
      var collection := new MonitorCollection(api);
      var thrown := collection.Refresh(machine);
      if thrown.Some? {
        return Throw(thrown.value);
      }
      return Ok(collection);
    }

    /** MonitorInstances: a copy of the instance list, so that later
        refreshes do not alter it. */
    method MonitorInstances() returns (snapshot: array<MonitorInstance>)
      ensures fresh(snapshot)
      ensures snapshot[..] == monitorInstances
    {
      var instances := monitorInstances;
      snapshot := new MonitorInstance[|instances|](i requires 0 <= i < |instances| => instances[i]);
    }

    /** Cleanup: the instance list is emptied, every held handle is
        destroyed once in order, and the device list is emptied. */
    method Cleanup(machine: Machine)
      modifies this, machine`destroyed
      ensures monitorInstances == [] && physicalMonitorDevices == []
      ensures machine.destroyed == old(machine.destroyed) + Handles(old(physicalMonitorDevices))
      ensures brightnessChanged == old(brightnessChanged) && brightnessEventWatcher == old(brightnessEventWatcher)
      ensures deviceChanged == old(deviceChanged) && deviceChangeEventWatcher == old(deviceChangeEventWatcher)
    {
      monitorInstances := [];
      var devices := physicalMonitorDevices;
      var h := 0;
      while h < |devices|
        invariant 0 <= h <= |devices|
        invariant machine.destroyed == old(machine.destroyed) + Handles(devices)[..h]
        invariant monitorInstances == [] && physicalMonitorDevices == devices
        invariant brightnessChanged == old(brightnessChanged) && brightnessEventWatcher == old(brightnessEventWatcher)
        invariant deviceChanged == old(deviceChanged) && deviceChangeEventWatcher == old(deviceChangeEventWatcher)
      {
        machine.destroyed := machine.destroyed + [devices[h].physicalMonitorHandle];
        h := h + 1;
      }
      assert Handles(devices)[..h] == Handles(devices);
      physicalMonitorDevices := [];
    }

    /** Refresh: the old handles are released, the devices are enumerated
        afresh and held, and each WmiMonitorID object is classified in
        enumeration order. An exception ends the refresh with the devices
        held and the instances added so far. */
    method Refresh(machine: Machine) returns (thrown: Option<Exception>)
      requires Valid()
      modifies this, api, machine`destroyed
      ensures Valid()
      ensures machine.destroyed == old(machine.destroyed) + Handles(old(physicalMonitorDevices))
      ensures (physicalMonitorDevices, api.capabilitiesCache) == EnumerateDevices(machine.adapters, old(api.capabilitiesCache))
      ensures (monitorInstances, thrown) == BuildFrom(Outcomes(machine.wmi.monitorIds, machine.wmi, physicalMonitorDevices), 0, [])
      ensures brightnessChanged == old(brightnessChanged) && brightnessEventWatcher == old(brightnessEventWatcher)
      ensures deviceChanged == old(deviceChanged) && deviceChangeEventWatcher == old(deviceChangeEventWatcher)
    {
      Cleanup(machine);
      var ids := machine.wmi.monitorIds;
      var wmi := machine.wmi;
      var devices := api.GetPhysicalMonitorDevices(machine.adapters);
      physicalMonitorDevices := physicalMonitorDevices + devices;
      assert physicalMonitorDevices == devices;
      monitorInstances, thrown := AddInstances(monitorInstances, ids, wmi, physicalMonitorDevices);
    }

    /** Refresh's loop over the enumerated monitors: each instance is
        appended to `instances` as it is made, so an exception leaves those
        already added in place. */
    static method AddInstances(instances: seq<MonitorInstance>, ids: seq<MonitorIdObject>, wmi: WmiState, devices: seq<PhysicalMonitorDevice>)
      returns (monitorInstances: seq<MonitorInstance>, thrown: Option<Exception>)
      ensures (monitorInstances, thrown) == BuildFrom(Outcomes(ids, wmi, devices), 0, instances)
    {
      ghost var outcomes := Outcomes(ids, wmi, devices);
      monitorInstances := instances;
      var i := 0;
      while i < |ids|
        invariant 0 <= i <= |ids|
        invariant BuildFrom(outcomes, i, monitorInstances) == BuildFrom(outcomes, 0, instances)
      {
        var outcome := ClassifyMonitor(ids[i], wmi, devices);
        if outcome.Throw? {
          return monitorInstances, Some(outcome.error);
        }
        if outcome.value.Some? {
          monitorInstances := monitorInstances + [outcome.value.value];
        }
        i := i + 1;
      }
      thrown := None;
    }

    /** One pass of Refresh's loop body for one WmiMonitorID object. */
    static method ClassifyMonitor(monitorIdObject: MonitorIdObject, wmi: WmiState, devices: seq<PhysicalMonitorDevice>) returns (r: Outcome)
      ensures r == Classify(monitorIdObject, wmi, devices)
    {
      var instanceName := monitorIdObject.instanceName;
      var brightnessObject := SingleOrDefault(wmi.brightnessObjects, BrightnessObjectNamed(instanceName));
      if brightnessObject.Throw? {
        return Throw(brightnessObject.error);
      }
      var methodsObject := SingleOrDefault(wmi.brightnessMethods, MethodsObjectNamed(instanceName));
      if methodsObject.Throw? {
        return Throw(methodsObject.error);
      }
      if brightnessObject.value.Some? && methodsObject.value.Some? {
        var manufacturerName := ReadStringFromUInt16ArrayValue(monitorIdObject.manufacturerName);
        var productCodeId := ReadStringFromUInt16ArrayValue(monitorIdObject.productCodeId);
        var serialNumberId := ReadStringFromUInt16ArrayValue(monitorIdObject.serialNumberId);
        return Ok(Some(MonitorInstance(instanceName, manufacturerName, productCodeId, serialNumberId, Wmi)));
      } else {
        var deviceId := DevicePath(instanceName);
        if deviceId.Throw? {
          return Throw(deviceId.error);
        }
        var physicalMonitorDevice := Find(devices, (d: PhysicalMonitorDevice) => d.deviceId == deviceId.value);
        if physicalMonitorDevice.Some? {
          var manufacturerName := ReadStringFromUInt16ArrayValue(monitorIdObject.manufacturerName);
          var productCodeId := ReadStringFromUInt16ArrayValue(monitorIdObject.productCodeId);
          var serialNumberId := ReadStringFromUInt16ArrayValue(monitorIdObject.serialNumberId);
          return Ok(Some(MonitorInstance(instanceName, manufacturerName, productCodeId, serialNumberId, Pmd(physicalMonitorDevice.value))));
        }
      }
      return Ok(None);
    }

    /** Dispose: Cleanup; the watchers are left as they are. */
    method Dispose(machine: Machine)
      modifies this, machine`destroyed
      ensures monitorInstances == [] && physicalMonitorDevices == []
      ensures machine.destroyed == old(machine.destroyed) + Handles(old(physicalMonitorDevices))
      ensures brightnessChanged == old(brightnessChanged) && brightnessEventWatcher == old(brightnessEventWatcher)
      ensures deviceChanged == old(deviceChanged) && deviceChangeEventWatcher == old(deviceChangeEventWatcher)
    {
      Cleanup(machine);
    }

    /** OnBrightnessEventArrived: the single instance with the event's
        instance name is passed to every subscriber, in subscription order;
        with no such instance nobody is called, and with two of them
        SingleOrDefault throws InvalidOperationException. */
    method OnBrightnessEventArrived(instanceName: CsString) returns (r: Result<seq<(Handler, MonitorInstance)>>)
      ensures r.Throw? <==> Count(monitorInstances, (x: MonitorInstance) => x.instanceName == instanceName) > 1
      ensures r.Throw? ==> r.error == InvalidOperation
      ensures r.Ok? && r.value != [] ==>
        && |r.value| == |brightnessChanged|
        && exists i | 0 <= i < |monitorInstances| :: monitorInstances[i].instanceName == instanceName
             && forall k | 0 <= k < |r.value| :: r.value[k] == (brightnessChanged[k], monitorInstances[i])
      ensures r.Ok? && r.value == [] ==>
        brightnessChanged == [] || forall i | 0 <= i < |monitorInstances| :: monitorInstances[i].instanceName != instanceName
    {
      var monitorInstance := SingleOrDefault(monitorInstances, (x: MonitorInstance) => x.instanceName == instanceName);
      if monitorInstance.Throw? {
        return Throw(monitorInstance.error);
      }
      var calls: seq<(Handler, MonitorInstance)> := [];
      if monitorInstance.value.Some? {
        var x := monitorInstance.value.value;
        var handlers := brightnessChanged;
        calls := seq(|handlers|, k requires 0 <= k < |handlers| => (handlers[k], x));
      }
      return Ok(calls);
    }

    /** OnDeviceChangeEventArrived: every subscriber is called once, in
        subscription order. */
    method OnDeviceChangeEventArrived() returns (called: seq<Handler>)
      ensures called == deviceChanged
    {
      called := deviceChanged;
    }

    /** BrightnessChanged += value: the handler is appended; the first
        subscriber creates, attaches and starts the watcher. */
    method AddBrightnessChanged(value: Handler)
      requires Valid()
      modifies this
      ensures Valid()
      ensures brightnessChanged == old(brightnessChanged) + [value]
      ensures old(brightnessEventWatcher) != null ==> brightnessEventWatcher == old(brightnessEventWatcher)
      ensures old(brightnessEventWatcher) == null ==> fresh(brightnessEventWatcher)
      ensures deviceChanged == old(deviceChanged) && deviceChangeEventWatcher == old(deviceChangeEventWatcher)
      ensures monitorInstances == old(monitorInstances) && physicalMonitorDevices == old(physicalMonitorDevices)
    {
      brightnessChanged := brightnessChanged + [value];
      if brightnessEventWatcher == null {
        var watcher := new ManagementEventWatcher(BrightnessEvents);
        watcher.Attach();
        watcher.Start();
        brightnessEventWatcher := watcher;
      }
    }

    /** BrightnessChanged -= value: the last occurrence of the handler is
        removed; when no subscriber is left the watcher is stopped, detached,
        disposed and dropped. */
    method RemoveBrightnessChanged(value: Handler)
      requires Valid()
      modifies this, brightnessEventWatcher
      ensures Valid()
      ensures brightnessChanged == RemoveLast(old(brightnessChanged), value)
      ensures brightnessChanged != [] ==> brightnessEventWatcher == old(brightnessEventWatcher)
      ensures brightnessChanged == [] && old(brightnessEventWatcher) != null ==>
        var w := old(brightnessEventWatcher); !w.started && !w.handlerAttached && w.disposed
      ensures deviceChanged == old(deviceChanged) && deviceChangeEventWatcher == old(deviceChangeEventWatcher)
      ensures monitorInstances == old(monitorInstances) && physicalMonitorDevices == old(physicalMonitorDevices)
    {
      brightnessChanged := RemoveLast(brightnessChanged, value);
      if brightnessChanged == [] && brightnessEventWatcher != null {
        brightnessEventWatcher.Stop();
        brightnessEventWatcher.Detach();
        brightnessEventWatcher.Dispose();
        brightnessEventWatcher := null;
      }
    }

    /** DeviceChanged += value. */
    method AddDeviceChanged(value: Handler)
      requires Valid()
      modifies this
      ensures Valid()
      ensures deviceChanged == old(deviceChanged) + [value]
      ensures old(deviceChangeEventWatcher) != null ==> deviceChangeEventWatcher == old(deviceChangeEventWatcher)
      ensures old(deviceChangeEventWatcher) == null ==> fresh(deviceChangeEventWatcher)
      ensures brightnessChanged == old(brightnessChanged) && brightnessEventWatcher == old(brightnessEventWatcher)
      ensures monitorInstances == old(monitorInstances) && physicalMonitorDevices == old(physicalMonitorDevices)
    {
      deviceChanged := deviceChanged + [value];
      if deviceChangeEventWatcher == null {
        var watcher := new ManagementEventWatcher(DeviceChangeEvents);
        watcher.Attach();
        watcher.Start();
        deviceChangeEventWatcher := watcher;
      }
    }

    /** DeviceChanged -= value. */
    method RemoveDeviceChanged(value: Handler)
      requires Valid()
      modifies this, deviceChangeEventWatcher
      ensures Valid()
      ensures deviceChanged == RemoveLast(old(deviceChanged), value)
      ensures deviceChanged != [] ==> deviceChangeEventWatcher == old(deviceChangeEventWatcher)
      ensures deviceChanged == [] && old(deviceChangeEventWatcher) != null ==>
        var w := old(deviceChangeEventWatcher); !w.started && !w.handlerAttached && w.disposed
      ensures brightnessChanged == old(brightnessChanged) && brightnessEventWatcher == old(brightnessEventWatcher)
      ensures monitorInstances == old(monitorInstances) && physicalMonitorDevices == old(physicalMonitorDevices)
    {
      deviceChanged := RemoveLast(deviceChanged, value);
      if deviceChanged == [] && deviceChangeEventWatcher != null {
        deviceChangeEventWatcher.Stop();
        deviceChangeEventWatcher.Detach();
        deviceChangeEventWatcher.Dispose();
        deviceChangeEventWatcher := null;
      }
    }
  }

  /** The index of the last occurrence of `value`, or -1. */
  function LastIndexOf(handlers: seq<Handler>, value: Handler): (k: int)
    ensures -1 <= k < |handlers|
    ensures k == -1 <==> value !in handlers
    ensures 0 <= k ==> handlers[k] == value && value !in handlers[k + 1..]
    decreases |handlers|
  {
    if handlers == [] then -1
    else if handlers[|handlers| - 1] == value then |handlers| - 1
    else
      var init := handlers[..|handlers| - 1];
      var k := LastIndexOf(init, value);
      assert handlers == init + [handlers[|handlers| - 1]];
      assert 0 <= k ==> handlers[k + 1..] == init[k + 1..] + [handlers[|handlers| - 1]];
      k
  }

  /** Delegate removal (`-=` with a single handler): the last occurrence is
      removed; a handler that is not subscribed leaves the list unchanged. */
  function RemoveLast(handlers: seq<Handler>, value: Handler): (r: seq<Handler>)
  {
    var k := LastIndexOf(handlers, value);
    if k < 0 then handlers else handlers[..k] + handlers[k + 1..]
  }

  /** Removal takes exactly one subscription of the handler away, when
      there is one, and keeps every other subscription. */
  lemma RemoveLastMultiset(handlers: seq<Handler>, value: Handler)
    ensures multiset(RemoveLast(handlers, value)) == multiset(handlers) - multiset{value}
    ensures |RemoveLast(handlers, value)| == if value in handlers then |handlers| - 1 else |handlers|
  {
    var k := LastIndexOf(handlers, value);
    if k >= 0 {
      var before, after := handlers[..k], handlers[k + 1..];
      assert RemoveLast(handlers, value) == before + after;
      assert handlers == before + [value] + after;
      assert multiset(handlers) == multiset(before) + multiset{value} + multiset(after);
    } else {
      assert RemoveLast(handlers, value) == handlers;
      assert multiset(handlers)[value] == 0;
    }
  }

  /** The occurrence removed is the last one, and the rest keep their order. */
  lemma RemoveLastPosition(handlers: seq<Handler>, value: Handler)
    ensures value !in handlers ==> RemoveLast(handlers, value) == handlers
    ensures value in handlers ==> exists k | 0 <= k < |handlers| ::
      && handlers[k] == value && value !in handlers[k + 1..]
      && RemoveLast(handlers, value) == handlers[..k] + handlers[k + 1..]
  {
    var k := LastIndexOf(handlers, value);
    if k >= 0 {
      assert handlers[k] == value && value !in handlers[k + 1..];
    }
  }
}
