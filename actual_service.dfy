/** The brightness-sync service (ActualService): it loads the configuration,
    arms a one-shot debounce timer from two WMI event watchers, and runs the
    sync pass whenever the timer fires. */
module Service {
  import opened CSharp
  import opened AppSettings
  import opened PhysicalMonitors
  import opened DevicePaths
  import opened Platform
  import opened PropertyDataExtensions
  import opened NativeApi
  import opened Runtime
  import opened SyncPass

  /** What reading appsettings.json next to the executable yields: no file,
      or the deserialized list (None when the document is JSON `null`). */
  datatype SettingsFile = Missing | Present(contents: Option<seq<MonitorOptions>>)

  /** Delay of the sync pass after a device-change event, in milliseconds. */
  const DeviceChangeDelay := 3000
  /** Delay of the sync pass after a brightness event, in milliseconds. */
  const BrightnessChangeDelay := 500

  class ActualService {
    /** The native API with its process-wide capability cache. */
    const api: MonitorApi
    var appSettings: Option<seq<MonitorOptions>>
    var timer: Timer?
    var deviceChangeEventWatcher: ManagementEventWatcher?
    var brightnessEventWatcher: ManagementEventWatcher?

    /** The timer exists only for a non-empty configuration, and each
        watcher only while the timer exists, running its own query with the
        handler attached. */
    ghost predicate Valid()
      reads this, timer, deviceChangeEventWatcher, brightnessEventWatcher
    {
      && (timer != null ==> appSettings.Some? && |appSettings.value| > 0 && !timer.disposed)
      && (deviceChangeEventWatcher != null ==>
            && timer != null
            && deviceChangeEventWatcher.query == DeviceChangeEvents
            && deviceChangeEventWatcher.handlerAttached && deviceChangeEventWatcher.started && !deviceChangeEventWatcher.disposed)
      && (brightnessEventWatcher != null ==>
            && timer != null
            && brightnessEventWatcher.query == BrightnessEvents
            && brightnessEventWatcher.handlerAttached && brightnessEventWatcher.started && !brightnessEventWatcher.disposed)
    }

    constructor (api: MonitorApi)
      ensures this.api == api && appSettings == None
      ensures timer == null && deviceChangeEventWatcher == null && brightnessEventWatcher == null
      ensures Valid()
    {
      this.api := api;
      appSettings := None;
      timer, deviceChangeEventWatcher, brightnessEventWatcher := null, null, null;
    }

    /** Start: without a file, or with a null or empty list, the service
        does not start and creates nothing (the dummy configuration it writes
        instead is not part of this model). Otherwise the disarmed timer and
        both running watchers are created and a first sync pass runs; an
        exception from it leaves Start. */
    method Start(settingsFile: SettingsFile, machine: Machine) returns (r: Result<bool>)
      requires Valid()
      requires timer == null && deviceChangeEventWatcher == null && brightnessEventWatcher == null
      modifies this, machine`writes, machine`destroyed, api
      ensures Valid()
      ensures settingsFile.Missing? ==> appSettings == old(appSettings)
      ensures settingsFile.Present? ==> appSettings == settingsFile.contents
      ensures r == Ok(false) <==>
        settingsFile.Missing? || settingsFile.contents == None || settingsFile.contents == Some([])
      ensures r == Ok(false) ==>
        && timer == null && deviceChangeEventWatcher == null && brightnessEventWatcher == null
        && machine.writes == old(machine.writes) && machine.destroyed == old(machine.destroyed)
        && api.capabilitiesCache == old(api.capabilitiesCache)
      ensures r != Ok(false) ==>
        && timer != null && fresh(timer) && timer.dueTime == Infinite && timer.period == Infinite
        && deviceChangeEventWatcher != null && fresh(deviceChangeEventWatcher)
        && brightnessEventWatcher != null && fresh(brightnessEventWatcher)
        && var (o, cache) := SyncPassOutcome(appSettings.value, machine.wmi, machine.adapters, machine.panelBrightness, old(api.capabilitiesCache));
        && machine.writes == old(machine.writes) + o.writes
        && machine.destroyed == old(machine.destroyed) + o.destroyed
        && api.capabilitiesCache == cache
        && r == (if o.thrown.Some? then Throw(o.thrown.value) else Ok(true))
    {
      if settingsFile.Missing? {
        return Ok(false);
      }
      appSettings := settingsFile.contents;
      if appSettings.None? || |appSettings.value| == 0 {
        return Ok(false);
      }

      timer := new Timer();

      var deviceWatcher := new ManagementEventWatcher(DeviceChangeEvents);
      deviceWatcher.Attach();
      deviceWatcher.Start();
      deviceChangeEventWatcher := deviceWatcher;

      var brightnessWatcher := new ManagementEventWatcher(BrightnessEvents);
      brightnessWatcher.Attach();
      brightnessWatcher.Start();
      brightnessEventWatcher := brightnessWatcher;

      var thrown := OnSync(machine);
      r := if thrown.Some? then Throw(thrown.value) else Ok(true);
    }

    /** Stop: each watcher is stopped, disposed and dropped, then the timer
        is disarmed, disposed and dropped. */
    method Stop()
      requires Valid()
      modifies this, timer, deviceChangeEventWatcher, brightnessEventWatcher
      ensures Valid()
      ensures timer == null && deviceChangeEventWatcher == null && brightnessEventWatcher == null
      ensures appSettings == old(appSettings)
      ensures old(brightnessEventWatcher) != null ==> !old(brightnessEventWatcher).started && old(brightnessEventWatcher).disposed
      ensures old(deviceChangeEventWatcher) != null ==> !old(deviceChangeEventWatcher).started && old(deviceChangeEventWatcher).disposed
      ensures old(timer) != null ==>
        old(timer).dueTime == Infinite && old(timer).period == Infinite && old(timer).disposed
    {
      if brightnessEventWatcher != null {
        brightnessEventWatcher.Stop();
        brightnessEventWatcher.Dispose();
        brightnessEventWatcher := null;
      }
      if deviceChangeEventWatcher != null {
        deviceChangeEventWatcher.Stop();
        deviceChangeEventWatcher.Dispose();
        deviceChangeEventWatcher := null;
      }
      if timer != null {
        timer.Change(Infinite, Infinite);
        timer.Dispose();
        timer := null;
      }
    }

    /** OnDeviceChangeEvent: the capability cache is emptied and the pass is
        rescheduled 3 s from now, replacing any pending schedule. */
    method OnDeviceChangeEvent()
      requires Valid() && timer != null
      modifies api, timer
      ensures Valid()
      ensures api.capabilitiesCache == map[]
      ensures timer.dueTime == DeviceChangeDelay && timer.period == Infinite
    {
      api.ClearDeviceCapabilitiesStringCache();
      timer.Change(DeviceChangeDelay, Infinite);
    }

    /** OnBrightnessEvent: the pass is rescheduled 500 ms from now, replacing
        any pending schedule; the cache is kept. */
    method OnBrightnessEvent()
      requires Valid() && timer != null
      modifies timer
      ensures Valid()
      ensures timer.dueTime == BrightnessChangeDelay && timer.period == Infinite
    {
      timer.Change(BrightnessChangeDelay, Infinite);
    }

    /** The matching loop of OnSync: for each entry in order, every monitor
        whose instance name is not used yet and whose identity matches is
        claimed by it. */
    static method MatchInstanceNames(appSettings: seq<MonitorOptions>, monitorIds: seq<MonitorIdObject>) returns (entries: seq<MatchedEntry>)
      ensures entries == Assign(appSettings, monitorIds)
    {
      var usedInstanceNames: set<CsString> := {};
      entries := [];
      var k := 0;
      while k < |appSettings|
        invariant 0 <= k <= |appSettings| && |entries| == k
        invariant AssignFrom(appSettings, monitorIds, k, entries, usedInstanceNames) == Assign(appSettings, monitorIds)
      {
        var monitorOptions := appSettings[k];
        var instanceNames: seq<CsString> := [];
        ghost var used0 := usedInstanceNames;
        var j := 0;
        while j < |monitorIds|
          invariant 0 <= j <= |monitorIds|
          invariant CollectFrom(monitorOptions, monitorIds, j, instanceNames, usedInstanceNames)
                 == CollectFrom(monitorOptions, monitorIds, 0, [], used0)
        {
          var monitorIdObject := monitorIds[j];
          var instanceName := monitorIdObject.instanceName;
          if instanceName !in usedInstanceNames {
            var manufacturerName := ReadStringFromUInt16ArrayValue(monitorIdObject.manufacturerName);
            var productCodeId := ReadStringFromUInt16ArrayValue(monitorIdObject.productCodeId);
            var serialNumberId := ReadStringFromUInt16ArrayValue(monitorIdObject.serialNumberId);
            if Contains(manufacturerName, monitorOptions.manufacturerName)
              && Contains(productCodeId, monitorOptions.productCodeId)
              && Contains(serialNumberId, monitorOptions.serialNumberId)
            {
              usedInstanceNames := usedInstanceNames + {instanceName};
              instanceNames := instanceNames + [instanceName];
            }
          }
          j := j + 1;
        }
        entries := entries + [MatchedEntry(monitorOptions, instanceNames)];
        k := k + 1;
      }
    }

    /** GetBrightness: the first WmiMonitorBrightness object with the name
        answers; otherwise the handle of the device found for the name. */
    static method GetBrightness(machine: Machine, instanceName: CsString, devices: seq<PhysicalMonitorDevice>) returns (r: Result<byte>)
      ensures r == SyncPass.GetBrightness(instanceName, Channels(machine.wmi, devices, machine.panelBrightness))
    {
      var objects := machine.wmi.brightnessObjects;
      var i := 0;
      while i < |objects|
        invariant 0 <= i <= |objects|
        invariant forall j | 0 <= j < i :: objects[j].instanceName != instanceName
      {
        if objects[i].instanceName == instanceName {
          return Ok(objects[i].currentBrightness);
        }
        i := i + 1;
      }
      var found := FindPhysicalMonitorInfo(instanceName, devices);
      if found.Throw? {
        return Throw(found.error);
      }
      if found.value.Some? && found.value.value.capabilitiesString != [] {
        r := Ok(ToByte(PanelReading(machine.panelBrightness, found.value.value.physicalMonitorHandle)));
      } else {
        r := Ok(0);
      }
    }

    /** SetBrightness: through WmiSetBrightness when a
        WmiMonitorBrightnessMethods object has the name, else through the
        handle of the device found for the name; each write is logged. */
    static method SetBrightness(machine: Machine, instanceName: CsString, brightness: byte, devices: seq<PhysicalMonitorDevice>)
      returns (thrown: Option<Exception>)
      modifies machine`writes
      ensures var r := SyncPass.SetBrightness(instanceName, brightness, Channels(machine.wmi, devices, machine.panelBrightness));
        && (r.Ok? ==> thrown == None && machine.writes == old(machine.writes) + r.value)
        && (r.Throw? ==> thrown == Some(r.error) && machine.writes == old(machine.writes))
    {
      if instanceName in machine.wmi.brightnessMethods {
        machine.writes := machine.writes + [BrightnessWrite(instanceName, ViaWmi, brightness)];
        return None;
      }
      var found := FindPhysicalMonitorInfo(instanceName, devices);
      if found.Throw? {
        return Some(found.error);
      }
      if found.value.Some? && found.value.value.capabilitiesString != [] {
        machine.writes := machine.writes + [BrightnessWrite(instanceName, ViaHandle(found.value.value.physicalMonitorHandle), brightness)];
      }
      thrown := None;
    }

    /** The propagation loops of OnSync: for each entry in order, its scaled
        value (which may throw) is written to each of its monitors other than
        the main one; the first exception ends the loops. */
    static method Propagate(machine: Machine, entries: seq<MatchedEntry>, mainOptions: MonitorOptions, newBrightness: byte,
                            mainInstanceName: CsString, devices: seq<PhysicalMonitorDevice>,
                            ghost prefix: seq<BrightnessWrite>, ghost w0: seq<BrightnessWrite>)
      returns (thrown: Option<Exception>)
      requires machine.writes == prefix + w0
      modifies machine`writes
      ensures var (ws, t) := PropagateEntries(entries, 0, mainOptions, newBrightness, mainInstanceName,
                                              Channels(machine.wmi, devices, machine.panelBrightness), w0);
        machine.writes == prefix + ws && thrown == t
    {
      ghost var ch := Channels(machine.wmi, devices, machine.panelBrightness);
      ghost var acc := w0;
      var k := 0;
      while k < |entries|
        invariant 0 <= k <= |entries|
        invariant machine.writes == prefix + acc
        invariant PropagateEntries(entries, k, mainOptions, newBrightness, mainInstanceName, ch, acc)
               == PropagateEntries(entries, 0, mainOptions, newBrightness, mainInstanceName, ch, w0)
      {
        var scaled := Scale(entries[k].options, mainOptions, newBrightness);
        if scaled.Throw? {
          return Some(scaled.error);
        }
        var anotherBrightness := scaled.value;
        var names := entries[k].instanceNames;
        ghost var accK := acc;
        var i := 0;
        while i < |names|
          invariant 0 <= i <= |names|
          invariant machine.writes == prefix + acc
          invariant PropagateNames(names, i, mainInstanceName, anotherBrightness, ch, acc)
                 == PropagateNames(names, 0, mainInstanceName, anotherBrightness, ch, accK)
        {
          if names[i] != mainInstanceName {
            var t := SetBrightness(machine, names[i], anotherBrightness, devices);
            if t.Some? {
              return t;
            }
            acc := acc + SyncPass.SetBrightness(names[i], anotherBrightness, ch).value;
          }
          i := i + 1;
        }
        k := k + 1;
      }
      thrown := None;
    }

    /** The release loop of OnSync: DestroyPhysicalMonitorInternal on every
        handle, in enumeration order. */
    static method DestroyPhysicalMonitors(machine: Machine, devices: seq<PhysicalMonitorDevice>)
      modifies machine`destroyed
      ensures machine.destroyed == old(machine.destroyed) + Handles(devices)
    {
      var h := 0;
      while h < |devices|
        invariant 0 <= h <= |devices|
        invariant machine.destroyed == old(machine.destroyed) + Handles(devices)[..h]
      {
        machine.destroyed := machine.destroyed + [devices[h].physicalMonitorHandle];
        h := h + 1;
      }
      assert Handles(devices)[..h] == Handles(devices);
    }

    /** OnSync, the timer callback: one sync pass. The writes it issues, the
        handles it destroys, the exception that ends it and the capability
        cache it leaves are those of SyncPassOutcome. */
    method OnSync(machine: Machine) returns (thrown: Option<Exception>)
      requires appSettings.Some?
      modifies machine`writes, machine`destroyed, api
      ensures var (o, cache) := SyncPassOutcome(appSettings.value, machine.wmi, machine.adapters, machine.panelBrightness, old(api.capabilitiesCache));
        && machine.writes == old(machine.writes) + o.writes
        && machine.destroyed == old(machine.destroyed) + o.destroyed
        && api.capabilitiesCache == cache
        && thrown == o.thrown
    {
      var entries := MatchInstanceNames(appSettings.value, machine.wmi.monitorIds);
      if |entries| == 0 {
        return Some(ArgumentOutOfRange);
      }
      if |entries[0].instanceNames| == 0 {
        return None;
      }

      var physicalMonitorDevices := api.GetPhysicalMonitorDevices(machine.adapters);
      ghost var ch := Channels(machine.wmi, physicalMonitorDevices, machine.panelBrightness);

      var mainOptions := entries[0].options;
      var mainInstanceName := entries[0].instanceNames[0];
      var current := GetBrightness(machine, mainInstanceName, physicalMonitorDevices);
      if current.Throw? {
        return Some(current.error);
      }
      var currentBrightness := current.value;
      var newBrightness := Clamp(currentBrightness, mainOptions.min, mainOptions.max);
      if newBrightness != currentBrightness {
        var t := SetBrightness(machine, mainInstanceName, newBrightness, physicalMonitorDevices);
        if t.Some? {
          return t;
        }
      }
      ghost var w0 := MainWrite(mainInstanceName, currentBrightness, newBrightness, ch).value;
      thrown := Propagate(machine, entries, mainOptions, newBrightness, mainInstanceName, physicalMonitorDevices, old(machine.writes), w0);
      if thrown.Some? {
        return;
      }
      DestroyPhysicalMonitors(machine, physicalMonitorDevices);
    }
  }
}
