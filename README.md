# ImTryin.BrightnessSync — a Dafny model of the brightness-sync core

ImTryin.BrightnessSync keeps the brightness of several monitors in step on
Windows. The configuration is a list of `MonitorOptions` entries. Each entry
holds three identity substrings and a `[Min, Max]` range. A sync pass works as follows:

- It matches every WMI monitor to the earliest entry whose substrings it contains.
- It takes the first match of the first entry as the main monitor.
- It clamps the main monitor's brightness into that entry's range and writes it back if it changed.
- It writes every other matched monitor the main value scaled linearly from the main range into the monitor's own range.
- It releases the physical-monitor handles it opened.

Each monitor is reached over one of two channels. One is WMI (`WmiMonitorBrightness` /
`WmiMonitorBrightnessMethods`, keyed by instance name). The other is a Dxva2
physical-monitor handle, found by turning the WMI instance name into a device
interface path. Device-change and brightness-change events re-arm a one-shot
timer, so bursts of events end in one pass.

The monitor registry (`MonitorCollection`) is a separate component. It rebuilds the list of
monitor instances (WMI or handle variants). It keeps one event watcher alive
while each of its two events has subscribers. The interactive console
mode (`Manual.Run`) uses it to move a selection with the arrow keys and to raise or
lower one monitor's brightness.

The model is sequential and deterministic. Everything the program asks of
Windows is an input held by `Platform.Machine`:

- the WMI object lists;
- the display adapters with their native call outcomes;
- the panel brightness per handle.

Everything the program does to Windows is appended to a log in `Machine`:
brightness writes and `DestroyPhysicalMonitorInternal` calls. Exceptions
are values (`Result`, `Option<Exception>`), so every path that throws in C# is
visible in the contracts. The model keeps these C# semantics:

- truncating integer division;
- wrap-around `(byte)` casts;
- ordinal string comparison;
- `string.Contains("")` being true.

Modules, by source file:

| module | models |
|---|---|
| `CSharp` | `byte`/`ushort`, unchecked casts, truncating `/`, ordinal `Contains`/`EndsWith`/`Replace`, `List.Find`, `SingleOrDefault` |
| `PropertyDataExtensions` | `Extensions/PropertyDataExtensions.cs` |
| `AppSettings` | `AppSettings/MonitorOptions.cs` |
| `PhysicalMonitors` | `Api/PhysicalMonitorDevice.cs` |
| `Instances` | `Api/MonitorInstance.cs` and the Brightness property of its two subclasses |
| `Platform` | the machine: WMI objects, adapters, panel readings, logs |
| `Runtime` | `System.Threading.Timer` and `ManagementEventWatcher`, as state |
| `DevicePaths` | `ActualService.FindPhysicalMonitorInfo` and the path derivation shared with `MonitorCollection.Refresh` |
| `NativeApi` | `Api/MonitorApi.cs`: `UnicodeString`, capability cache, `GetPhysicalMonitorDevices` |
| `SyncPass` | the pure side of `ActualService.OnSync`: matching, clamp, scale, channel fallback, the whole pass as a function |
| `Service` | `ActualService.cs`: the class with `Start`, `Stop`, event handlers and the imperative `OnSync` |
| `Registry` | `Api/MonitorCollection.cs` |
| `ManualControl` | `Manual.cs` |

## Model

| member | source | states |
|---|---|---|
| `PropertyDataExtensions.NulTerminated` | ImTryin.BrightnessSync/Extensions/PropertyDataExtensions.cs:9-19 | the decoded string is a prefix of the array, contains no NUL, and is followed by a NUL or the array's end |
| `PropertyDataExtensions.NulTerminatedUnique` | ImTryin.BrightnessSync/Extensions/PropertyDataExtensions.cs:15-16 | any NUL-free prefix followed by a NUL or the end is the decoded string, so the decoder stops at the first NUL |
| `PropertyDataExtensions.NulFreeDecodesWhole` | ImTryin.BrightnessSync/Extensions/PropertyDataExtensions.cs:15-16 | an array without NUL decodes to all of itself |
| `PropertyDataExtensions.LeadingNulDecodesEmpty` | ImTryin.BrightnessSync/Extensions/PropertyDataExtensions.cs:15-16 | an array starting with NUL decodes to "" |
| `PropertyDataExtensions.DecodeTerminated` | ImTryin.BrightnessSync/Extensions/PropertyDataExtensions.cs:9-19 | a NUL-free string followed by NUL and any padding decodes back to itself |
| `PropertyDataExtensions.ReadStringFromUInt16ArrayValue` | ImTryin.BrightnessSync/Extensions/PropertyDataExtensions.cs:9-19 | the StringBuilder loop returns the NUL-terminated prefix |
| `AppSettings.EmptyPatternsMatchEveryMonitor` | ImTryin.BrightnessSync/AppSettings/MonitorOptions.cs:5-7 | an entry with its three strings empty passes the substring test for every monitor |
| `AppSettings.DefaultOptionsMatchEverything` | ImTryin.BrightnessSync/AppSettings/MonitorOptions.cs:5-10 | the initial entry has range [0, 100] and matches every monitor |
| `Instances.Brightness` | ImTryin.BrightnessSync/Api/WmiMonitorInstance.cs:14-20 | WMI read: the brightness object's value, or ManagementException exactly when no object has the name. Handle read: always succeeds, and an in-range reading is returned unchanged |
| `Instances.WriteFor` | ImTryin.BrightnessSync/Api/WmiMonitorInstance.cs:21-27 | a write carries the instance's name and the value over the instance's own channel; it throws ManagementException exactly for a WMI instance without a methods object |
| `Instances.SetBrightness` | ImTryin.BrightnessSync/Api/PmdMonitorInstance.cs:21 | the setter logs that write and the machine takes it; on exception nothing changes |
| `Instances.ReadAfterWrite` | ImTryin.BrightnessSync/Api/MonitorInstance.cs:18 | on both channels, a value set through an instance is what its getter then reads |
| `DevicePaths.DevicePath` | ImTryin.BrightnessSync/ActualService.cs:267-269 | NotSupportedException exactly when the name does not end in "_0"; otherwise: the prefix, then the name minus "_0" with each backslash turned into '#', then the class suffix |
| `DevicePaths.DevicePathInjective` | ImTryin.BrightnessSync/ActualService.cs:267-269 | two names without '#' that derive the same path are the same name |
| `DevicePaths.FindPhysicalMonitorInfo` | ImTryin.BrightnessSync/ActualService.cs:265-272 | throws exactly as the derivation does; otherwise gives the first device whose DeviceId equals the path, or none when no device has it |
| `NativeApi.NewUnicodeString` | ImTryin.BrightnessSync/Api/MonitorApi.cs:51-68 | ArgumentOutOfRangeException exactly above 32767 characters; Length is 2·n; MaximumLength is Length+2, which wraps to 0 at n = 32767 |
| `NativeApi.AdapterNamesFitUnicodeString` | ImTryin.BrightnessSync/Api/MonitorApi.cs:117-124 | an adapter's DeviceName (at most 31 characters) never throws |
| `NativeApi.GetOrAddCapabilities` | ImTryin.BrightnessSync/Api/MonitorApi.cs:131-143 | the cache gains exactly the device's key and keeps every old entry; a cached string is returned without querying, and an uncached one is queried |
| `NativeApi.ClearedCacheQueriesAgain` | ImTryin.BrightnessSync/Api/MonitorApi.cs:100-105 | after clearing, the next lookup queries the monitor again |
| `NativeApi.EnumeratePairsMonitorsWithHandles` | ImTryin.BrightnessSync/Api/MonitorApi.cs:107-150 | the devices are the reported monitors paired with the returned handles, adapter by adapter, skipping adapters whose status checks fail |
| `NativeApi.EnumerateKeepsCacheConsistent` | ImTryin.BrightnessSync/Api/MonitorApi.cs:126-146 | each device's capability string is its cache entry, and the cache only grows |
| `NativeApi.MonitorApi.ClearDeviceCapabilitiesStringCache` | ImTryin.BrightnessSync/Api/MonitorApi.cs:100-105 | the cache is empty afterwards |
| `NativeApi.MonitorApi.GetPhysicalMonitorDevices` | ImTryin.BrightnessSync/Api/MonitorApi.cs:107-150 | the nested loops yield the devices and cache of the enumeration function |
| `SyncPass.AssignClaims` | ImTryin.BrightnessSync/ActualService.cs:134-159 | one list per entry, in config order; a name is in entry k's list iff k is the earliest entry that some monitor with that name matches; no list repeats a name |
| `SyncPass.AssignDisjoint` | ImTryin.BrightnessSync/ActualService.cs:144-154 | no instance name is in two entries' lists |
| `SyncPass.AssignInOrder` | ImTryin.BrightnessSync/ActualService.cs:141-155 | every list is a subsequence of the monitors' enumeration order |
| `SyncPass.MainMonitorIsFirstMatch` | ImTryin.BrightnessSync/ActualService.cs:161-170 | the first entry's list is empty iff no monitor matches it; otherwise its first name, the main monitor, is that of the first matching monitor |
| `SyncPass.Clamp` | ImTryin.BrightnessSync/ActualService.cs:173-177 | below Min gives Min; otherwise above Max gives Max, and a value within the range is kept. For an ordered range the result is within it, and equals the input iff the input was already within it |
| `SyncPass.Scale` | ImTryin.BrightnessSync/ActualService.cs:190-192 | DivideByZeroException exactly when the main range has Min == Max |
| `SyncPass.ScaleWithinRange` | ImTryin.BrightnessSync/ActualService.cs:190-192 | with ordered ranges and the main value in the main range, the scaled value lies in the other entry's range |
| `SyncPass.ScaleEndpoints` | ImTryin.BrightnessSync/ActualService.cs:190-192 | main Min maps to the other entry's Min and main Max to its Max |
| `SyncPass.ScaleSelf` | ImTryin.BrightnessSync/ActualService.cs:190-192 | scaling against the main range itself gives back the main value |
| `SyncPass.GetBrightness` | ImTryin.BrightnessSync/ActualService.cs:211-238 | the first WMI brightness object with the name gives its CurrentBrightness. Without one, it throws iff the name does not end in "_0"; otherwise the first device with the derived path, when its capability string is non-empty, gives its panel reading cast to byte, and with no such device it reads 0 |
| `SyncPass.SetBrightness` | ImTryin.BrightnessSync/ActualService.cs:240-263 | at most one write, with that name and value. WMI when a methods object has the name. Otherwise it throws iff the name does not end in "_0", and writes iff the device found has a non-empty capability string; that write goes to the handle of the first device with the derived path |
| `SyncPass.SyncPassOutcome` | ImTryin.BrightnessSync/ActualService.cs:136-162 | an empty list throws ArgumentOutOfRangeException before any native call; a first entry without matches returns with no write, no handle released and the cache untouched |
| `SyncPass.SyncWrites` | ImTryin.BrightnessSync/ActualService.cs:179-203 | the main write comes first and only when clamping changed the value; every later write goes to a non-main monitor of some entry, with that entry's scaled value |
| `SyncPass.CompletedPassWrites` | ImTryin.BrightnessSync/ActualService.cs:172-203 | a completed pass has a non-degenerate main range, no call in it threw, and its writes are exactly the main write followed by the reference propagation: entry by entry, name by name in list order, every name but the main one written with its entry's scaled value |
| `SyncPass.ClaimedNameWritten` | ImTryin.BrightnessSync/ActualService.cs:186-203 | in a completed pass every monitor of an entry other than the main one is written with that entry's scaled value when a WMI methods object has its name or a device with its path has a non-empty capability string |
| `SyncPass.ClaimedNameWrittenOnce` | ImTryin.BrightnessSync/ActualService.cs:186-203 | a non-main monitor listed once among the entries receives, in a completed pass, exactly the writes of its own SetBrightness call at its entry's scaled value, and no other write |
| `SyncPass.AssignedNameWrittenOnce` | ImTryin.BrightnessSync/ActualService.cs:136-203 | with the entries the matching builds, each non-main claimed monitor is written exactly once in a completed pass when its channel is usable, with its entry's scaled value, and never otherwise |
| `SyncPass.SyncReleasesHandlesOnCompletion` | ImTryin.BrightnessSync/ActualService.cs:205-206 | a completed pass releases exactly the enumerated handles; a pass that throws releases none |
| `SyncPass.DegenerateMainRangeThrows` | ImTryin.BrightnessSync/ActualService.cs:186-203 | Min == Max on the main entry never completes a pass and releases no handle; with a "_0" main name it ends in DivideByZeroException after at most the main write |
| `SyncPass.PropagatedValues` | ImTryin.BrightnessSync/ActualService.cs:186-203 | a propagated write to a first-entry monitor carries the main value exactly; one to entry k's monitor lies in k's range when the ranges are ordered |
| `Service.ActualService.Start` | ImTryin.BrightnessSync/ActualService.cs:23-58 | returns false iff the file is missing, null or empty, and then creates nothing and changes nothing. Otherwise it creates a disarmed timer and two watchers, runs one pass, and returns true or that pass's exception |
| `Service.ActualService.Stop` | ImTryin.BrightnessSync/ActualService.cs:60-82 | both watchers stopped and disposed, the timer disarmed and disposed, all three fields null |
| `Service.ActualService.OnDeviceChangeEvent` | ImTryin.BrightnessSync/ActualService.cs:106-114 | capability cache cleared; timer re-armed to 3000 ms, one-shot (last call wins) |
| `Service.ActualService.OnBrightnessEvent` | ImTryin.BrightnessSync/ActualService.cs:116-123 | timer re-armed to 500 ms, one-shot (last call wins) |
| `Service.ActualService.MatchInstanceNames` | ImTryin.BrightnessSync/ActualService.cs:134-159 | the nested loops with the shared used-name set build exactly the matching of AssignClaims |
| `Service.ActualService.GetBrightness` | ImTryin.BrightnessSync/ActualService.cs:211-238 | the method reads what SyncPass.GetBrightness states |
| `Service.ActualService.SetBrightness` | ImTryin.BrightnessSync/ActualService.cs:240-263 | the method logs the writes SyncPass.SetBrightness states, or throws without writing |
| `Service.ActualService.OnSync` | ImTryin.BrightnessSync/ActualService.cs:125-209 | writes, released handles, exception and cache are exactly those of SyncPassOutcome |
| `Registry.ClassifyCases` | ImTryin.BrightnessSync/Api/MonitorCollection.cs:53-85 | a monitor becomes a WMI instance iff both WMI classes have exactly one object with its name; otherwise it becomes the handle instance of the first device on the derived path, or nothing. A duplicate name throws InvalidOperationException; a non-"_0" name that reaches the derivation throws NotSupportedException |
| `Registry.BuildFromKept` | ImTryin.BrightnessSync/Api/MonitorCollection.cs:51-87 | the loop completes iff every monitor classifies, and then holds the reference list after what it started with |
| `Registry.BuildFromThrows` | ImTryin.BrightnessSync/Api/MonitorCollection.cs:51-87 | an exception ending the loop is one that some monitor classifies to |
| `Registry.KeptFaithful` | ImTryin.BrightnessSync/Api/MonitorCollection.cs:51-87 | the reference list is in enumeration order, at most one per monitor; each element is its monitor's instance, and every monitor yielding one is present |
| `Registry.RefreshInstancesFaithful` | ImTryin.BrightnessSync/Api/MonitorCollection.cs:31-94 | Refresh's list, when it completes, is in enumeration order and holds exactly the monitors' instances; otherwise it ends with one monitor's exception |
| `Registry.RemoveLastMultiset` | ImTryin.BrightnessSync/Api/MonitorCollection.cs:121-123 | removing a delegate drops exactly one occurrence of it when there is one, and nothing otherwise |
| `Registry.RemoveLastPosition` | ImTryin.BrightnessSync/Api/MonitorCollection.cs:121-123 | the occurrence removed is the last one and the rest keep their order; an absent delegate leaves the list unchanged |
| `Registry.MonitorCollection.Create` | ImTryin.BrightnessSync/Api/MonitorCollection.cs:11-14 | the constructor succeeds iff its Refresh does, and then holds the enumerated devices and the built list |
| `Registry.MonitorCollection.MonitorInstances` | ImTryin.BrightnessSync/Api/MonitorCollection.cs:20-29 | a fresh array holding the current list, so later changes do not reach it |
| `Registry.MonitorCollection.Cleanup` | ImTryin.BrightnessSync/Api/MonitorCollection.cs:171-178 | list and devices emptied; every held handle released, in order |
| `Registry.MonitorCollection.Refresh` | ImTryin.BrightnessSync/Api/MonitorCollection.cs:31-94 | old handles released, devices re-enumerated, and the list and exception those of the loop function; subscriptions untouched |
| `Registry.MonitorCollection.AddInstances` | ImTryin.BrightnessSync/Api/MonitorCollection.cs:51-87 | the loop appends in order and stops at the first exception, keeping what it added |
| `Registry.MonitorCollection.ClassifyMonitor` | ImTryin.BrightnessSync/Api/MonitorCollection.cs:53-85 | one loop body gives the classification of ClassifyCases |
| `Registry.MonitorCollection.Dispose` | ImTryin.BrightnessSync/Api/MonitorCollection.cs:180-186 | same effect as Cleanup |
| `Registry.MonitorCollection.OnBrightnessEventArrived` | ImTryin.BrightnessSync/Api/MonitorCollection.cs:98-104 | InvalidOperationException iff two instances have the name; otherwise each subscriber is called once with the instance of that name, or none is called when there is none |
| `Registry.MonitorCollection.OnDeviceChangeEventArrived` | ImTryin.BrightnessSync/Api/MonitorCollection.cs:137-140 | every subscriber is called, in subscription order |
| `Registry.MonitorCollection.AddBrightnessChanged` | ImTryin.BrightnessSync/Api/MonitorCollection.cs:110-120 | subscriber appended; a started watcher exists afterwards, created only if there was none |
| `Registry.MonitorCollection.RemoveBrightnessChanged` | ImTryin.BrightnessSync/Api/MonitorCollection.cs:121-132 | last occurrence removed; when no subscriber is left, the watcher is stopped, detached and disposed |
| `Registry.MonitorCollection.AddDeviceChanged` | ImTryin.BrightnessSync/Api/MonitorCollection.cs:146-156 | as AddBrightnessChanged, for the device-change watcher |
| `Registry.MonitorCollection.RemoveDeviceChanged` | ImTryin.BrightnessSync/Api/MonitorCollection.cs:157-168 | as RemoveBrightnessChanged, for the device-change watcher |
| `ManualControl.Lowered` | ImTryin.BrightnessSync/Manual.cs:39-41 | Down: never negative, never above the old value; old − step when that is at least 0, else 0 |
| `ManualControl.Raised` | ImTryin.BrightnessSync/Manual.cs:42-44 | Up: never above 100; old + step when that is at most 100, else 100 (so a reading above 100 drops to 100) |
| `ManualControl.SelectionStaysInRange` | ImTryin.BrightnessSync/Manual.cs:24-37 | over a non-empty list the selection stays in [0, Count−1], so only the WMI getter or setter can end the loop |
| `ManualControl.EmptyListThrows` | ImTryin.BrightnessSync/Manual.cs:24 | with no monitors the first key throws ArgumentOutOfRangeException before any read or write |
| `ManualControl.NavigationKeys` | ImTryin.BrightnessSync/Manual.cs:28-45 | Left and Right move the selection by at most one, never past an end, and write nothing; any other key changes nothing |
| `ManualControl.DownArrowLowers` | ImTryin.BrightnessSync/Manual.cs:26-41 | Down issues one write for the selected monitor, which then reads old − step (10 with Ctrl, else 1) floored at 0 |
| `ManualControl.UpArrowRaises` | ImTryin.BrightnessSync/Manual.cs:26-44 | Up issues one write for the selected monitor, which then reads old + step capped at 100 |
| `ManualControl.RenderFailure` | ImTryin.BrightnessSync/Manual.cs:49-83 | drawing the screen fails iff some monitor's Brightness getter throws, and then with a ManagementException |
| `ManualControl.RunFrom` | ImTryin.BrightnessSync/Manual.cs:18-46 | when any monitor's getter throws, the loop ends at the next drawing, before another key is read, with nothing changed |
| `ManualControl.Render` | ImTryin.BrightnessSync/Manual.cs:49-83 | the getter reads over a fresh snapshot end as RenderFailure states |
| `ManualControl.HandleKey` | ImTryin.BrightnessSync/Manual.cs:22-45 | one key ends in the selection, machine state and exception of the key-step function; a throwing key changes nothing |
| `ManualControl.Session` | ImTryin.BrightnessSync/Manual.cs:18-46 | the loop, drawing before each key and after the last, ends in the selection, machine state and exception of RunFrom |
| `ManualControl.Run` | ImTryin.BrightnessSync/Manual.cs:8-47 | a failing registry constructor is Run's exception. Otherwise the keys run as the step function says; an exception disposes the registry, releasing its handles |

## Left out

- Console output (cursor moves, colours and text written by `Manual.Render`), reading keys, and all logging are left out: they are I/O. `Render`'s Brightness reads are modelled, since a throwing getter ends `Run`. The key presses are a finite input sequence. After the last one, `Run` draws the screen once more and is modelled as still waiting, holding its handles.
- JSON parsing, reading the settings file and `GenerateDummyConfig` are left out: they are file I/O. `Start` takes the file as absent, parsed to null, or parsed to a list. A malformed file, which makes the deserializer throw, is not modelled.
- `ReadDateTimeFromUInt64` is left out with the logging: `OnDeviceChangeEvent` and `OnBrightnessEvent` call it only to format the event time in their log line.
- WQL query strings and ManagementObject paths are left out: they are library plumbing. This includes the quoting of backslashes and the host name hard-coded in `WmiMonitorInstance`. A WMI lookup by instance name is a search of the object lists.
- Concurrency is left out, because the model is sequential:
  - the `lock` in `MonitorCollection`;
  - thread-safety of the capability dictionary;
  - timer callbacks on pool threads, including a pass overlapping another.
- Native calls are oracles. Their boolean results that the source ignores stay ignored: `GetMonitorBrightness`, `SetMonitorBrightness`, `DestroyPhysicalMonitorInternal`, and the WMI `InvokeMethod`.
- Service.ActualService.OnSync: requires the settings to be non-null. The source dereferences them without a check, and only `Start` arms the timer, after setting them. A null-reference exception is not modelled.
- Service.ActualService.OnSync: writes are logged but do not change the machine's readings. Within one pass nothing already written is read back, so the pass's outcome is unaffected. `ManualControl` uses `Instances.SetBrightness`, where the machine does take the write.
- Registry.MonitorCollection.Create: when the constructor's Refresh throws, the half-built collection and the handles it holds are unreachable in C#. The model leaves those handles unreleased, as the source does, and does not track them further.
- Registry.MonitorCollection.OnBrightnessEventArrived: the event's InstanceName is a parameter, and the result is the list of handler calls rather than calls into the subscribers' code.
- Event handlers are opaque identities (`Handler = nat`). Subscribing null is not modelled.
- Instances.Brightness: a WMI read takes the first object with the name. WMI key uniqueness is not modelled.

Some descriptions of this system include behaviour that its source does not have. The model follows the source and leaves these out:

- named profiles, a fit score, and the `"Internal"`/`"Default"` keys (the source uses a flat `MonitorOptions` list);
- bounded retries on hardware calls;
- per-monitor exception isolation (in the source, the first exception ends the pass and skips the handle release);
- a "refresh required" flag;
- a single-flight guard around the pass;
- skipping a degenerate main range (the source throws DivideByZeroException).
