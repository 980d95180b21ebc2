/** What one brightness-sync pass computes, as functions of what it observes:
    which monitors each configuration entry claims, the main monitor, the
    clamped main brightness, the proportional value for every other entry,
    the read/write channel fallback, and the writes issued in order. The
    imperative pass in module Service is proved to follow these functions. */
module SyncPass {
  import opened CSharp
  import opened AppSettings
  import opened PhysicalMonitors
  import opened DevicePaths
  import opened Platform
  import opened PropertyDataExtensions
  import opened NativeApi

  // ---------------------------------------------------------------------------
  // Matching configuration entries to monitors
  // ---------------------------------------------------------------------------

  /** A configuration entry with the instance names it claimed. */
  datatype MatchedEntry = MatchedEntry(options: MonitorOptions, instanceNames: seq<CsString>)

  /** The entry's three substrings occur in the monitor's decoded identity. */
  predicate IdMatches(o: MonitorOptions, id: MonitorIdObject)
  {
    Matches(o, NulTerminated(id.manufacturerName), NulTerminated(id.productCodeId), NulTerminated(id.serialNumberId))
  }

  /** The scan of the monitors for one entry, from monitor `j` on: a name
      already used is skipped; a matching one is claimed and marked used. */
  function CollectFrom(o: MonitorOptions, ids: seq<MonitorIdObject>, j: nat, names: seq<CsString>, used: set<CsString>)
    : (seq<CsString>, set<CsString>)
    requires j <= |ids|
    decreases |ids| - j
  {
    if j == |ids| then (names, used)
    else
      var n := ids[j].instanceName;
      if n in used then CollectFrom(o, ids, j + 1, names, used)
      else if IdMatches(o, ids[j]) then CollectFrom(o, ids, j + 1, names + [n], used + {n})
      else CollectFrom(o, ids, j + 1, names, used)
  }

  /** The entries in configuration order from entry `k` on, sharing one set
      of used names. */
  function AssignFrom(options: seq<MonitorOptions>, ids: seq<MonitorIdObject>, k: nat, acc: seq<MatchedEntry>, used: set<CsString>)
    : (r: seq<MatchedEntry>)
    requires k <= |options|
    ensures |r| == |acc| + |options| - k
    ensures r[..|acc|] == acc
    decreases |options| - k
  {
    if k == |options| then acc
    else
      var (names, used') := CollectFrom(options[k], ids, 0, [], used);
      var r := AssignFrom(options, ids, k + 1, acc + [MatchedEntry(options[k], names)], used');
      assert r[..|acc|] == (r[..|acc| + 1])[..|acc|];
      r
  }

  /** The list of entries and the names each claimed, as the pass builds it. */
  function Assign(options: seq<MonitorOptions>, ids: seq<MonitorIdObject>): (r: seq<MatchedEntry>)
    ensures |r| == |options|
  {
    AssignFrom(options, ids, 0, [], {})
  }

  /** Some monitor with this instance name matches the entry. */
  ghost predicate MatchesName(o: MonitorOptions, ids: seq<MonitorIdObject>, n: CsString)
  {
    exists i | 0 <= i < |ids| :: ids[i].instanceName == n && IdMatches(o, ids[i])
  }

  /** Reference definition of the matching: entry `k` is the earliest-listed
      entry that some monitor with this instance name matches. */
  ghost predicate ClaimedBy(options: seq<MonitorOptions>, ids: seq<MonitorIdObject>, k: int, n: CsString)
  {
    && 0 <= k < |options|
    && MatchesName(options[k], ids, n)
    && forall k' | 0 <= k' < k :: !MatchesName(options[k'], ids, n)
  }

  predicate NoDuplicates<T(==)>(s: seq<T>)
  {
    forall i, j | 0 <= i < j < |s| :: s[i] != s[j]
  }

  ghost predicate MatchesFrom(o: MonitorOptions, ids: seq<MonitorIdObject>, j: nat, n: CsString)
  {
    exists i | j <= i < |ids| :: ids[i].instanceName == n && IdMatches(o, ids[i])
  }

  lemma MatchesFromStep(o: MonitorOptions, ids: seq<MonitorIdObject>, j: nat, n: CsString)
    requires j < |ids|
    ensures MatchesFrom(o, ids, j, n) <==> (ids[j].instanceName == n && IdMatches(o, ids[j])) || MatchesFrom(o, ids, j + 1, n)
  {
    if MatchesFrom(o, ids, j, n) {
      var i :| j <= i < |ids| && ids[i].instanceName == n && IdMatches(o, ids[i]);
      if i > j { assert MatchesFrom(o, ids, j + 1, n); }
    }
  }

  /** One entry's scan keeps the names it started with, claims exactly the
      unused names some matching monitor carries, and claims none twice. */
  lemma {:induction false} CollectFromSpec(o: MonitorOptions, ids: seq<MonitorIdObject>, j: nat, names: seq<CsString>, used: set<CsString>)
    requires j <= |ids|
    requires forall n | n in names :: n in used
    requires NoDuplicates(names)
    ensures var (names', used') := CollectFrom(o, ids, j, names, used);
      && |names| <= |names'| && names'[..|names|] == names
      && NoDuplicates(names')
      && (forall n :: n in used' <==> n in used || n in names')
      && (forall n :: n in names' <==> n in names || (n !in used && MatchesFrom(o, ids, j, n)))
    decreases |ids| - j
  {
    if j < |ids| {
      var n0 := ids[j].instanceName;
      forall n ensures MatchesFrom(o, ids, j, n) <==> (n == n0 && IdMatches(o, ids[j])) || MatchesFrom(o, ids, j + 1, n) {
        MatchesFromStep(o, ids, j, n);
      }
      if n0 in used {
        CollectFromSpec(o, ids, j + 1, names, used);
      } else if IdMatches(o, ids[j]) {
        CollectFromSpec(o, ids, j + 1, names + [n0], used + {n0});
        var names' := CollectFrom(o, ids, j + 1, names + [n0], used + {n0}).0;
        assert names'[..|names|] == (names'[..|names| + 1])[..|names|];
      } else {
        CollectFromSpec(o, ids, j + 1, names, used);
      }
    }
  }

  lemma {:induction false} AssignFromSpec(options: seq<MonitorOptions>, ids: seq<MonitorIdObject>, k: nat, acc: seq<MatchedEntry>, used: set<CsString>)
    requires k <= |options| && |acc| == k
    ensures var r := AssignFrom(options, ids, k, acc, used);
      forall m | k <= m < |options| ::
        && r[m].options == options[m]
        && NoDuplicates(r[m].instanceNames)
        && forall n :: n in r[m].instanceNames <==>
             (n !in used && MatchesName(options[m], ids, n) && forall m' | k <= m' < m :: !MatchesName(options[m'], ids, n))
    decreases |options| - k
  {
    if k < |options| {
      var (names, used') := CollectFrom(options[k], ids, 0, [], used);
      CollectFromSpec(options[k], ids, 0, [], used);
      forall n ensures MatchesFrom(options[k], ids, 0, n) <==> MatchesName(options[k], ids, n) {
      }
      var acc' := acc + [MatchedEntry(options[k], names)];
      AssignFromSpec(options, ids, k + 1, acc', used');
      var r := AssignFrom(options, ids, k + 1, acc', used');
      assert r[k] == r[..k + 1][k] == acc'[k];
    }
  }

  /** The matching agrees with the reference definition: there is one list
      per entry, in configuration order; a name is in entry k's list exactly
      when k is the earliest entry that a monitor with that name matches;
      and no list repeats a name. */
  lemma AssignClaims(options: seq<MonitorOptions>, ids: seq<MonitorIdObject>)
    ensures var r := Assign(options, ids);
      forall k | 0 <= k < |options| ::
        && r[k].options == options[k]
        && NoDuplicates(r[k].instanceNames)
        && forall n :: n in r[k].instanceNames <==> ClaimedBy(options, ids, k, n)
  {
    AssignFromSpec(options, ids, 0, [], {});
  }

  /** No instance name is claimed by two entries. */
  lemma AssignDisjoint(options: seq<MonitorOptions>, ids: seq<MonitorIdObject>, k1: nat, k2: nat, n: CsString)
    requires k1 < k2 < |options|
    requires n in Assign(options, ids)[k1].instanceNames
    ensures n !in Assign(options, ids)[k2].instanceNames
  {
    AssignClaims(options, ids);
  }

  lemma {:induction false} CollectFromInOrder(o: MonitorOptions, ids: seq<MonitorIdObject>, j: nat, names: seq<CsString>, used: set<CsString>)
    requires j <= |ids|
    ensures var names' := CollectFrom(o, ids, j, names, used).0;
      |names| <= |names'| && names'[..|names|] == names && IsSubsequence(names'[|names|..], InstanceNamesOf(ids)[j..])
    decreases |ids| - j
  {
    var all := InstanceNamesOf(ids);
    if j == |ids| {
      var names' := CollectFrom(o, ids, j, names, used).0;
      assert names'[|names|..] == [];
    } else {
      var n0 := ids[j].instanceName;
      assert all[j..][1..] == all[j + 1..] && all[j..][0] == n0;
      if n0 !in used && IdMatches(o, ids[j]) {
        CollectFromInOrder(o, ids, j + 1, names + [n0], used + {n0});
        var names' := CollectFrom(o, ids, j + 1, names + [n0], used + {n0}).0;
        assert names'[..|names|] == names'[..|names| + 1][..|names|];
        assert names'[|names|..][0] == names'[..|names| + 1][|names|] == n0;
        assert names'[|names|..][1..] == names'[|names| + 1..];
      } else {
        CollectFromInOrder(o, ids, j + 1, names, used);
      }
    }
  }

  lemma {:induction false} AssignFromInOrder(options: seq<MonitorOptions>, ids: seq<MonitorIdObject>, k: nat, acc: seq<MatchedEntry>,
                                             used: set<CsString>, m: nat)
    requires k <= m < |options| && |acc| == k
    ensures IsSubsequence(AssignFrom(options, ids, k, acc, used)[m].instanceNames, InstanceNamesOf(ids))
    decreases |options| - k
  {
    var (names, used') := CollectFrom(options[k], ids, 0, [], used);
    var acc' := acc + [MatchedEntry(options[k], names)];
    var r := AssignFrom(options, ids, k + 1, acc', used');
    assert r == AssignFrom(options, ids, k, acc, used);
    if m == k {
      CollectFromInOrder(options[k], ids, 0, [], used);
      assert names[0..] == names && InstanceNamesOf(ids)[0..] == InstanceNamesOf(ids);
      assert r[k] == r[..k + 1][k] == acc'[k];
    } else {
      AssignFromInOrder(options, ids, k + 1, acc', used', m);
    }
  }

  /** Each entry's list keeps the enumeration order of the monitors. */
  lemma AssignInOrder(options: seq<MonitorOptions>, ids: seq<MonitorIdObject>, k: nat)
    requires k < |options|
    ensures IsSubsequence(Assign(options, ids)[k].instanceNames, InstanceNamesOf(ids))
  {
    AssignFromInOrder(options, ids, 0, [], {}, k);
  }

  lemma {:induction false} CollectFromFirst(o: MonitorOptions, ids: seq<MonitorIdObject>, j: nat)
    requires j <= |ids|
    ensures var names := CollectFrom(o, ids, j, [], {}).0;
      && (names == [] <==> forall i | j <= i < |ids| :: !IdMatches(o, ids[i]))
      && (names != [] ==> exists i | j <= i < |ids| ::
            && IdMatches(o, ids[i]) && names[0] == ids[i].instanceName
            && forall i' | j <= i' < i :: !IdMatches(o, ids[i']))
    decreases |ids| - j
  {
    if j < |ids| {
      var n0 := ids[j].instanceName;
      if IdMatches(o, ids[j]) {
        assert CollectFrom(o, ids, j, [], {}) == CollectFrom(o, ids, j + 1, [n0], {n0}) by {
          assert [] + [n0] == [n0] && {} + {n0} == {n0};
        }
        CollectFromInOrder(o, ids, j + 1, [n0], {n0});
        var names := CollectFrom(o, ids, j + 1, [n0], {n0}).0;
        assert names[0] == names[..1][0] == n0;
      } else {
        assert CollectFrom(o, ids, j, [], {}) == CollectFrom(o, ids, j + 1, [], {});
        CollectFromFirst(o, ids, j + 1);
      }
    }
  }

  /** The main monitor: the first entry claims a monitor exactly when some
      monitor matches it, and then the first name in its list is that of the
      first monitor, in enumeration order, that matches it. */
  lemma MainMonitorIsFirstMatch(options: seq<MonitorOptions>, ids: seq<MonitorIdObject>)
    requires |options| > 0
    ensures var names := Assign(options, ids)[0].instanceNames;
      && (names == [] <==> forall i | 0 <= i < |ids| :: !IdMatches(options[0], ids[i]))
      && (names != [] ==> exists i | 0 <= i < |ids| ::
            && IdMatches(options[0], ids[i]) && names[0] == ids[i].instanceName
            && forall i' | 0 <= i' < i :: !IdMatches(options[0], ids[i']))
  {
    var (names, used') := CollectFrom(options[0], ids, 0, [], {});
    var r := AssignFrom(options, ids, 1, [MatchedEntry(options[0], names)], used');
    assert [] + [MatchedEntry(options[0], names)] == [MatchedEntry(options[0], names)];
    assert Assign(options, ids) == r;
    assert r[0] == r[..1][0];
    CollectFromFirst(options[0], ids, 0);
  }

  // ---------------------------------------------------------------------------
  // Clamping and scaling
  // ---------------------------------------------------------------------------

  /** The main monitor's new brightness: `min` below the range, `max` above it,
      the current value otherwise. */
  function Clamp(current: byte, min: byte, max: byte): (r: byte)
    ensures min <= max ==> min <= r <= max
    ensures min <= max ==> (r == current <==> min <= current <= max)
    ensures current < min ==> r == min
    ensures min <= current && max < current ==> r == max
    ensures min <= current <= max ==> r == current
  {
    if current < min then min
    else if max < current then max
    else current
  }

  /** The brightness for another entry: `aMin + (aMax - aMin) * (new - mMin) /
      (mMax - mMin)` in C# int arithmetic, cast to byte. A main range with
      `mMax == mMin` throws DivideByZeroException. */
  function Scale(another: MonitorOptions, main: MonitorOptions, newBrightness: byte): (r: Result<byte>)
    ensures r.Throw? <==> main.max == main.min
    ensures r.Throw? ==> r.error == DivideByZero
  {
    if main.max == main.min then Throw(DivideByZero)
    else
      Ok(ToByte(another.min + Div((another.max - another.min) * (newBrightness - main.min), main.max - main.min)))
  }

  lemma DivBounds(num: int, den: int, top: int)
    requires 0 < den && 0 <= num <= top * den && 0 <= top
    ensures 0 <= Div(num, den) <= top
  {
    var q := num / den;
    assert q * den <= num;
    if q > top {
      MulBounds(q - top, den);
    }
  }

  /** For an ordered main range containing `newBrightness` and an ordered
      range of the other entry, the value lies in the other entry's range. */
  lemma ScaleWithinRange(another: MonitorOptions, main: MonitorOptions, newBrightness: byte)
    requires main.min < main.max && main.min <= newBrightness <= main.max
    requires another.min <= another.max
    ensures Scale(another, main, newBrightness).Ok?
    ensures another.min <= Scale(another, main, newBrightness).value <= another.max
  {
    var span, offset, den := another.max - another.min, newBrightness - main.min, main.max - main.min;
    QuotientBounds(span, offset, den);
    var q := Div(span * offset, den);
    assert 0 <= another.min + q <= another.max;
    assert Scale(another, main, newBrightness) == Ok(ToByte(another.min + q));
  }

  /** `span * offset / den` lies in [0, span] when `offset` lies in [0, den]. */
  lemma QuotientBounds(span: int, offset: int, den: int)
    requires 0 <= span && 0 <= offset <= den && 0 < den
    ensures 0 <= Div(span * offset, den) <= span
  {
    assert span * offset <= span * den by {
      MulBounds(den - offset, span);
      assert span * den - span * offset == (den - offset) * span;
    }
    assert 0 <= span * offset by {
      MulBounds(offset, span);
    }
    DivBounds(span * offset, den, span);
  }

  /** The ends of the main range map to the ends of the other range. */
  lemma ScaleEndpoints(another: MonitorOptions, main: MonitorOptions)
    requires main.min != main.max
    ensures Scale(another, main, main.min) == Ok(another.min)
    ensures Scale(another, main, main.max) == Ok(another.max)
  {
    var span, den := another.max - another.min, main.max - main.min;
    assert span * (main.min - main.min) == 0 * den;
    DivExact(0, den);
    DivExact(span, den);
  }

  /** An entry scaled against its own range keeps the value unchanged. */
  lemma ScaleSelf(main: MonitorOptions, newBrightness: byte)
    requires main.min != main.max
    ensures Scale(main, main, newBrightness) == Ok(newBrightness)
  {
    var offset, den := newBrightness - main.min, main.max - main.min;
    assert den * offset == offset * den;
    DivExact(offset, den);
  }

  // ---------------------------------------------------------------------------
  // Channel fallback for reads and writes
  // ---------------------------------------------------------------------------

  /** What a pass reads and writes through: WMI, and the physical monitor
      devices enumerated for this pass with their current brightness. */
  datatype Channels = Channels(wmi: WmiState, devices: seq<PhysicalMonitorDevice>, panelBrightness: map<Handle, int>)

  ghost predicate HasBrightnessObject(wmi: WmiState, instanceName: CsString)
  {
    exists i | 0 <= i < |wmi.brightnessObjects| :: wmi.brightnessObjects[i].instanceName == instanceName
  }

  /** A device with this DeviceId exists and has a non-empty capability string. */
  ghost predicate HandleChannelUsable(devices: seq<PhysicalMonitorDevice>, deviceId: CsString)
  {
    exists i | 0 <= i < |devices| ::
      && devices[i].deviceId == deviceId
      && devices[i].capabilitiesString != []
      && forall j | 0 <= j < i :: devices[j].deviceId != deviceId
  }

  /** `i` is the first WmiMonitorBrightness object with the name. */
  ghost predicate FirstObjectAt(objects: seq<BrightnessObject>, instanceName: CsString, i: int)
  {
    && 0 <= i < |objects|
    && objects[i].instanceName == instanceName
    && forall j | 0 <= j < i :: objects[j].instanceName != instanceName
  }

  /** `i` is the first device with this DeviceId, the one List.Find returns. */
  ghost predicate FirstDeviceAt(devices: seq<PhysicalMonitorDevice>, deviceId: CsString, i: int)
  {
    && 0 <= i < |devices|
    && devices[i].deviceId == deviceId
    && forall j | 0 <= j < i :: devices[j].deviceId != deviceId
  }

  /** ActualService.GetBrightness: the first WmiMonitorBrightness object
      with the name, else the handle of the device found for the name when
      its capability string is non-empty, else 0. */
  function GetBrightness(instanceName: CsString, ch: Channels): (r: Result<byte>)
    ensures HasBrightnessObject(ch.wmi, instanceName) ==> r.Ok?
    ensures !HasBrightnessObject(ch.wmi, instanceName) ==> (r.Throw? <==> !EndsWith(instanceName, OrdinalSuffix))
    ensures !HasBrightnessObject(ch.wmi, instanceName) && r.Ok? && !HandleChannelUsable(ch.devices, DevicePath(instanceName).value)
      ==> r.value == 0
    ensures forall i | FirstObjectAt(ch.wmi.brightnessObjects, instanceName, i) ::
      r == Ok(ch.wmi.brightnessObjects[i].currentBrightness)
    ensures !HasBrightnessObject(ch.wmi, instanceName) && EndsWith(instanceName, OrdinalSuffix) ==>
      forall i | FirstDeviceAt(ch.devices, DevicePath(instanceName).value, i) && ch.devices[i].capabilitiesString != [] ::
        r == Ok(ToByte(PanelReading(ch.panelBrightness, ch.devices[i].physicalMonitorHandle)))
  {
    var objects := ch.wmi.brightnessObjects;
    var i := FirstIndex(objects, (o: BrightnessObject) => o.instanceName == instanceName);
    if i < |objects| then Ok(objects[i].currentBrightness)
    else
      match FindPhysicalMonitorInfo(instanceName, ch.devices)
      case Throw(e) => Throw(e)
      case Ok(found) =>
        if found.Some? && found.value.capabilitiesString != [] then
          Ok(ToByte(PanelReading(ch.panelBrightness, found.value.physicalMonitorHandle)))
        else Ok(0)
  }

  /** ActualService.SetBrightness, as the writes it issues: through WMI when
      a WmiMonitorBrightnessMethods object has the name, else through the
      handle of the device found for the name when its capability string is
      non-empty, else none. */
  function SetBrightness(instanceName: CsString, brightness: byte, ch: Channels): (r: Result<seq<BrightnessWrite>>)
    ensures r.Ok? ==> |r.value| <= 1
    ensures r.Ok? ==> forall w | w in r.value :: w.instanceName == instanceName && w.brightness == brightness
    ensures instanceName in ch.wmi.brightnessMethods ==> r == Ok([BrightnessWrite(instanceName, ViaWmi, brightness)])
    ensures instanceName !in ch.wmi.brightnessMethods ==> (r.Throw? <==> !EndsWith(instanceName, OrdinalSuffix))
    ensures instanceName !in ch.wmi.brightnessMethods && r.Ok? ==>
      (r.value != [] <==> HandleChannelUsable(ch.devices, DevicePath(instanceName).value))
    ensures instanceName !in ch.wmi.brightnessMethods && EndsWith(instanceName, OrdinalSuffix) ==>
      forall i | FirstDeviceAt(ch.devices, DevicePath(instanceName).value, i) && ch.devices[i].capabilitiesString != [] ::
        r == Ok([BrightnessWrite(instanceName, ViaHandle(ch.devices[i].physicalMonitorHandle), brightness)])
  {
    if instanceName in ch.wmi.brightnessMethods then Ok([BrightnessWrite(instanceName, ViaWmi, brightness)])
    else
      match FindPhysicalMonitorInfo(instanceName, ch.devices)
      case Throw(e) => Throw(e)
      case Ok(found) =>
        if found.Some? && found.value.capabilitiesString != [] then
          Ok([BrightnessWrite(instanceName, ViaHandle(found.value.physicalMonitorHandle), brightness)])
        else Ok([])
  }

  // ---------------------------------------------------------------------------
  // The pass
  // ---------------------------------------------------------------------------

  /** The inner propagation loop from name `i` on: every name but the main
      one gets `brightness`; the first exception ends the pass. */
  function PropagateNames(names: seq<CsString>, i: nat, mainInstanceName: CsString, brightness: byte, ch: Channels, acc: seq<BrightnessWrite>)
    : (seq<BrightnessWrite>, Option<Exception>)
    requires i <= |names|
    decreases |names| - i
  {
    if i == |names| then (acc, None)
    else if names[i] == mainInstanceName then PropagateNames(names, i + 1, mainInstanceName, brightness, ch, acc)
    else
      match SetBrightness(names[i], brightness, ch)
      case Throw(e) => (acc, Some(e))
      case Ok(ws) => PropagateNames(names, i + 1, mainInstanceName, brightness, ch, acc + ws)
  }

  /** The outer propagation loop from entry `k` on: the entry's value is
      scaled first (which may throw), then written to its names. */
  function PropagateEntries(entries: seq<MatchedEntry>, k: nat, mainOptions: MonitorOptions, newBrightness: byte,
                            mainInstanceName: CsString, ch: Channels, acc: seq<BrightnessWrite>)
    : (seq<BrightnessWrite>, Option<Exception>)
    requires k <= |entries|
    decreases |entries| - k
  {
    if k == |entries| then (acc, None)
    else
      match Scale(entries[k].options, mainOptions, newBrightness)
      case Throw(e) => (acc, Some(e))
      case Ok(b) =>
        var (acc', thrown) := PropagateNames(entries[k].instanceNames, 0, mainInstanceName, b, ch, acc);
        if thrown.Some? then (acc', thrown)
        else PropagateEntries(entries, k + 1, mainOptions, newBrightness, mainInstanceName, ch, acc')
  }

  /** What a pass does: the writes it issues, in order; the handles it
      destroys; and the exception that ended it, if any. */
  datatype SyncOutcome = SyncOutcome(writes: seq<BrightnessWrite>, destroyed: seq<Handle>, thrown: Option<Exception>)

  /** The main monitor's write, if its brightness had to be clamped. */
  function MainWrite(mainInstanceName: CsString, current: byte, newBrightness: byte, ch: Channels): Result<seq<BrightnessWrite>>
  {
    if newBrightness != current then SetBrightness(mainInstanceName, newBrightness, ch) else Ok([])
  }

  /** The pass once the first entry has claimed a monitor and the physical
      monitor devices have been enumerated. Handles are destroyed only when
      the pass completes. */
  function SyncClaimed(entries: seq<MatchedEntry>, ch: Channels): SyncOutcome
    requires |entries| > 0 && |entries[0].instanceNames| > 0
  {
    var mainInstanceName := entries[0].instanceNames[0];
    var mainOptions := entries[0].options;
    match GetBrightness(mainInstanceName, ch)
    case Throw(e) => SyncOutcome([], [], Some(e))
    case Ok(current) =>
      var newBrightness := Clamp(current, mainOptions.min, mainOptions.max);
      match MainWrite(mainInstanceName, current, newBrightness, ch)
      case Throw(e) => SyncOutcome([], [], Some(e))
      case Ok(w0) =>
        var (writes, thrown) := PropagateEntries(entries, 0, mainOptions, newBrightness, mainInstanceName, ch, w0);
        if thrown.Some? then SyncOutcome(writes, [], thrown)
        else SyncOutcome(writes, Handles(ch.devices), None)
  }

  /** One whole pass (ActualService.OnSync), with the capability cache it
      starts from and leaves behind. An empty options list throws
      ArgumentOutOfRangeException at the lookup of the first entry. When the
      first entry claims no monitor the pass returns before any native call:
      no write, no handle, cache intact. */
  function SyncPassOutcome(options: seq<MonitorOptions>, wmi: WmiState, adapters: seq<DisplayAdapter>,
                           panelBrightness: map<Handle, int>, cache: map<CsString, CsString>): (r: (SyncOutcome, map<CsString, CsString>))
    ensures options == [] ==> r == (SyncOutcome([], [], Some(ArgumentOutOfRange)), cache)
    ensures options != [] && Assign(options, wmi.monitorIds)[0].instanceNames == [] ==> r == (SyncOutcome([], [], None), cache)
  {
    var entries := Assign(options, wmi.monitorIds);
    if entries == [] then (SyncOutcome([], [], Some(ArgumentOutOfRange)), cache)
    else if entries[0].instanceNames == [] then (SyncOutcome([], [], None), cache)
    else
      var (devices, cache') := EnumerateDevices(adapters, cache);
      (SyncClaimed(entries, Channels(wmi, devices, panelBrightness)), cache')
  }

  // ---------------------------------------------------------------------------
  // Properties of the pass
  // ---------------------------------------------------------------------------

  /** A write of the propagation for entries `from..`: to a monitor other than
      the main one, claimed by one of those entries, with that entry's scaled
      value. */
  ghost predicate PropagatedWrite(entries: seq<MatchedEntry>, from: nat, mainOptions: MonitorOptions, newBrightness: byte,
                                  mainInstanceName: CsString, w: BrightnessWrite)
  {
    && w.instanceName != mainInstanceName
    && exists m | from <= m < |entries| ::
         && w.instanceName in entries[m].instanceNames
         && Scale(entries[m].options, mainOptions, newBrightness) == Ok(w.brightness)
  }

  ghost predicate AllPropagated(entries: seq<MatchedEntry>, from: nat, mainOptions: MonitorOptions, newBrightness: byte,
                                mainInstanceName: CsString, ws: seq<BrightnessWrite>)
  {
    forall w | w in ws :: PropagatedWrite(entries, from, mainOptions, newBrightness, mainInstanceName, w)
  }

  /** A write of the inner loop: another monitor of the list, with the value. */
  ghost predicate NameWrite(names: seq<CsString>, mainInstanceName: CsString, brightness: byte, w: BrightnessWrite)
  {
    w.instanceName != mainInstanceName && w.instanceName in names && w.brightness == brightness
  }

  lemma {:induction false} PropagateNamesWrites(names: seq<CsString>, i: nat, mainInstanceName: CsString, brightness: byte, ch: Channels, acc: seq<BrightnessWrite>)
    requires i <= |names|
    ensures var ws := PropagateNames(names, i, mainInstanceName, brightness, ch, acc).0;
      && |acc| <= |ws| && ws[..|acc|] == acc
      && forall w | w in ws[|acc|..] :: NameWrite(names, mainInstanceName, brightness, w)
    decreases |names| - i
  {
    if i < |names| {
      if names[i] == mainInstanceName {
        PropagateNamesWrites(names, i + 1, mainInstanceName, brightness, ch, acc);
      } else {
        match SetBrightness(names[i], brightness, ch)
        case Throw(e) =>
        case Ok(ws0) =>
          var acc' := acc + ws0;
          PropagateNamesWrites(names, i + 1, mainInstanceName, brightness, ch, acc');
          var ws := PropagateNames(names, i + 1, mainInstanceName, brightness, ch, acc').0;
          var rest := ws[|acc'|..];
          assert ws == acc' + rest;
          assert acc' + rest == acc + (ws0 + rest);
          assert ws[..|acc|] == acc && ws[|acc|..] == ws0 + rest;
        }
    }
  }

  lemma AllPropagatedAppend(entries: seq<MatchedEntry>, from: nat, mainOptions: MonitorOptions, newBrightness: byte,
                            mainInstanceName: CsString, a: seq<BrightnessWrite>, b: seq<BrightnessWrite>)
    requires AllPropagated(entries, from, mainOptions, newBrightness, mainInstanceName, a)
    requires AllPropagated(entries, from, mainOptions, newBrightness, mainInstanceName, b)
    ensures AllPropagated(entries, from, mainOptions, newBrightness, mainInstanceName, a + b)
  {
  }

  lemma AllPropagatedWiden(entries: seq<MatchedEntry>, from: nat, mainOptions: MonitorOptions, newBrightness: byte,
                           mainInstanceName: CsString, ws: seq<BrightnessWrite>)
    requires from < |entries|
    requires AllPropagated(entries, from + 1, mainOptions, newBrightness, mainInstanceName, ws)
    ensures AllPropagated(entries, from, mainOptions, newBrightness, mainInstanceName, ws)
  {
    forall w | w in ws ensures PropagatedWrite(entries, from, mainOptions, newBrightness, mainInstanceName, w) {
      assert PropagatedWrite(entries, from + 1, mainOptions, newBrightness, mainInstanceName, w);
    }
  }

  lemma EntryWritesPropagated(entries: seq<MatchedEntry>, k: nat, mainOptions: MonitorOptions, newBrightness: byte,
                              mainInstanceName: CsString, b: byte, ws: seq<BrightnessWrite>)
    requires k < |entries|
    requires Scale(entries[k].options, mainOptions, newBrightness) == Ok(b)
    requires forall w | w in ws :: NameWrite(entries[k].instanceNames, mainInstanceName, b, w)
    ensures AllPropagated(entries, k, mainOptions, newBrightness, mainInstanceName, ws)
  {
    forall w | w in ws ensures PropagatedWrite(entries, k, mainOptions, newBrightness, mainInstanceName, w) {
      assert NameWrite(entries[k].instanceNames, mainInstanceName, b, w);
    }
  }

  lemma {:induction false} PropagateEntriesWrites(entries: seq<MatchedEntry>, k: nat, mainOptions: MonitorOptions, newBrightness: byte,
                                                  mainInstanceName: CsString, ch: Channels, acc: seq<BrightnessWrite>)
    requires k <= |entries|
    ensures var ws := PropagateEntries(entries, k, mainOptions, newBrightness, mainInstanceName, ch, acc).0;
      && |acc| <= |ws| && ws[..|acc|] == acc
      && AllPropagated(entries, k, mainOptions, newBrightness, mainInstanceName, ws[|acc|..])
    decreases |entries| - k
  {
    if k < |entries| {
      match Scale(entries[k].options, mainOptions, newBrightness)
      case Throw(e) =>
      case Ok(b) =>
        var names := entries[k].instanceNames;
        PropagateNamesWrites(names, 0, mainInstanceName, b, ch, acc);
        var (acc', thrown) := PropagateNames(names, 0, mainInstanceName, b, ch, acc);
        EntryWritesPropagated(entries, k, mainOptions, newBrightness, mainInstanceName, b, acc'[|acc|..]);
        if thrown.None? {
          PropagateEntriesWrites(entries, k + 1, mainOptions, newBrightness, mainInstanceName, ch, acc');
          var ws := PropagateEntries(entries, k + 1, mainOptions, newBrightness, mainInstanceName, ch, acc').0;
          assert ws[..|acc|] == ws[..|acc'|][..|acc|];
          assert ws[|acc|..] == acc'[|acc|..] + ws[|acc'|..];
          AllPropagatedWiden(entries, k, mainOptions, newBrightness, mainInstanceName, ws[|acc'|..]);
          AllPropagatedAppend(entries, k, mainOptions, newBrightness, mainInstanceName, acc'[|acc|..], ws[|acc'|..]);
        }
    }
  }

  /** The main write comes first and is the only write the main monitor gets:
      it is issued only when clamping changed the brightness, and carries the
      clamped value. Every later write goes to another monitor of some entry
      and carries that entry's scaled value. */
  lemma SyncWrites(entries: seq<MatchedEntry>, ch: Channels)
    requires |entries| > 0 && |entries[0].instanceNames| > 0
    ensures var o := SyncClaimed(entries, ch);
      var mainInstanceName := entries[0].instanceNames[0];
      var mainOptions := entries[0].options;
      o.writes != [] ==> exists current: byte ::
        && GetBrightness(mainInstanceName, ch) == Ok(current)
        && var newBrightness := Clamp(current, mainOptions.min, mainOptions.max);
        && MainWrite(mainInstanceName, current, newBrightness, ch).Ok?
        && var w0 := MainWrite(mainInstanceName, current, newBrightness, ch).value;
        && o.writes[..|w0|] == w0
        && (w0 != [] ==> newBrightness != current && w0 == [BrightnessWrite(mainInstanceName, w0[0].channel, newBrightness)])
        && AllPropagated(entries, 0, mainOptions, newBrightness, mainInstanceName, o.writes[|w0|..])
  {
    var mainInstanceName := entries[0].instanceNames[0];
    var mainOptions := entries[0].options;
    match GetBrightness(mainInstanceName, ch)
    case Throw(e) =>
    case Ok(current) =>
      var newBrightness := Clamp(current, mainOptions.min, mainOptions.max);
      match MainWrite(mainInstanceName, current, newBrightness, ch)
      case Throw(e) =>
      case Ok(w0) =>
        PropagateEntriesWrites(entries, 0, mainOptions, newBrightness, mainInstanceName, ch, w0);
  }

  /** Concatenation of `parts`, in order. */
  ghost function Flatten<T>(parts: seq<seq<T>>): seq<T>
  {
    if parts == [] then [] else parts[0] + Flatten(parts[1..])
  }

  lemma {:induction false} FlattenMember<T>(parts: seq<seq<T>>, k: nat, x: T)
    requires k < |parts| && x in parts[k]
    ensures x in Flatten(parts)
    decreases k
  {
    if k > 0 {
      assert parts[1..][k - 1] == parts[k];
      FlattenMember(parts[1..], k - 1, x);
    }
  }

  /** The writes one name of an entry receives when the call for it returns:
      none for the main monitor, whose write came first. */
  ghost function NameWrites(name: CsString, mainInstanceName: CsString, b: byte, ch: Channels): (r: seq<BrightnessWrite>)
    ensures forall w | w in r :: w.instanceName == name
  {
    if name == mainInstanceName then []
    else match SetBrightness(name, b, ch)
      case Ok(ws) => ws
      case Throw(_) => []
  }

  /** Each name's writes, in list order. */
  ghost function NameParts(names: seq<CsString>, mainInstanceName: CsString, b: byte, ch: Channels): seq<seq<BrightnessWrite>>
  {
    seq(|names|, i requires 0 <= i < |names| => NameWrites(names[i], mainInstanceName, b, ch))
  }

  /** Each entry's writes at its scaled value, in entry order. */
  ghost function EntryParts(entries: seq<MatchedEntry>, mainOptions: MonitorOptions, newBrightness: byte,
                            mainInstanceName: CsString, ch: Channels): seq<seq<BrightnessWrite>>
    requires mainOptions.min != mainOptions.max
  {
    seq(|entries|, k requires 0 <= k < |entries| =>
      Flatten(NameParts(entries[k].instanceNames, mainInstanceName, Scale(entries[k].options, mainOptions, newBrightness).value, ch)))
  }

  /** Reference for the propagation of a completed pass: every entry in
      order, every name of it in list order but the main one, each written
      with the entry's scaled value through the channel SetBrightness picks. */
  ghost function PassReference(entries: seq<MatchedEntry>, mainOptions: MonitorOptions, newBrightness: byte,
                               mainInstanceName: CsString, ch: Channels): seq<BrightnessWrite>
    requires mainOptions.min != mainOptions.max
  {
    Flatten(EntryParts(entries, mainOptions, newBrightness, mainInstanceName, ch))
  }

  /** No call for names `from..` other than the main one throws. */
  ghost predicate NoNameThrows(names: seq<CsString>, from: nat, mainInstanceName: CsString, b: byte, ch: Channels)
  {
    forall i | from <= i < |names| && names[i] != mainInstanceName :: SetBrightness(names[i], b, ch).Ok?
  }

  lemma {:induction false} PropagateNamesComplete(names: seq<CsString>, i: nat, mainInstanceName: CsString, b: byte,
                                                  ch: Channels, acc: seq<BrightnessWrite>)
    requires i <= |names|
    ensures var (ws, thrown) := PropagateNames(names, i, mainInstanceName, b, ch, acc);
      thrown.None? ==>
        && NoNameThrows(names, i, mainInstanceName, b, ch)
        && ws == acc + Flatten(NameParts(names, mainInstanceName, b, ch)[i..])
    decreases |names| - i
  {
    var parts := NameParts(names, mainInstanceName, b, ch);
    if i == |names| {
      assert parts[i..] == [];
    } else {
      assert parts[i..][1..] == parts[i + 1..];
      if names[i] == mainInstanceName {
        PropagateNamesComplete(names, i + 1, mainInstanceName, b, ch, acc);
      } else {
        match SetBrightness(names[i], b, ch)
        case Throw(e) =>
        case Ok(ws) =>
          PropagateNamesComplete(names, i + 1, mainInstanceName, b, ch, acc + ws);
          assert parts[i] == ws;
      }
    }
  }

  lemma {:induction false} PropagateEntriesComplete(entries: seq<MatchedEntry>, k: nat, mainOptions: MonitorOptions, newBrightness: byte,
                                                    mainInstanceName: CsString, ch: Channels, acc: seq<BrightnessWrite>)
    requires k <= |entries|
    requires mainOptions.min != mainOptions.max
    ensures var (ws, thrown) := PropagateEntries(entries, k, mainOptions, newBrightness, mainInstanceName, ch, acc);
      thrown.None? ==>
        && (forall m | k <= m < |entries| ::
              NoNameThrows(entries[m].instanceNames, 0, mainInstanceName, Scale(entries[m].options, mainOptions, newBrightness).value, ch))
        && ws == acc + Flatten(EntryParts(entries, mainOptions, newBrightness, mainInstanceName, ch)[k..])
    decreases |entries| - k
  {
    var parts := EntryParts(entries, mainOptions, newBrightness, mainInstanceName, ch);
    if k == |entries| {
      assert parts[k..] == [];
    } else {
      assert parts[k..][1..] == parts[k + 1..];
      var b := Scale(entries[k].options, mainOptions, newBrightness).value;
      var names := entries[k].instanceNames;
      PropagateNamesComplete(names, 0, mainInstanceName, b, ch, acc);
      var (acc', thrown) := PropagateNames(names, 0, mainInstanceName, b, ch, acc);
      if thrown.None? {
        PropagateEntriesComplete(entries, k + 1, mainOptions, newBrightness, mainInstanceName, ch, acc');
        assert NameParts(names, mainInstanceName, b, ch)[0..] == NameParts(names, mainInstanceName, b, ch);
        assert parts[k] == Flatten(NameParts(names, mainInstanceName, b, ch));
      }
    }
  }

  /** Completeness of a pass: when it completes, the main range is not
      degenerate, no call threw, and the writes are exactly the main write
      followed by the reference propagation. */
  lemma CompletedPassWrites(entries: seq<MatchedEntry>, ch: Channels)
    requires |entries| > 0 && |entries[0].instanceNames| > 0
    ensures var o := SyncClaimed(entries, ch);
      var mainInstanceName := entries[0].instanceNames[0];
      var mainOptions := entries[0].options;
      o.thrown.None? ==>
        && mainOptions.min != mainOptions.max
        && GetBrightness(mainInstanceName, ch).Ok?
        && var current := GetBrightness(mainInstanceName, ch).value;
        && var newBrightness := Clamp(current, mainOptions.min, mainOptions.max);
        && MainWrite(mainInstanceName, current, newBrightness, ch).Ok?
        && o.writes == MainWrite(mainInstanceName, current, newBrightness, ch).value
                       + PassReference(entries, mainOptions, newBrightness, mainInstanceName, ch)
        && forall m | 0 <= m < |entries| ::
             NoNameThrows(entries[m].instanceNames, 0, mainInstanceName, Scale(entries[m].options, mainOptions, newBrightness).value, ch)
  {
    var mainInstanceName := entries[0].instanceNames[0];
    var mainOptions := entries[0].options;
    if mainOptions.min == mainOptions.max {
      DegenerateMainRangeThrows(entries, ch);
    } else {
      match GetBrightness(mainInstanceName, ch)
      case Throw(e) =>
      case Ok(current) =>
        var newBrightness := Clamp(current, mainOptions.min, mainOptions.max);
        match MainWrite(mainInstanceName, current, newBrightness, ch)
        case Throw(e) =>
        case Ok(w0) =>
          SyncClaimedPropagates(entries, ch, current, w0);
          PropagateEntriesComplete(entries, 0, mainOptions, newBrightness, mainInstanceName, ch, w0);
          assert EntryParts(entries, mainOptions, newBrightness, mainInstanceName, ch)[0..]
              == EntryParts(entries, mainOptions, newBrightness, mainInstanceName, ch);
    }
  }

  lemma SyncClaimedPropagates(entries: seq<MatchedEntry>, ch: Channels, current: byte, w0: seq<BrightnessWrite>)
    requires |entries| > 0 && |entries[0].instanceNames| > 0
    requires GetBrightness(entries[0].instanceNames[0], ch) == Ok(current)
    requires MainWrite(entries[0].instanceNames[0], current, Clamp(current, entries[0].options.min, entries[0].options.max), ch) == Ok(w0)
    ensures var p := PropagateEntries(entries, 0, entries[0].options, Clamp(current, entries[0].options.min, entries[0].options.max),
                                      entries[0].instanceNames[0], ch, w0);
      SyncClaimed(entries, ch).writes == p.0 && SyncClaimed(entries, ch).thrown == p.1
  {
  }

  /** Every monitor of entry `k` other than the main one, when its channel is
      usable (a WmiMonitorBrightnessMethods object, or a device with a
      non-empty capability string), receives a write in a completed pass,
      carrying entry `k`'s scaled value. */
  lemma ClaimedNameWritten(entries: seq<MatchedEntry>, ch: Channels, current: byte, k: nat, i: nat)
    requires |entries| > 0 && |entries[0].instanceNames| > 0
    requires GetBrightness(entries[0].instanceNames[0], ch) == Ok(current)
    requires SyncClaimed(entries, ch).thrown.None?
    requires k < |entries| && i < |entries[k].instanceNames|
    requires entries[k].instanceNames[i] != entries[0].instanceNames[0]
    ensures var o := SyncClaimed(entries, ch);
      var n := entries[k].instanceNames[i];
      var mainOptions := entries[0].options;
      var newBrightness := Clamp(current, mainOptions.min, mainOptions.max);
      && mainOptions.min != mainOptions.max
      && var b := Scale(entries[k].options, mainOptions, newBrightness).value;
      && SetBrightness(n, b, ch).Ok?
      && (forall w | w in SetBrightness(n, b, ch).value :: w in o.writes)
      && (n in ch.wmi.brightnessMethods || HandleChannelUsable(ch.devices, DevicePath(n).value) ==>
            exists c :: BrightnessWrite(n, c, b) in o.writes)
  {
    var mainInstanceName := entries[0].instanceNames[0];
    var mainOptions := entries[0].options;
    var n := entries[k].instanceNames[i];
    CompletedPassWrites(entries, ch);
    var newBrightness := Clamp(current, mainOptions.min, mainOptions.max);
    var b := Scale(entries[k].options, mainOptions, newBrightness).value;
    var w0 := MainWrite(mainInstanceName, current, newBrightness, ch).value;
    var names := NameParts(entries[k].instanceNames, mainInstanceName, b, ch);
    var parts := EntryParts(entries, mainOptions, newBrightness, mainInstanceName, ch);
    assert SetBrightness(n, b, ch).Ok?;
    forall w | w in SetBrightness(n, b, ch).value
      ensures w in SyncClaimed(entries, ch).writes
    {
      assert names[i] == SetBrightness(n, b, ch).value;
      FlattenMember(names, i, w);
      FlattenMember(parts, k, w);
    }
    if n in ch.wmi.brightnessMethods || HandleChannelUsable(ch.devices, DevicePath(n).value) {
      var w := SetBrightness(n, b, ch).value[0];
      assert w in SetBrightness(n, b, ch).value;
      assert w == BrightnessWrite(n, w.channel, b);
    }
  }

  /** The writes of `ws` addressed to monitor `n`, in order. */
  ghost function WritesTo(ws: seq<BrightnessWrite>, n: CsString): seq<BrightnessWrite>
  {
    if ws == [] then [] else (if ws[0].instanceName == n then [ws[0]] else []) + WritesTo(ws[1..], n)
  }

  lemma {:induction false} WritesToAppend(a: seq<BrightnessWrite>, b: seq<BrightnessWrite>, n: CsString)
    ensures WritesTo(a + b, n) == WritesTo(a, n) + WritesTo(b, n)
    decreases |a|
  {
    if a != [] {
      assert (a + b)[1..] == a[1..] + b;
      WritesToAppend(a[1..], b, n);
    } else {
      assert a + b == b;
    }
  }

  lemma {:induction false} WritesToUniform(ws: seq<BrightnessWrite>, name: CsString, n: CsString)
    requires forall w | w in ws :: w.instanceName == name
    ensures WritesTo(ws, n) == if name == n then ws else []
    decreases |ws|
  {
    if ws != [] {
      assert ws[0] in ws && ws[0].instanceName == name;
      assert forall w | w in ws[1..] :: w in ws;
      WritesToUniform(ws[1..], name, n);
      if name == n {
        assert ws == [ws[0]] + ws[1..];
      }
    }
  }

  /** Only parts[i] holds writes to `n`; `i == |parts|` means no part does. */
  lemma {:induction false} FlattenWritesTo(parts: seq<seq<BrightnessWrite>>, i: nat, n: CsString)
    requires i <= |parts|
    requires forall j | 0 <= j < |parts| && j != i :: WritesTo(parts[j], n) == []
    ensures WritesTo(Flatten(parts), n) == if i < |parts| then WritesTo(parts[i], n) else []
    decreases |parts|
  {
    if parts != [] {
      WritesToAppend(parts[0], Flatten(parts[1..]), n);
      var i' := if i == 0 then |parts| - 1 else i - 1;
      assert forall j | 0 <= j < |parts[1..]| && j != i' :: parts[1..][j] == parts[j + 1];
      FlattenWritesTo(parts[1..], i', n);
    }
  }

  /** A monitor other than the main one that appears once among the entries
      (entry `k`, position `i`) receives, in a completed pass, exactly the
      writes of its own SetBrightness call at entry `k`'s scaled value: one
      write when its channel is usable, none otherwise. */
  lemma ClaimedNameWrittenOnce(entries: seq<MatchedEntry>, ch: Channels, current: byte, k: nat, i: nat)
    requires |entries| > 0 && |entries[0].instanceNames| > 0
    requires GetBrightness(entries[0].instanceNames[0], ch) == Ok(current)
    requires SyncClaimed(entries, ch).thrown.None?
    requires k < |entries| && i < |entries[k].instanceNames|
    requires entries[k].instanceNames[i] != entries[0].instanceNames[0]
    requires forall m, j | 0 <= m < |entries| && 0 <= j < |entries[m].instanceNames| && entries[m].instanceNames[j] == entries[k].instanceNames[i] ::
      m == k && j == i
    ensures var n := entries[k].instanceNames[i];
      var mainOptions := entries[0].options;
      var newBrightness := Clamp(current, mainOptions.min, mainOptions.max);
      && mainOptions.min != mainOptions.max
      && var b := Scale(entries[k].options, mainOptions, newBrightness).value;
      && SetBrightness(n, b, ch).Ok?
      && WritesTo(SyncClaimed(entries, ch).writes, n) == SetBrightness(n, b, ch).value
  {
    var mainInstanceName := entries[0].instanceNames[0];
    var mainOptions := entries[0].options;
    var n := entries[k].instanceNames[i];
    CompletedPassWrites(entries, ch);
    var newBrightness := Clamp(current, mainOptions.min, mainOptions.max);
    var b := Scale(entries[k].options, mainOptions, newBrightness).value;
    var w0 := MainWrite(mainInstanceName, current, newBrightness, ch).value;
    var parts := EntryParts(entries, mainOptions, newBrightness, mainInstanceName, ch);
    forall m | 0 <= m < |parts| && m != k
      ensures WritesTo(parts[m], n) == []
    {
      var names := NameParts(entries[m].instanceNames, mainInstanceName, Scale(entries[m].options, mainOptions, newBrightness).value, ch);
      forall j | 0 <= j < |names| ensures WritesTo(names[j], n) == [] {
        WritesToUniform(names[j], entries[m].instanceNames[j], n);
      }
      FlattenWritesTo(names, |names|, n);
    }
    var names := NameParts(entries[k].instanceNames, mainInstanceName, b, ch);
    forall j | 0 <= j < |names| && j != i
      ensures WritesTo(names[j], n) == []
    {
      WritesToUniform(names[j], entries[k].instanceNames[j], n);
    }
    FlattenWritesTo(names, i, n);
    WritesToUniform(names[i], n, n);
    FlattenWritesTo(parts, k, n);
    if newBrightness != current {
      WritesToUniform(w0, mainInstanceName, n);
    }
    WritesToAppend(w0, PassReference(entries, mainOptions, newBrightness, mainInstanceName, ch), n);
  }

  /** With the entries the matching builds, every monitor claimed by entry
      `k` other than the main one appears once, so a completed pass writes it
      exactly once when its channel is usable, and never otherwise. */
  lemma AssignedNameWrittenOnce(options: seq<MonitorOptions>, ids: seq<MonitorIdObject>, ch: Channels, current: byte, k: nat, n: CsString)
    requires |options| > 0 && |Assign(options, ids)[0].instanceNames| > 0
    requires GetBrightness(Assign(options, ids)[0].instanceNames[0], ch) == Ok(current)
    requires SyncClaimed(Assign(options, ids), ch).thrown.None?
    requires k < |options| && n in Assign(options, ids)[k].instanceNames
    requires n != Assign(options, ids)[0].instanceNames[0]
    ensures var newBrightness := Clamp(current, options[0].min, options[0].max);
      && options[0].min != options[0].max
      && var b := Scale(options[k], options[0], newBrightness).value;
      && SetBrightness(n, b, ch).Ok?
      && WritesTo(SyncClaimed(Assign(options, ids), ch).writes, n) == SetBrightness(n, b, ch).value
      && (n in ch.wmi.brightnessMethods || HandleChannelUsable(ch.devices, DevicePath(n).value) ==>
            exists c :: WritesTo(SyncClaimed(Assign(options, ids), ch).writes, n) == [BrightnessWrite(n, c, b)])
  {
    var entries := Assign(options, ids);
    AssignClaims(options, ids);
    var i :| 0 <= i < |entries[k].instanceNames| && entries[k].instanceNames[i] == n;
    forall m, j | 0 <= m < |entries| && 0 <= j < |entries[m].instanceNames| && entries[m].instanceNames[j] == n
      ensures m == k && j == i
    {
      if m < k {
        AssignDisjoint(options, ids, m, k, n);
      } else if k < m {
        AssignDisjoint(options, ids, k, m, n);
      }
    }
    ClaimedNameWrittenOnce(entries, ch, current, k, i);
    var b := Scale(options[k], options[0], Clamp(current, options[0].min, options[0].max)).value;
    if n in ch.wmi.brightnessMethods || HandleChannelUsable(ch.devices, DevicePath(n).value) {
      var w := SetBrightness(n, b, ch).value[0];
      assert w in SetBrightness(n, b, ch).value;
      assert SetBrightness(n, b, ch).value == [BrightnessWrite(n, w.channel, b)];
    }
  }

  /** Handles are destroyed, each once and in enumeration order, exactly when
      the pass completes; an exception skips the release altogether. */
  lemma SyncReleasesHandlesOnCompletion(entries: seq<MatchedEntry>, ch: Channels)
    requires |entries| > 0 && |entries[0].instanceNames| > 0
    ensures var o := SyncClaimed(entries, ch);
      && (o.thrown.None? ==> o.destroyed == Handles(ch.devices))
      && (o.thrown.Some? ==> o.destroyed == [])
  {
  }

  /** A main range with `Min == Max` never completes a pass, so handles are
      never destroyed; when the main name ends in "_0" (so that neither the
      read nor the main write can throw) the pass ends with
      DivideByZeroException when the first entry's value is scaled, after at
      most the main write. */
  lemma DegenerateMainRangeThrows(entries: seq<MatchedEntry>, ch: Channels)
    requires |entries| > 0 && |entries[0].instanceNames| > 0
    requires entries[0].options.min == entries[0].options.max
    ensures var o := SyncClaimed(entries, ch);
      && o.thrown.Some? && o.destroyed == []
      && |o.writes| <= 1
      && (EndsWith(entries[0].instanceNames[0], OrdinalSuffix) ==> o.thrown == Some(DivideByZero))
  {
    var mainInstanceName := entries[0].instanceNames[0];
    var mainOptions := entries[0].options;
    match GetBrightness(mainInstanceName, ch)
    case Throw(e) =>
    case Ok(current) =>
      var newBrightness := Clamp(current, mainOptions.min, mainOptions.max);
      match MainWrite(mainInstanceName, current, newBrightness, ch)
      case Throw(e) =>
      case Ok(w0) =>
        assert PropagateEntries(entries, 0, mainOptions, newBrightness, mainInstanceName, ch, w0) == (w0, Some(DivideByZero));
  }

  /** With the entries the matching builds, a propagated write to a monitor of
      the first entry carries exactly the main brightness, and one to a
      monitor of entry k carries a value inside entry k's range when both
      ranges are ordered and the main value is inside the main range. */
  lemma PropagatedValues(options: seq<MonitorOptions>, ids: seq<MonitorIdObject>, newBrightness: byte,
                         mainInstanceName: CsString, w: BrightnessWrite, k: nat)
    requires k < |options|
    requires PropagatedWrite(Assign(options, ids), 0, options[0], newBrightness, mainInstanceName, w)
    requires w.instanceName in Assign(options, ids)[k].instanceNames
    ensures k == 0 ==> w.brightness == newBrightness
    ensures options[0].min < options[0].max && options[0].min <= newBrightness <= options[0].max && options[k].min <= options[k].max
      ==> options[k].min <= w.brightness <= options[k].max
  {
    var entries := Assign(options, ids);
    var m :| 0 <= m < |entries| && w.instanceName in entries[m].instanceNames
      && Scale(entries[m].options, options[0], newBrightness) == Ok(w.brightness);
    AssignClaim(options, ids, m, w.instanceName);
    AssignClaim(options, ids, k, w.instanceName);
    ClaimedByUnique(options, ids, m, k, w.instanceName);
    if k == 0 {
      ScaleSelf(options[0], newBrightness);
    }
    if options[0].min < options[0].max && options[0].min <= newBrightness <= options[0].max && options[k].min <= options[k].max {
      ScaleWithinRange(options[k], options[0], newBrightness);
    }
  }

  /** One name of one entry's list, from AssignClaims. */
  lemma AssignClaim(options: seq<MonitorOptions>, ids: seq<MonitorIdObject>, k: nat, n: CsString)
    requires k < |options| && n in Assign(options, ids)[k].instanceNames
    ensures Assign(options, ids)[k].options == options[k] && ClaimedBy(options, ids, k, n)
  {
    AssignClaims(options, ids);
  }

  /** At most one entry is the earliest to match a name. */
  lemma ClaimedByUnique(options: seq<MonitorOptions>, ids: seq<MonitorIdObject>, k1: int, k2: int, n: CsString)
    requires ClaimedBy(options, ids, k1, n) && ClaimedBy(options, ids, k2, n)
    ensures k1 == k2
  {
  }
}
