/** The native side of the handle channel (MonitorApi): the UNICODE_STRING
    built for an adapter name, the process-wide capability-string cache, and
    the enumeration that pairs each adapter's monitors with the physical
    monitor handles Gdi32 returns for it. */
module NativeApi {
  import opened CSharp
  import opened PhysicalMonitors
  import opened Platform

  const UShortMaxValue: int := 0xFFFF

  /** `(ushort.MaxValue - 1) >> 1`: the longest string a UNICODE_STRING can
      describe (a right shift by one of a non-negative int halves it). */
  const MaxUnicodeStringChars: int := (UShortMaxValue - 1) / 2

  /** The native UNICODE_STRING: lengths in bytes, and the buffer. */
  datatype UnicodeString = UnicodeString(length: ushort, maximumLength: ushort, buffer: CsString)

  /** The UnicodeString constructor: ArgumentOutOfRangeException for strings
      longer than 32767 code units; otherwise Length is the byte length of the
      string and MaximumLength is two bytes more, cast back to ushort. */
  function NewUnicodeString(s: CsString): (r: Result<UnicodeString>)
    ensures r.Throw? <==> |s| > 32767
    ensures r.Throw? ==> r.error == ArgumentOutOfRange
    ensures r.Ok? ==> r.value.length == 2 * |s| && r.value.buffer == s
    ensures r.Ok? && |s| <= 32766 ==> r.value.maximumLength == r.value.length + 2
    ensures r.Ok? && |s| == 32767 ==> r.value.maximumLength == 0
  {
    if MaxUnicodeStringChars < |s| then Throw(ArgumentOutOfRange)
    else
      var length := ToUShort(|s| * 2);
      Ok(UnicodeString(length, ToUShort(length + 2), s))
  }

  /** Adapter names come from a 32-character buffer, so building their
      UnicodeString never throws. */
  lemma AdapterNamesFitUnicodeString(a: DisplayAdapter)
    ensures NewUnicodeString(a.deviceName).Ok?
  {
  }

  /** The capability string the two native queries produce for a monitor:
      the empty string when either of them fails. */
  function QueryCapabilities(m: DisplayMonitor): CsString
  {
    if !m.capabilitiesLengthOk then []
    else if !m.capabilitiesReplyOk then []
    else m.capabilitiesReply
  }

  /** ConcurrentDictionary.GetOrAdd keyed by DeviceId: a cached string is
      returned without querying; otherwise the query result, empty or not, is
      stored and returned. Existing entries are never overwritten. */
  function GetOrAddCapabilities(cache: map<CsString, CsString>, m: DisplayMonitor): (r: (CsString, map<CsString, CsString>))
    ensures r.1.Keys == cache.Keys + {m.deviceId}
    ensures forall k | k in cache :: r.1[k] == cache[k]
    ensures r.0 == r.1[m.deviceId]
    ensures m.deviceId !in cache ==> r.0 == QueryCapabilities(m)
  {
    if m.deviceId in cache then (cache[m.deviceId], cache)
    else var caps := QueryCapabilities(m); (caps, cache[m.deviceId := caps])
  }

  /** After the cache is cleared, the next lookup of any device queries again. */
  lemma ClearedCacheQueriesAgain(m: DisplayMonitor)
    ensures GetOrAddCapabilities(map[], m) == (QueryCapabilities(m), map[m.deviceId := QueryCapabilities(m)])
  {
  }

  /** An adapter contributes devices only when both native calls succeed and
      return as many handles as monitors were counted. */
  predicate Accepted(a: DisplayAdapter)
  {
    a.countStatus == 0 && a.handlesStatus == 0 && a.count == a.handlesReturned
  }

  /** The inner loop stops at the first monitor EnumDisplayDevices does not
      report or at the counted number of monitors, whichever comes first. */
  function PairLimit(a: DisplayAdapter): (n: nat)
    ensures n <= a.count && n <= |a.monitors|
  {
    if |a.monitors| < a.count then |a.monitors| else a.count
  }

  /** The inner loop from monitor `j` on: pairs monitor `j` with handle `j`. */
  function PairFrom(a: DisplayAdapter, j: nat, cache: map<CsString, CsString>, acc: seq<PhysicalMonitorDevice>)
    : (seq<PhysicalMonitorDevice>, map<CsString, CsString>)
    requires j <= PairLimit(a)
    decreases PairLimit(a) - j
  {
    if j == PairLimit(a) then (acc, cache)
    else
      var (caps, cache') := GetOrAddCapabilities(cache, a.monitors[j]);
      PairFrom(a, j + 1, cache', acc + [PhysicalMonitorDevice(a.monitors[j].deviceId, a.handles[j], caps)])
  }

  /** The outer loop from adapter `i` on. */
  function EnumerateFrom(adapters: seq<DisplayAdapter>, i: nat, cache: map<CsString, CsString>, acc: seq<PhysicalMonitorDevice>)
    : (seq<PhysicalMonitorDevice>, map<CsString, CsString>)
    requires i <= |adapters|
    decreases |adapters| - i
  {
    if i == |adapters| then (acc, cache)
    else if !Accepted(adapters[i]) then EnumerateFrom(adapters, i + 1, cache, acc)
    else
      var (acc', cache') := PairFrom(adapters[i], 0, cache, acc);
      EnumerateFrom(adapters, i + 1, cache', acc')
  }

  /** GetPhysicalMonitorDevices as a function of the adapters and the cache it
      starts from: the devices, and the cache it leaves behind. */
  function EnumerateDevices(adapters: seq<DisplayAdapter>, cache: map<CsString, CsString>)
    : (seq<PhysicalMonitorDevice>, map<CsString, CsString>)
  {
    EnumerateFrom(adapters, 0, cache, [])
  }

  /** Device id and handle of a device: what the pairing decides. */
  function IdAndHandle(d: PhysicalMonitorDevice): (CsString, Handle)
  {
    (d.deviceId, d.physicalMonitorHandle)
  }

  function IdsAndHandles(devices: seq<PhysicalMonitorDevice>): (r: seq<(CsString, Handle)>)
    ensures |r| == |devices|
    ensures forall i | 0 <= i < |devices| :: r[i] == IdAndHandle(devices[i])
  {
    seq(|devices|, i requires 0 <= i < |devices| => IdAndHandle(devices[i]))
  }

  /** Reference pairing of one adapter: nothing for a rejected adapter;
      otherwise its j-th reported monitor with its j-th handle, for every j
      below both the reported count and the number of monitors listed. */
  function Pairing(a: DisplayAdapter): (r: seq<(CsString, Handle)>)
    ensures |r| <= a.count
  {
    if !Accepted(a) then []
    else seq(PairLimit(a), j requires 0 <= j < PairLimit(a) => (a.monitors[j].deviceId, a.handles[j]))
  }

  /** Reference pairing of all adapters: adapter by adapter, in order. */
  function Pairings(adapters: seq<DisplayAdapter>): seq<(CsString, Handle)>
  {
    if adapters == [] then [] else Pairing(adapters[0]) + Pairings(adapters[1..])
  }

  lemma {:induction false} PairFromPairs(a: DisplayAdapter, j: nat, cache: map<CsString, CsString>, acc: seq<PhysicalMonitorDevice>)
    requires Accepted(a) && j <= PairLimit(a)
    ensures IdsAndHandles(PairFrom(a, j, cache, acc).0) == IdsAndHandles(acc) + Pairing(a)[j..]
    decreases PairLimit(a) - j
  {
    if j < PairLimit(a) {
      var (caps, cache') := GetOrAddCapabilities(cache, a.monitors[j]);
      var d := PhysicalMonitorDevice(a.monitors[j].deviceId, a.handles[j], caps);
      PairFromPairs(a, j + 1, cache', acc + [d]);
      assert IdsAndHandles(acc + [d]) == IdsAndHandles(acc) + [Pairing(a)[j]];
      assert Pairing(a)[j..] == [Pairing(a)[j]] + Pairing(a)[j + 1..];
    }
  }

  lemma {:induction false} EnumerateFromPairs(adapters: seq<DisplayAdapter>, i: nat, cache: map<CsString, CsString>, acc: seq<PhysicalMonitorDevice>)
    requires i <= |adapters|
    ensures IdsAndHandles(EnumerateFrom(adapters, i, cache, acc).0) == IdsAndHandles(acc) + Pairings(adapters[i..])
    decreases |adapters| - i
  {
    if i < |adapters| {
      assert adapters[i..][1..] == adapters[i + 1..];
      if !Accepted(adapters[i]) {
        EnumerateFromPairs(adapters, i + 1, cache, acc);
      } else {
        var (acc', cache') := PairFrom(adapters[i], 0, cache, acc);
        PairFromPairs(adapters[i], 0, cache, acc);
        EnumerateFromPairs(adapters, i + 1, cache', acc');
      }
    }
  }

  /** The enumeration returns exactly the reference pairing: ordered by
      adapter, then by monitor index, the j-th monitor holding the j-th
      handle, rejected adapters contributing nothing. */
  lemma EnumeratePairsMonitorsWithHandles(adapters: seq<DisplayAdapter>, cache: map<CsString, CsString>)
    ensures IdsAndHandles(EnumerateDevices(adapters, cache).0) == Pairings(adapters)
  {
    EnumerateFromPairs(adapters, 0, cache, []);
    assert adapters[0..] == adapters;
  }

  /** Every device carries the capability string its DeviceId has in the
      cache, and the cache keeps every entry it had. */
  predicate CacheAgrees(devices: seq<PhysicalMonitorDevice>, cache: map<CsString, CsString>)
  {
    forall i | 0 <= i < |devices| :: devices[i].deviceId in cache && cache[devices[i].deviceId] == devices[i].capabilitiesString
  }

  predicate Extends(cache': map<CsString, CsString>, cache: map<CsString, CsString>)
  {
    forall k | k in cache :: k in cache' && cache'[k] == cache[k]
  }

  lemma {:induction false} PairFromCaches(a: DisplayAdapter, j: nat, cache: map<CsString, CsString>, acc: seq<PhysicalMonitorDevice>)
    requires j <= PairLimit(a) && CacheAgrees(acc, cache)
    ensures CacheAgrees(PairFrom(a, j, cache, acc).0, PairFrom(a, j, cache, acc).1)
    ensures Extends(PairFrom(a, j, cache, acc).1, cache)
    decreases PairLimit(a) - j
  {
    if j < PairLimit(a) {
      var (caps, cache') := GetOrAddCapabilities(cache, a.monitors[j]);
      var d := PhysicalMonitorDevice(a.monitors[j].deviceId, a.handles[j], caps);
      assert CacheAgrees(acc + [d], cache');
      PairFromCaches(a, j + 1, cache', acc + [d]);
    }
  }

  lemma {:induction false} EnumerateFromCaches(adapters: seq<DisplayAdapter>, i: nat, cache: map<CsString, CsString>, acc: seq<PhysicalMonitorDevice>)
    requires i <= |adapters| && CacheAgrees(acc, cache)
    ensures CacheAgrees(EnumerateFrom(adapters, i, cache, acc).0, EnumerateFrom(adapters, i, cache, acc).1)
    ensures Extends(EnumerateFrom(adapters, i, cache, acc).1, cache)
    decreases |adapters| - i
  {
    if i < |adapters| {
      if !Accepted(adapters[i]) {
        EnumerateFromCaches(adapters, i + 1, cache, acc);
      } else {
        var (acc', cache') := PairFrom(adapters[i], 0, cache, acc);
        PairFromCaches(adapters[i], 0, cache, acc);
        EnumerateFromCaches(adapters, i + 1, cache', acc');
      }
    }
  }

  /** The cache is write-once per key: after an enumeration every returned
      device's capability string is the one cached for its DeviceId, and
      every entry cached before is unchanged. */
  lemma EnumerateKeepsCacheConsistent(adapters: seq<DisplayAdapter>, cache: map<CsString, CsString>)
    ensures CacheAgrees(EnumerateDevices(adapters, cache).0, EnumerateDevices(adapters, cache).1)
    ensures Extends(EnumerateDevices(adapters, cache).1, cache)
  {
    EnumerateFromCaches(adapters, 0, cache, []);
  }

  /** The process-wide state of MonitorApi: its capability-string cache. */
  class MonitorApi {
    var capabilitiesCache: map<CsString, CsString>

    constructor ()
      ensures capabilitiesCache == map[]
    {
      capabilitiesCache := map[];
    }

    method ClearDeviceCapabilitiesStringCache()
      modifies this
      ensures capabilitiesCache == map[]
    {
      capabilitiesCache := map[];
    }

    /** Walks the adapters; for each accepted one, pairs its monitors with
      its handles and looks each capability string up in the cache. */
    method GetPhysicalMonitorDevices(adapters: seq<DisplayAdapter>) returns (devices: seq<PhysicalMonitorDevice>)
      modifies this
      ensures (devices, capabilitiesCache) == EnumerateDevices(adapters, old(capabilitiesCache))
    {
      devices := [];
      var i := 0;
      while i < |adapters|
        invariant 0 <= i <= |adapters|
        invariant EnumerateFrom(adapters, i, capabilitiesCache, devices) == EnumerateDevices(adapters, old(capabilitiesCache))
      {
        var adapter := adapters[i];
        var deviceNameUnicodeString := NewUnicodeString(adapter.deviceName);
        assert deviceNameUnicodeString.Ok?;
        if adapter.countStatus != 0 {
          i := i + 1;
          continue;
        }
        if adapter.handlesStatus != 0 || adapter.count != adapter.handlesReturned {
          i := i + 1;
          continue;
        }
        ghost var cache0, devices0 := capabilitiesCache, devices;
        var j := 0;
        while j < |adapter.monitors| && j < adapter.count
          invariant 0 <= j <= PairLimit(adapter)
          invariant PairFrom(adapter, j, capabilitiesCache, devices) == PairFrom(adapter, 0, cache0, devices0)
        {
          var monitor := adapter.monitors[j];
          var capabilitiesString;
          if monitor.deviceId in capabilitiesCache {
            capabilitiesString := capabilitiesCache[monitor.deviceId];
          } else {
            capabilitiesString := QueryCapabilities(monitor);
            capabilitiesCache := capabilitiesCache[monitor.deviceId := capabilitiesString];
          }
          devices := devices + [PhysicalMonitorDevice(monitor.deviceId, adapter.handles[j], capabilitiesString)];
          j := j + 1;
        }
        i := i + 1;
      }
    }
  }
}
