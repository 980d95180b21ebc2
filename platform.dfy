/** What the modelled code observes of the machine through WMI and the
    Win32 display APIs, and what it does to the machine. Every native or WMI
    query is an input here; every brightness write and every handle release
    is appended to a log, in the order the code issues it. */
module Platform {
  import opened CSharp
  import opened PhysicalMonitors

  /** A WmiMonitorID object: the instance name and the three identity
      properties as raw `ushort[]` values. */
  datatype MonitorIdObject = MonitorIdObject(
    instanceName: CsString,
    manufacturerName: seq<ushort>,
    productCodeId: seq<ushort>,
    serialNumberId: seq<ushort>)

  /** The instance names of the WmiMonitorID objects, in enumeration order. */
  function InstanceNamesOf(ids: seq<MonitorIdObject>): (r: seq<CsString>)
    ensures |r| == |ids|
    ensures forall i | 0 <= i < |ids| :: r[i] == ids[i].instanceName
  {
    seq(|ids|, i requires 0 <= i < |ids| => ids[i].instanceName)
  }

  /** A WmiMonitorBrightness object. */
  datatype BrightnessObject = BrightnessObject(instanceName: CsString, currentBrightness: byte)

  /** What the WMI queries of the ROOT\WMI namespace return, in enumeration
      order: WmiMonitorID objects, WmiMonitorBrightness objects, and the
      instance names of the WmiMonitorBrightnessMethods objects. */
  datatype WmiState = WmiState(
    monitorIds: seq<MonitorIdObject>,
    brightnessObjects: seq<BrightnessObject>,
    brightnessMethods: seq<CsString>)

  /** A monitor that EnumDisplayDevices reports under an adapter, with the
      outcome of the two capability queries on its handle. */
  datatype DisplayMonitor = DisplayMonitor(
    deviceId: CsString,
    capabilitiesLengthOk: bool,   // GetCapabilitiesStringLength succeeded
    capabilitiesReplyOk: bool,    // CapabilitiesRequestAndCapabilitiesReply succeeded
    capabilitiesReply: CsString)  // the capability string it returned

  datatype AdapterRecord = AdapterRecord(
    deviceName: CsString,
    countStatus: int,        // NTSTATUS of GetNumberOfPhysicalMonitors
    count: nat,              // the number of physical monitors it reports
    handlesStatus: int,      // NTSTATUS of GetPhysicalMonitors
    handlesReturned: int,    // numPhysicalMonitorHandlesInArray
    handles: seq<Handle>,    // the handle array it fills
    monitors: seq<DisplayMonitor>)

  /** A display adapter as EnumDisplayDevices reports it. Its DeviceName is
      marshalled from a 32-character buffer, and the handle array has the
      reported count of slots. */
  type DisplayAdapter = a: AdapterRecord | |a.deviceName| < 32 && |a.handles| == a.count
    witness AdapterRecord([], 0, 0, 0, 0, [], [])

  /** The channel a brightness write went through. */
  datatype WriteChannel = ViaWmi | ViaHandle(handle: Handle)

  /** One brightness write, with the instance name it was issued for. */
  datatype BrightnessWrite = BrightnessWrite(instanceName: CsString, channel: WriteChannel, brightness: byte)

  /** The machine: what the queries currently return, and the logs of
      brightness writes and of DestroyPhysicalMonitorInternal calls. */
  class Machine {
    var wmi: WmiState
    var adapters: seq<DisplayAdapter>
    /** The current brightness GetMonitorBrightness reports per handle; a
        handle it has no entry for reads as 0. */
    var panelBrightness: map<Handle, int>
    var writes: seq<BrightnessWrite>
    var destroyed: seq<Handle>

    constructor (wmi: WmiState, adapters: seq<DisplayAdapter>, panelBrightness: map<Handle, int>)
      ensures this.wmi == wmi && this.adapters == adapters && this.panelBrightness == panelBrightness
      ensures writes == [] && destroyed == []
    {
      this.wmi := wmi;
      this.adapters := adapters;
      this.panelBrightness := panelBrightness;
      writes := [];
      destroyed := [];
    }
  }

  /** GetMonitorBrightness's current value for a handle. Its bool result is
      ignored by the callers, so a failed call reads as the untouched 0. */
  function PanelReading(panelBrightness: map<Handle, int>, h: Handle): int
  {
    if h in panelBrightness then panelBrightness[h] else 0
  }

  /** How the machine takes a brightness write: a WMI write becomes the
      CurrentBrightness of the WmiMonitorBrightness objects with the name; a
      handle write becomes what GetMonitorBrightness reports for the handle. */
  function Apply(wmi: WmiState, panelBrightness: map<Handle, int>, w: BrightnessWrite): (r: (WmiState, map<Handle, int>))
    ensures w.channel.ViaWmi? ==>
      && r.1 == panelBrightness && r.0.monitorIds == wmi.monitorIds
      && r.0.brightnessMethods == wmi.brightnessMethods && |r.0.brightnessObjects| == |wmi.brightnessObjects|
      && forall i | 0 <= i < |wmi.brightnessObjects| ::
           var o := wmi.brightnessObjects[i];
           r.0.brightnessObjects[i] == if o.instanceName == w.instanceName then o.(currentBrightness := w.brightness) else o
    ensures w.channel.ViaHandle? ==> r.0 == wmi && r.1 == panelBrightness[w.channel.handle := w.brightness]
  {
    match w.channel
    case ViaWmi =>
      var objects := wmi.brightnessObjects;
      var updated := seq(|objects|, i requires 0 <= i < |objects| =>
        if objects[i].instanceName == w.instanceName then objects[i].(currentBrightness := w.brightness) else objects[i]);
      (wmi.(brightnessObjects := updated), panelBrightness)
    case ViaHandle(h) => (wmi, panelBrightness[h := w.brightness])
  }
}
