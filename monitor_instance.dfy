/** A monitor as the registry exposes it (MonitorInstance and its two
    concrete kinds): identity strings fixed at construction, plus the channel
    that its Brightness property reads and writes through. */
module Instances {
  import opened CSharp
  import opened PhysicalMonitors
  import opened Platform

  /** WmiMonitorInstance talks to WMI by instance name; PmdMonitorInstance
      talks to the physical monitor handle of one device. */
  datatype Channel = Wmi | Pmd(device: PhysicalMonitorDevice)

  datatype MonitorInstance = MonitorInstance(
    instanceName: CsString,
    manufacturerName: CsString,
    productCodeId: CsString,
    serialNumberId: CsString,
    channel: Channel)

  /** The Brightness getter. WMI: CurrentBrightness of the
      WmiMonitorBrightness object keyed by the instance name, and a
      ManagementException when there is none. Handle: GetMonitorBrightness's
      current value cast to byte, its failure ignored. */
  function Brightness(x: MonitorInstance, wmi: WmiState, panelBrightness: map<Handle, int>): (r: Result<byte>)
    ensures x.channel.Wmi? ==>
      && (r.Throw? <==> forall o | o in wmi.brightnessObjects :: o.instanceName != x.instanceName)
      && (r.Ok? ==> exists o | o in wmi.brightnessObjects :: o.instanceName == x.instanceName && o.currentBrightness == r.value)
    ensures x.channel.Pmd? ==>
      r.Ok? && (var h := x.channel.device.physicalMonitorHandle;
       0 <= PanelReading(panelBrightness, h) < 0x100 ==> r.value == PanelReading(panelBrightness, h))
    ensures r.Throw? ==> r.error == Management
  {
    match x.channel
    case Wmi =>
      var objects := wmi.brightnessObjects;
      var i := FirstIndex(objects, (o: BrightnessObject) => o.instanceName == x.instanceName);
      if i < |objects| then Ok(objects[i].currentBrightness) else Throw(Management)
    case Pmd(d) => Ok(ToByte(PanelReading(panelBrightness, d.physicalMonitorHandle)))
  }

  /** The write the Brightness setter issues: WmiSetBrightness on the
      WmiMonitorBrightnessMethods object keyed by the instance name (a
      ManagementException when there is none), or SetMonitorBrightness on
      the device's handle. */
  function WriteFor(x: MonitorInstance, value: byte, wmi: WmiState): (r: Result<BrightnessWrite>)
    ensures r.Throw? <==> x.channel.Wmi? && x.instanceName !in wmi.brightnessMethods
    ensures r.Throw? ==> r.error == Management
    ensures r.Ok? ==> r.value.instanceName == x.instanceName && r.value.brightness == value
    ensures r.Ok? ==> (r.value.channel.ViaWmi? <==> x.channel.Wmi?)
    ensures r.Ok? && x.channel.Pmd? ==> r.value.channel == ViaHandle(x.channel.device.physicalMonitorHandle)
  {
    match x.channel
    case Wmi =>
      if x.instanceName in wmi.brightnessMethods then Ok(BrightnessWrite(x.instanceName, ViaWmi, value))
      else Throw(Management)
    case Pmd(d) => Ok(BrightnessWrite(x.instanceName, ViaHandle(d.physicalMonitorHandle), value))
  }

  /** The Brightness setter: the write is logged and the machine takes it. */
  method SetBrightness(x: MonitorInstance, value: byte, machine: Machine) returns (thrown: Option<Exception>)
    modifies machine`writes, machine`wmi, machine`panelBrightness
    ensures var w := WriteFor(x, value, old(machine.wmi));
      && (thrown.Some? <==> w.Throw?)
      && (w.Throw? ==> thrown.value == w.error && unchanged(machine))
      && (w.Ok? ==>
            && machine.writes == old(machine.writes) + [w.value]
            && (machine.wmi, machine.panelBrightness) == Apply(old(machine.wmi), old(machine.panelBrightness), w.value))
  {
    var w := WriteFor(x, value, machine.wmi);
    if w.Throw? {
      return Some(w.error);
    }
    machine.writes := machine.writes + [w.value];
    var (wmi', panel') := Apply(machine.wmi, machine.panelBrightness, w.value);
    machine.wmi, machine.panelBrightness := wmi', panel';
    thrown := None;
  }

  /** A value set through an instance is what its getter then reads, on
      both channels. */
  lemma ReadAfterWrite(x: MonitorInstance, value: byte, wmi: WmiState, panelBrightness: map<Handle, int>)
    requires Brightness(x, wmi, panelBrightness).Ok? && WriteFor(x, value, wmi).Ok?
    ensures var (wmi', panel') := Apply(wmi, panelBrightness, WriteFor(x, value, wmi).value);
      Brightness(x, wmi', panel') == Ok(value)
  {
    var w := WriteFor(x, value, wmi).value;
    var (wmi', panel') := Apply(wmi, panelBrightness, w);
    if x.channel.Wmi? {
      var p := (o: BrightnessObject) => o.instanceName == x.instanceName;
      var objects, objects' := wmi.brightnessObjects, wmi'.brightnessObjects;
      var i := FirstIndex(objects, p);
      assert i < |objects|;
      FirstIndexAgrees(objects, objects', p, i);
      assert objects'[i].currentBrightness == value;
    }
  }

  /** Two sequences whose elements agree on `p` have the same first index. */
  lemma {:induction false} FirstIndexAgrees<T>(s: seq<T>, t: seq<T>, p: T -> bool, i: nat)
    requires |s| == |t| && forall j | 0 <= j < |s| :: p(s[j]) == p(t[j])
    requires i == FirstIndex(s, p)
    ensures FirstIndex(t, p) == i
    decreases |s|
  {
    if s != [] && !p(s[0]) {
      FirstIndexAgrees(s[1..], t[1..], p, i - 1);
    }
  }
}
