/** How a WMI monitor instance name is tied to a physical monitor device: the
    instance name is rewritten into a device interface path and compared with
    the DeviceId of each enumerated device. Both the sync pass and the monitor
    registry use this derivation. */
module DevicePaths {
  import opened CSharp
  import opened PhysicalMonitors

  /** "_0": the only instance-name ending the derivation supports. */
  const OrdinalSuffix: CsString := [0x5F, 0x30]
  /** '\' and '#'. */
  const Backslash: CodeUnit := 0x5C
  const Hash: CodeUnit := 0x23
  /** "\\?\" */
  const DevicePrefix: CsString := [0x5C, 0x5C, 0x3F, 0x5C]
  /** "#" followed by the monitor device interface class GUID. */
  const MonitorInterfaceSuffix: CsString := Ascii("#{e6f07b5f-ee97-4a90-b076-33f57bf4eaa7}")

  /** The device interface path of a WMI instance name: NotSupportedException
      unless the name ends in "_0"; otherwise "\\?\", then the name without
      its last two code units with every '\' turned into '#', then the class
      suffix. */
  function DevicePath(instanceName: CsString): (r: Result<CsString>)
    ensures r.Throw? <==> !EndsWith(instanceName, OrdinalSuffix)
    ensures r.Throw? ==> r.error == NotSupported
    ensures r.Ok? ==> var body := instanceName[..|instanceName| - 2];
      && |r.value| == |DevicePrefix| + |body| + |MonitorInterfaceSuffix|
      && r.value[..|DevicePrefix|] == DevicePrefix
      && r.value[|DevicePrefix| + |body|..] == MonitorInterfaceSuffix
      && forall i | 0 <= i < |body| ::
           r.value[|DevicePrefix| + i] == (if body[i] == Backslash then Hash else body[i])
  {
    if EndsWith(instanceName, OrdinalSuffix) then
      Ok(DevicePrefix + Replace(instanceName[..|instanceName| - 2], Backslash, Hash) + MonitorInterfaceSuffix)
    else
      Throw(NotSupported)
  }

  /** The derivation loses only the difference between '\' and '#': two
      supported names without '#' that yield the same path are the same name. */
  lemma DevicePathInjective(a: CsString, b: CsString)
    requires DevicePath(a).Ok? && DevicePath(b).Ok?
    requires Hash !in a && Hash !in b
    requires DevicePath(a) == DevicePath(b)
    ensures a == b
  {
    var p := DevicePath(a).value;
    var bodyA, bodyB := a[..|a| - 2], b[..|b| - 2];
    assert |bodyA| == |bodyB|;
    forall i | 0 <= i < |bodyA| ensures bodyA[i] == bodyB[i] {
      assert p[|DevicePrefix| + i] == (if bodyA[i] == Backslash then Hash else bodyA[i]);
      assert p[|DevicePrefix| + i] == (if bodyB[i] == Backslash then Hash else bodyB[i]);
      assert bodyA[i] == a[i] && bodyB[i] == b[i];
    }
    assert a == bodyA + OrdinalSuffix;
    assert b == bodyB + OrdinalSuffix;
  }

  /** ActualService.FindPhysicalMonitorInfo: derive the device path, then take
      the first device whose DeviceId equals it. */
  function FindPhysicalMonitorInfo(instanceName: CsString, devices: seq<PhysicalMonitorDevice>): (r: Result<Option<PhysicalMonitorDevice>>)
    ensures r.Throw? <==> !EndsWith(instanceName, OrdinalSuffix)
    ensures r.Throw? ==> r.error == NotSupported
    ensures r.Ok? && r.value.None? ==>
      forall i | 0 <= i < |devices| :: devices[i].deviceId != DevicePath(instanceName).value
    ensures r.Ok? && r.value.Some? ==> exists i | 0 <= i < |devices| ::
      && devices[i] == r.value.value
      && devices[i].deviceId == DevicePath(instanceName).value
      && forall j | 0 <= j < i :: devices[j].deviceId != DevicePath(instanceName).value
  {
    match DevicePath(instanceName)
    case Throw(e) => Throw(e)
    case Ok(deviceId) => Ok(Find(devices, (d: PhysicalMonitorDevice) => d.deviceId == deviceId))
  }
}
