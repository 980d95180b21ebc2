/** A physical monitor as the handle channel sees it (PhysicalMonitorDevice):
    an immutable record, so a Dafny datatype. */
module PhysicalMonitors {
  import opened CSharp

  /** An opaque native handle (IntPtr). */
  type Handle = int

  datatype PhysicalMonitorDevice = PhysicalMonitorDevice(
    deviceId: CsString,              // device interface path, the lookup key
    physicalMonitorHandle: Handle,   // released with DestroyPhysicalMonitorInternal
    capabilitiesString: CsString)    // empty when the capability query failed

  /** The handles of `devices`, in order. */
  function Handles(devices: seq<PhysicalMonitorDevice>): (hs: seq<Handle>)
    ensures |hs| == |devices|
    ensures forall i | 0 <= i < |devices| :: hs[i] == devices[i].physicalMonitorHandle
  {
    seq(|devices|, i requires 0 <= i < |devices| => devices[i].physicalMonitorHandle)
  }
}
