/** The interactive console mode (Manual.Run): the registry is built once,
    then each key press either moves the selection among its monitors or
    lowers or raises the selected monitor's brightness. Drawing the screen
    is modelled by the Brightness reads it makes; console output and reading
    the console are not, and the key presses are an input sequence. */
module ManualControl {
  import opened CSharp
  import opened PhysicalMonitors
  import opened Platform
  import opened Instances
  import opened NativeApi
  import opened Registry

  /** The keys Run distinguishes; every other key is OtherKey. */
  datatype ConsoleKey = LeftArrow | RightArrow | DownArrow | UpArrow | OtherKey

  /** A key press: the key and whether Ctrl was held. */
  datatype KeyPress = KeyPress(key: ConsoleKey, control: bool)

  /** The brightness step of a key press: 10 with Ctrl held, 1 otherwise. */
  function StepSize(k: KeyPress): nat
  {
    if k.control then 10 else 1
  }

  /** The Down arrow's new brightness, (byte)Math.Max(0, b - change): never
      negative and never above the brightness it started from. */
  function Lowered(b: byte, change: nat): (r: byte)
    ensures r <= b
    ensures b >= change ==> r == b - change
    ensures b < change ==> r == 0
  {
    ToByte(if 0 >= b - change then 0 else b - change)
  }

  /** The Up arrow's new brightness, (byte)Math.Min(b + change, 100): never
      above 100, so a monitor reading above 100 is brought down to 100. */
  function Raised(b: byte, change: nat): (r: byte)
    ensures r <= 100
    ensures b + change <= 100 ==> r == b + change
    ensures b + change > 100 ==> r == 100
  {
    ToByte(if b + change <= 100 then b + change else 100)
  }

  /** What the loop carries from one key to the next: the selected index
      and the machine as the brightness writes have left it. */
  datatype ConsoleState = ConsoleState(
    activeMonitor: int,
    wmi: WmiState,
    panelBrightness: map<Handle, int>,
    writes: seq<BrightnessWrite>)

  /** Setting the brightness of `x` to `value`: the write is logged and the
      machine takes it, or the setter's exception. */
  function Written(x: MonitorInstance, value: byte, s: ConsoleState): Result<ConsoleState>
  {
    match WriteFor(x, value, s.wmi)
    case Throw(e) => Throw(e)
    case Ok(w) =>
      var (wmi', panel') := Apply(s.wmi, s.panelBrightness, w);
      Ok(s.(wmi := wmi', panelBrightness := panel', writes := s.writes + [w]))
  }

  /** One pass of Run's loop body. The selected instance is looked up before
      the key is examined, so an index outside the list throws
      ArgumentOutOfRangeException whatever the key. */
  function Step(instances: seq<MonitorInstance>, s: ConsoleState, k: KeyPress): Result<ConsoleState>
  {
    if !(0 <= s.activeMonitor < |instances|) then Throw(ArgumentOutOfRange)
    else
      var x := instances[s.activeMonitor];
      var change := StepSize(k);
      match k.key
      case LeftArrow =>
        Ok(if s.activeMonitor > 0 then s.(activeMonitor := s.activeMonitor - 1) else s)
      case RightArrow =>
        Ok(if s.activeMonitor < |instances| - 1 then s.(activeMonitor := s.activeMonitor + 1) else s)
      case DownArrow =>
        (match Brightness(x, s.wmi, s.panelBrightness)
         case Throw(e) => Throw(e)
         case Ok(b) => Written(x, Lowered(b, change), s))
      case UpArrow =>
        (match Brightness(x, s.wmi, s.panelBrightness)
         case Throw(e) => Throw(e)
         case Ok(b) => Written(x, Raised(b, change), s))
      case OtherKey => Ok(s)
  }

  /** What Render's reads leave behind: it reads the Brightness of every
      instance, in list order, to draw the screen, so the first getter that
      throws is its exception. */
  function RenderFailure(instances: seq<MonitorInstance>, wmi: WmiState, panelBrightness: map<Handle, int>): (r: Option<Exception>)
    ensures r.None? <==> forall j | 0 <= j < |instances| :: Brightness(instances[j], wmi, panelBrightness).Ok?
    ensures r.Some? ==> r.value == Management
  {
    var j := FirstIndex(instances, (x: MonitorInstance) => Brightness(x, wmi, panelBrightness).Throw?);
    if j < |instances| then Some(Brightness(instances[j], wmi, panelBrightness).error) else None
  }

  /** The loop over the key presses from `i` on. The screen is drawn before
      each key is read, and once more after the last one; the first
      exception, from a read or from a key, leaves the loop with the state
      reached so far. */
  function RunFrom(instances: seq<MonitorInstance>, keys: seq<KeyPress>, i: nat, s: ConsoleState): (r: (ConsoleState, Option<Exception>))
    requires i <= |keys|
    ensures (exists j | 0 <= j < |instances| :: Brightness(instances[j], s.wmi, s.panelBrightness).Throw?)
      ==> r == (s, Some(Management))
    decreases |keys| - i
  {
    match RenderFailure(instances, s.wmi, s.panelBrightness)
    case Some(e) => (s, Some(e))
    case None =>
      if i == |keys| then (s, None)
      else
        match Step(instances, s, keys[i])
        case Throw(e) => (s, Some(e))
        case Ok(s') => RunFrom(instances, keys, i + 1, s')
  }

  /** Manual.Render, as its reads: the Brightness getter of every instance of
      a fresh snapshot, in order, stopping at the first that throws. */
  method Render(collection: MonitorCollection, machine: Machine) returns (thrown: Option<Exception>)
    ensures thrown == RenderFailure(collection.monitorInstances, machine.wmi, machine.panelBrightness)
  {
    var snapshot := collection.MonitorInstances();
    var j := 0;
    while j < snapshot.Length
      invariant 0 <= j <= snapshot.Length
      invariant forall j' | 0 <= j' < j :: Brightness(snapshot[j'], machine.wmi, machine.panelBrightness).Ok?
    {
      var b := Brightness(snapshot[j], machine.wmi, machine.panelBrightness);
      if b.Throw? {
        return Some(b.error);
      }
      j := j + 1;
    }
    return None;
  }

  /** One key of Run's loop: a snapshot of the instance list, the selected
      instance indexed from it (and a second snapshot for the Right arrow's
      Count), then the key's effect. */
  method HandleKey(collection: MonitorCollection, key: KeyPress, activeMonitor: int, machine: Machine)
    returns (activeMonitor': int, thrown: Option<Exception>)
    modifies machine`writes, machine`wmi, machine`panelBrightness
    ensures var r := Step(collection.monitorInstances, ConsoleState(activeMonitor, old(machine.wmi), old(machine.panelBrightness), old(machine.writes)), key);
      && (r.Throw? ==> thrown == Some(r.error) && activeMonitor' == activeMonitor && unchanged(machine))
      && (r.Ok? ==> thrown.None? && r.value == ConsoleState(activeMonitor', machine.wmi, machine.panelBrightness, machine.writes))
  {
    activeMonitor' := activeMonitor;
    var snapshot := collection.MonitorInstances();
    if !(0 <= activeMonitor < snapshot.Length) {
      return activeMonitor, Some(ArgumentOutOfRange);
    }
    var activeMonitorInstance := snapshot[activeMonitor];
    var change := if key.control then 10 else 1;
    match key.key {
      case LeftArrow =>
        if activeMonitor > 0 {
          activeMonitor' := activeMonitor - 1;
        }
      case RightArrow =>
        var count := collection.MonitorInstances();
        if activeMonitor < count.Length - 1 {
          activeMonitor' := activeMonitor + 1;
        }
      case DownArrow =>
        var b := Brightness(activeMonitorInstance, machine.wmi, machine.panelBrightness);
        if b.Throw? {
          return activeMonitor, Some(b.error);
        }
        thrown := SetBrightness(activeMonitorInstance, Lowered(b.value, change), machine);
        if thrown.Some? {
          return;
        }
      case UpArrow =>
        var b := Brightness(activeMonitorInstance, machine.wmi, machine.panelBrightness);
        if b.Throw? {
          return activeMonitor, Some(b.error);
        }
        thrown := SetBrightness(activeMonitorInstance, Raised(b.value, change), machine);
        if thrown.Some? {
          return;
        }
      case OtherKey =>
    }
    thrown := None;
  }

  /** The keys Run reads, as its loop: the screen drawn, then the key. After
      the last key the screen is drawn once more. */
  method Session(collection: MonitorCollection, keys: seq<KeyPress>, machine: Machine) returns (activeMonitor: int, thrown: Option<Exception>)
    modifies machine`writes, machine`wmi, machine`panelBrightness
    ensures (ConsoleState(activeMonitor, machine.wmi, machine.panelBrightness, machine.writes), thrown)
      == RunFrom(collection.monitorInstances, keys, 0,
                 ConsoleState(0, old(machine.wmi), old(machine.panelBrightness), old(machine.writes)))
  {
    ghost var instances := collection.monitorInstances;
    ghost var start := ConsoleState(0, machine.wmi, machine.panelBrightness, machine.writes);
    activeMonitor := 0;
    var i := 0;
    while i < |keys|
      invariant 0 <= i <= |keys|
      invariant RunFrom(instances, keys, i, ConsoleState(activeMonitor, machine.wmi, machine.panelBrightness, machine.writes))
        == RunFrom(instances, keys, 0, start)
    {
      ghost var s := ConsoleState(activeMonitor, machine.wmi, machine.panelBrightness, machine.writes);
      var rendered := Render(collection, machine);
      if rendered.Some? {
        return activeMonitor, rendered;
      }
      var key := keys[i];
      activeMonitor, thrown := HandleKey(collection, key, activeMonitor, machine);
      if thrown.Some? {
        return;
      }
      i := i + 1;
    }
    thrown := Render(collection, machine);
  }

  /** Manual.Run for a finite run of key presses: build the registry, then
      the loop. An exception leaves Run through the `using`, which disposes
      the registry and so releases its handles; after the last key the loop
      is still waiting for the next one and holds the handles. */
  method Run(api: MonitorApi, machine: Machine, keys: seq<KeyPress>) returns (thrown: Option<Exception>)
    modifies api, machine`destroyed, machine`writes, machine`wmi, machine`panelBrightness
    ensures var (devices, cache) := EnumerateDevices(machine.adapters, old(api.capabilitiesCache));
      var (instances, refreshThrown) := BuildFrom(Outcomes(old(machine.wmi).monitorIds, old(machine.wmi), devices), 0, []);
      && api.capabilitiesCache == cache
      && (refreshThrown.Some? ==>
            && thrown == refreshThrown
            && machine.destroyed == old(machine.destroyed)
            && machine.writes == old(machine.writes) && machine.wmi == old(machine.wmi)
            && machine.panelBrightness == old(machine.panelBrightness))
      && (refreshThrown.None? ==>
            var (s, e) := RunFrom(instances, keys, 0,
                                  ConsoleState(0, old(machine.wmi), old(machine.panelBrightness), old(machine.writes)));
            && thrown == e
            && machine.writes == s.writes && machine.wmi == s.wmi && machine.panelBrightness == s.panelBrightness
            && machine.destroyed == old(machine.destroyed) + (if e.Some? then Handles(devices) else []))
  {
    var created := MonitorCollection.Create(api, machine);
    if created.Throw? {
      return Some(created.error);
    }
    var monitorCollection := created.value;
    var activeMonitor;
    activeMonitor, thrown := Session(monitorCollection, keys, machine);
    if thrown.Some? {
      monitorCollection.Dispose(machine);
    }
  }

  // ---------------------------------------------------------------------------
  // Properties of the key handling
  // ---------------------------------------------------------------------------

  /** Over a non-empty list the selection never leaves [0, Count-1], so the
      lookup before each key never throws and only the WMI getter or setter
      can end the loop. */
  lemma {:induction false} SelectionStaysInRange(instances: seq<MonitorInstance>, keys: seq<KeyPress>, i: nat, s: ConsoleState)
    requires i <= |keys|
    requires 0 <= s.activeMonitor < |instances|
    ensures var (s', e) := RunFrom(instances, keys, i, s);
      && 0 <= s'.activeMonitor < |instances|
      && (e.Some? ==> e.value == Management)
    decreases |keys| - i
  {
    if i < |keys| {
      var x := instances[s.activeMonitor];
      var r := Step(instances, s, keys[i]);
      if r.Ok? {
        assert 0 <= r.value.activeMonitor < |instances|;
        SelectionStaysInRange(instances, keys, i + 1, r.value);
      } else {
        assert r.error == Management by {
          var b := Brightness(x, s.wmi, s.panelBrightness);
          if b.Ok? {
            var v := if keys[i].key.DownArrow? then Lowered(b.value, StepSize(keys[i])) else Raised(b.value, StepSize(keys[i]));
            assert WriteFor(x, v, s.wmi).Throw?;
          }
        }
      }
    }
  }

  /** With no monitors the first key press throws ArgumentOutOfRangeException
      before anything is read or written. */
  lemma EmptyListThrows(keys: seq<KeyPress>, s: ConsoleState)
    requires |keys| > 0
    ensures RunFrom([], keys, 0, s) == (s, Some(ArgumentOutOfRange))
  {
  }

  /** Left and Right only move the selection, one place at most and never
      past either end; any other key changes nothing. */
  lemma NavigationKeys(instances: seq<MonitorInstance>, s: ConsoleState, k: KeyPress)
    requires 0 <= s.activeMonitor < |instances|
    requires k.key in {LeftArrow, RightArrow, OtherKey}
    ensures Step(instances, s, k).Ok?
    ensures var s' := Step(instances, s, k).value;
      && s'.wmi == s.wmi && s'.panelBrightness == s.panelBrightness && s'.writes == s.writes
      && (k.key == LeftArrow ==> s'.activeMonitor == if s.activeMonitor == 0 then 0 else s.activeMonitor - 1)
      && (k.key == RightArrow ==> s'.activeMonitor == if s.activeMonitor == |instances| - 1 then s.activeMonitor else s.activeMonitor + 1)
      && (k.key == OtherKey ==> s' == s)
  {
  }

  /** Down issues one write for the selected monitor, after which it reads
      its old brightness less the step, floored at 0; the selection stays. */
  lemma DownArrowLowers(instances: seq<MonitorInstance>, s: ConsoleState, control: bool)
    requires 0 <= s.activeMonitor < |instances|
    requires Step(instances, s, KeyPress(DownArrow, control)).Ok?
    ensures var x := instances[s.activeMonitor];
      var b := Brightness(x, s.wmi, s.panelBrightness);
      var s' := Step(instances, s, KeyPress(DownArrow, control)).value;
      && b.Ok?
      && s'.activeMonitor == s.activeMonitor
      && |s'.writes| == |s.writes| + 1 && s'.writes[..|s.writes|] == s.writes
      && s'.writes[|s.writes|].instanceName == x.instanceName
      && Brightness(x, s'.wmi, s'.panelBrightness) == Ok(Lowered(b.value, if control then 10 else 1))
      && Brightness(x, s'.wmi, s'.panelBrightness).value <= b.value
  {
    var x := instances[s.activeMonitor];
    var b := Brightness(x, s.wmi, s.panelBrightness).value;
    ReadAfterWrite(x, Lowered(b, if control then 10 else 1), s.wmi, s.panelBrightness);
  }

  /** Up issues one write for the selected monitor, after which it reads its
      old brightness plus the step, capped at 100; the selection stays. */
  lemma UpArrowRaises(instances: seq<MonitorInstance>, s: ConsoleState, control: bool)
    requires 0 <= s.activeMonitor < |instances|
    requires Step(instances, s, KeyPress(UpArrow, control)).Ok?
    ensures var x := instances[s.activeMonitor];
      var b := Brightness(x, s.wmi, s.panelBrightness);
      var s' := Step(instances, s, KeyPress(UpArrow, control)).value;
      && b.Ok?
      && s'.activeMonitor == s.activeMonitor
      && |s'.writes| == |s.writes| + 1 && s'.writes[..|s.writes|] == s.writes
      && s'.writes[|s.writes|].instanceName == x.instanceName
      && Brightness(x, s'.wmi, s'.panelBrightness) == Ok(Raised(b.value, if control then 10 else 1))
      && Brightness(x, s'.wmi, s'.panelBrightness).value <= 100
  {
    var x := instances[s.activeMonitor];
    var b := Brightness(x, s.wmi, s.panelBrightness).value;
    ReadAfterWrite(x, Raised(b, if control then 10 else 1), s.wmi, s.panelBrightness);
  }
}
