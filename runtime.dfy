/** The two .NET runtime objects the service and the registry own: the
    one-shot System.Threading.Timer and the WMI ManagementEventWatcher. */
module Runtime {

  /** Timeout.Infinite: a due time or period that never elapses. */
  const Infinite: int := -1

  /** A timer that calls the sync pass once its due time elapses. Only its
      schedule is modelled: the pending due time and the period. */
  class Timer {
    var dueTime: int
    var period: int
    var disposed: bool

    /** new Timer(callback): created disarmed. */
    constructor ()
      ensures dueTime == Infinite && period == Infinite && !disposed
    {
      dueTime, period, disposed := Infinite, Infinite, false;
    }

    /** Timer.Change: replaces the pending schedule, whatever it was. */
    method Change(dueTime: int, period: int)
      requires !disposed
      modifies this
      ensures this.dueTime == dueTime && this.period == period && !disposed
    {
      this.dueTime, this.period := dueTime, period;
    }

    method Dispose()
      modifies this
      ensures disposed && dueTime == old(dueTime) && period == old(period)
    {
      disposed := true;
    }
  }

  /** The two WMI event queries that are watched. */
  datatype EventQuery = DeviceChangeEvents | BrightnessEvents

  /** A ManagementEventWatcher for one query, with one EventArrived handler. */
  class ManagementEventWatcher {
    const query: EventQuery
    var handlerAttached: bool
    var started: bool
    var disposed: bool

    constructor (query: EventQuery)
      ensures this.query == query && !handlerAttached && !started && !disposed
    {
      this.query := query;
      handlerAttached, started, disposed := false, false, false;
    }

    /** EventArrived += handler */
    method Attach()
      modifies this
      ensures handlerAttached && started == old(started) && disposed == old(disposed)
    {
      handlerAttached := true;
    }

    /** EventArrived -= handler */
    method Detach()
      modifies this
      ensures !handlerAttached && started == old(started) && disposed == old(disposed)
    {
      handlerAttached := false;
    }

    method Start()
      modifies this
      ensures started && handlerAttached == old(handlerAttached) && disposed == old(disposed)
    {
      started := true;
    }

    method Stop()
      modifies this
      ensures !started && handlerAttached == old(handlerAttached) && disposed == old(disposed)
    {
      started := false;
    }

    method Dispose()
      modifies this
      ensures disposed && handlerAttached == old(handlerAttached) && started == old(started)
    {
      disposed := true;
    }
  }
}
