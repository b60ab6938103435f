/**
 * The legacy monitor adapter (src/minicontrol-monitor.c): a second
 * process-wide singleton (`g_monitor_h`) layered on the viewer registry,
 * which turns viewer events into monitor actions with geometry and
 * priority read from the event bundle.
 */
module Monitor {
  import opened Types
  import opened Internal
  import Viewer

  /** `_int_to_priority`: the priority codes map to themselves and every other value to LOW. */
  function IntToPriority(value: uint32): (p: Priority)
    ensures p == Top <==> value == 1000
    ensures p == Middle <==> value == 100
    ensures p == Low <==> value != 1000 && value != 100
  {
    if value == 1000 then Top
    else if value == 100 then Middle
    else Low
  }

  /** Every priority survives being sent as its code and read back. */
  lemma PriorityCodeRoundTrip(p: Priority)
    ensures IntToPriority(AsUnsigned(p.Code())) == p
  {
  }

  /**
   * The event switch of the monitor's viewer handler: the two request
   * events become REQUEST, every other event code is taken as the action
   * code unchanged (so START, STOP and RESIZE keep their codes).
   */
  function EventToAction(event: int32): (a: int32)
    ensures event == EventRequestHide || event == EventRequestAngle ==> a == ActionRequest
    ensures event != EventRequestHide && event != EventRequestAngle ==> a == event
    ensures a == ActionRequest <==> event == EventRequestHide || event == EventRequestAngle || event == ActionRequest
  {
    if event == EventStart then ActionStart
    else if event == EventStop then ActionStop
    else if event == EventResize then ActionResize
    else if event == EventRequestHide || event == EventRequestAngle then ActionRequest
    else event
  }

  /** What `bundle_get_byte` leaves in an `int` initialised to 0: the stored integer, or 0 when there is none. */
  function ByteField(arg: Option<Bundle>, key: string): (v: int32)
    ensures arg.Some? && key in arg.value && arg.value[key].Int32Bytes? ==> v == arg.value[key].v
    ensures !(arg.Some? && key in arg.value && arg.value[key].Int32Bytes?) ==> v == 0
  {
    if arg.Some? && key in arg.value && arg.value[key].Int32Bytes? then arg.value[key].v else 0
  }

  datatype Fields = Fields(width: int32, height: int32, priority: Priority)

  /** Actions whose bundle carries geometry and priority. */
  predicate HasGeometry(action: int32) {
    action == ActionStart || action == ActionResize || action == ActionRequest
  }

  /** The geometry and priority the handler reports for `action`. */
  function ExtractFields(action: int32, arg: Option<Bundle>): (f: Fields)
    ensures !HasGeometry(action) ==> f == Fields(0, 0, Low)
    ensures arg.None? ==> f == Fields(0, 0, Low)
  {
    if HasGeometry(action)
    then Fields(ByteField(arg, "width"), ByteField(arg, "height"), IntToPriority(AsUnsigned(ByteField(arg, "priority"))))
    else Fields(0, 0, Low)
  }

  /**
   * The partner of `ProviderBundle`: the fields of a provider's lifecycle
   * bundle come back as the geometry it carries (none for STOP) and,
   * because providers send priority 0, priority LOW.
   */
  lemma LifecycleFields(event: int32, name: string, w: int32, h: int32)
    requires event == EventStart || event == EventStop || event == EventResize
    ensures ExtractFields(EventToAction(event), Some(ProviderBundle(name, w, h, 0)))
            == if event == EventStop then Fields(0, 0, Low) else Fields(w, h, Low)
  {
    var b := ProviderBundle(name, w, h, 0);
    assert b["width"] == Int32Bytes(w) && b["height"] == Int32Bytes(h) && b["priority"] == Int32Bytes(0);
  }

  /** `struct _minicontrol_monitor`: the monitor callback and its user data. */
  datatype MonitorHandle = MonitorHandle(callback: Callback, userData: UserData)

  /** An invocation of `minicontrol_monitor_cb`. */
  datatype MonitorCall = MonitorCall(callback: Callback, action: int32, name: string,
                                     width: uint32, height: uint32, priority: Priority, userData: UserData)

  /** The monitor's viewer handler, for the started monitor `m`. */
  function Forward(m: MonitorHandle, event: int32, name: string, arg: Option<Bundle>): (c: MonitorCall)
    ensures c.callback == m.callback && c.userData == m.userData && c.name == name
    ensures c.action == EventToAction(event)
    ensures !HasGeometry(c.action) ==> c.width == 0 && c.height == 0 && c.priority == Low
  {
    var f := ExtractFields(EventToAction(event), arg);
    MonitorCall(m.callback, EventToAction(event), name, AsUnsigned(f.width), AsUnsigned(f.height), f.priority, m.userData)
  }

  /**
   * End to end: a provider's START, STOP or RESIZE signal, dispatched by
   * the viewer registry to the monitor's handler, reaches the monitor
   * callback as the same action with the provider's name and geometry
   * (zero for STOP) and priority LOW, when decoding returns the bundle
   * that was encoded.
   */
  lemma LifecycleReachesMonitor(vh: Viewer.ViewerHandle, m: MonitorHandle, event: int32, name: string,
                                w: int32, h: int32, encodedLength: uint32)
    requires event == EventStart || event == EventStop || event == EventResize
    requires encodedLength > 0
    ensures
      var sig := LifecycleSignal(event, name, w, h);
      var call := Viewer.Dispatch(vh, Viewer.Received(sig, encodedLength), Viewer.PayloadBundle(sig.payload));
      && call.Some?
      && Forward(m, call.value.event, call.value.name, call.value.arg)
         == if event == EventStop then MonitorCall(m.callback, event, name, 0, 0, Low, m.userData)
            else MonitorCall(m.callback, event, name, AsUnsigned(w), AsUnsigned(h), Low, m.userData)
  {
    var sig := LifecycleSignal(event, name, w, h);
    Viewer.DispatchDelivers(vh, sig, encodedLength);
    LifecycleFields(event, name, w, h);
  }

  /** The process-wide monitor; `current` is `g_monitor_h` (`None` for NULL). */
  class Monitor {
    var current: Option<MonitorHandle>

    constructor ()
      ensures current.None?
    {
      current := None;
    }

    /**
     * `minicontrol_monitor_start`. `stored` says whether allocating the
     * monitor succeeds; `attachOk`, `viewerStored` and `setLink` are the
     * conditions of the nested viewer registration, whose result is not
     * checked, and `link` those of the final running-request broadcast.
     */
    method Start(registry: Viewer.Registry, bus: Bus, callback: Option<Callback>, data: UserData, stored: bool,
                 attachOk: bool, viewerStored: bool, setLink: Link, link: Link) returns (r: ErrorCode)
      requires bus.Valid() && registry.Owns(bus)
      modifies this, registry, bus
      ensures bus.Valid() && registry.Owns(bus)
      ensures callback.None? ==> r == InvalidParameter
      ensures callback.Some? && old(current).Some? ==> r == Unknown
      ensures callback.Some? && old(current).None? && !stored ==> r == OutOfMemory
      ensures callback.None? || old(current).Some? || !stored ==>
        current == old(current) && unchanged(registry) && unchanged(bus)
      ensures callback.Some? && old(current).None? && stored ==>
        var s := Viewer.SetStep(old(registry.current), old(bus.nextId), Some(MonitorViewerHandler), data,
                                attachOk, viewerStored, setLink);
        && current == Some(MonitorHandle(callback.value, data))
        && registry.current == s.current
        && bus.log == old(bus.log) + s.ops + RunningRequestOutput(link)
        && bus.subs == WithHandle(old(bus.subs), s.added)
        && r == RunningRequestStatus(link)
    {
      if callback.None? {
        return InvalidParameter;
      }
      if current.Some? {
        return Unknown;
      }
      if !stored {
        return OutOfMemory;
      }
      var _ := registry.SetEventCb(bus, Some(MonitorViewerHandler), data, attachOk, viewerStored, setLink);
      current := Some(MonitorHandle(callback.value, data));
      r := bus.ViewerReqMessageSend(link);
    }

    /** `minicontrol_monitor_stop`: idempotent; unsets the viewer registration when started. */
    method Stop(registry: Viewer.Registry, bus: Bus) returns (r: ErrorCode)
      requires bus.Valid() && registry.Owns(bus)
      modifies this, registry, bus`log, bus`subs
      ensures bus.Valid() && registry.Owns(bus)
      ensures r == ErrorNone && current.None?
      ensures old(current).None? ==> unchanged(registry) && bus.log == old(bus.log) && bus.subs == old(bus.subs)
      ensures old(current).Some? ==> registry.current.None?
      ensures old(current).Some? && old(registry.current).None? ==> bus.log == old(bus.log) && bus.subs == old(bus.subs)
      ensures old(current).Some? && old(registry.current).Some? ==>
        && bus.subs == old(bus.subs) - {old(registry.current).value.eventSh.id}
        && bus.log == old(bus.log) + DetachOutput(Some(old(registry.current).value.eventSh))
    {
      if current.None? {
        return ErrorNone;
      }
      var _ := registry.UnsetEventCb(bus);
      current := None;
      r := ErrorNone;
    }
  }

  /**
   * Starting a fresh monitor subscribes once and broadcasts the
   * running-request probe twice (once from the nested viewer
   * registration, once itself); starting it again is refused with
   * UNKNOWN and changes nothing.
   */
  method StartTwice(bus: Bus, registry: Viewer.Registry, monitor: Monitor) returns (first: ErrorCode, again: ErrorCode)
    requires bus.Valid() && registry.Owns(bus)
    requires registry.current.None? && monitor.current.None?
    modifies bus, registry, monitor
    ensures first == ErrorNone && again == Unknown
    ensures bus.log == old(bus.log) + [Subscribe(Viewer.ViewerSubscription(old(bus.nextId)), MatchRule(SigToViewer)),
                                       Emit(RunningRequest), Emit(RunningRequest)]
  {
    first := monitor.Start(registry, bus, Some(Client(7)), null, true, true, true, Reliable, Reliable);
    again := monitor.Start(registry, bus, Some(Client(8)), null, true, true, true, Reliable, Reliable);
  }
}
