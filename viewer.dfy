/**
 * The viewer side (src/minicontrol-viewer.c): the process-wide viewer
 * registry (`g_minicontrol_viewer_h`), which holds at most one callback
 * and one to-viewer subscription, the dispatch of inbound to-viewer
 * events to that callback, and the viewer's send and request calls.
 */
module Viewer {
  import opened Types
  import opened Format
  import opened Internal

  /** `struct _minicontrol_viewer`: the subscription, the callback and its user data. */
  datatype ViewerHandle = ViewerHandle(eventSh: SigHandle, callback: Callback, userData: UserData)

  /** The registry entry, bus operations and return value of one `minicontrol_viewer_set_event_cb`. */
  datatype SetOutcome = SetOutcome(
    current: Option<ViewerHandle>,
    added: Option<SigHandle>,   // the subscription left attached, if a new one was
    attached: bool,             // whether a subscription id was handed out
    ops: seq<BusOp>,
    status: ErrorCode)

  /** The to-viewer subscription a first registration makes when the bus would hand out `id`. */
  function ViewerSubscription(id: nat): SigHandle {
    SigHandle(id, SigToViewer, ToViewerHandler, null)
  }

  /**
   * `minicontrol_viewer_set_event_cb` on a registry holding `current`,
   * with `nextId` the id the bus hands out next. `attachOk` and `stored`
   * say whether subscribing and allocating the registry succeed, `link`
   * how the running-request broadcast goes.
   */
  function SetStep(current: Option<ViewerHandle>, nextId: nat, callback: Option<Callback>, data: UserData,
                   attachOk: bool, stored: bool, link: Link): (s: SetOutcome)
    ensures callback.None? ==> s == SetOutcome(current, None, false, [], InvalidParameter)
    // re-registration: the callback and data are replaced in place, no new subscription
    ensures callback.Some? && current.Some? ==>
      && s.current == Some(ViewerHandle(current.value.eventSh, callback.value, data))
      && s.added.None? && !s.attached && s.ops == RunningRequestOutput(link)
    // first registration: exactly one new subscription, then the broadcast
    ensures callback.Some? && current.None? && attachOk && stored ==>
      && s.current == Some(ViewerHandle(ViewerSubscription(nextId), callback.value, data))
      && s.added == Some(ViewerSubscription(nextId)) && s.attached
      && s.ops == [Subscribe(ViewerSubscription(nextId), MatchRule(SigToViewer))] + RunningRequestOutput(link)
    // a failed first registration leaves the registry empty and no subscription behind
    ensures callback.Some? && current.None? && !(attachOk && stored) ==>
      && s.current.None? && s.added.None? && s.attached == attachOk
      && s.status == (if attachOk then OutOfMemory else IpcFailure)
      && (attachOk ==> s.ops == [Subscribe(ViewerSubscription(nextId), MatchRule(SigToViewer)),
                                 Unsubscribe(ViewerSubscription(nextId), MatchRule(SigToViewer))])
      && (!attachOk ==> s.ops == [])
    // every registration that stores the callback answers with the broadcast's result
    ensures s.current.Some? && callback.Some? ==> s.status == RunningRequestStatus(link)
  {
    if callback.None? then SetOutcome(current, None, false, [], InvalidParameter)
    else if current.Some? then
      SetOutcome(Some(ViewerHandle(current.value.eventSh, callback.value, data)), None, false,
                 RunningRequestOutput(link), RunningRequestStatus(link))
    else if !attachOk then SetOutcome(None, None, false, [], IpcFailure)
    else
      var h := ViewerSubscription(nextId);
      if !stored then
        SetOutcome(None, None, true, [Subscribe(h, MatchRule(SigToViewer)), Unsubscribe(h, MatchRule(SigToViewer))], OutOfMemory)
      else
        SetOutcome(Some(ViewerHandle(h, callback.value, data)), Some(h), true,
                   [Subscribe(h, MatchRule(SigToViewer))] + RunningRequestOutput(link), RunningRequestStatus(link))
  }

  /** Registering twice leaves the first subscription in place, holding the second callback. */
  lemma ReRegistrationKeepsSubscription(nextId: nat, first: Callback, firstData: UserData,
                                        second: Callback, secondData: UserData, link: Link)
    ensures
      var one := SetStep(None, nextId, Some(first), firstData, true, true, link);
      var two := SetStep(one.current, nextId + 1, Some(second), secondData, true, true, link);
      && two.added.None? && one.added.Some?
      && two.current == Some(ViewerHandle(one.added.value, second, secondData))
  {
  }

  /** The process-wide registry; `current` is `g_minicontrol_viewer_h` (`None` for NULL). */
  class Registry {
    var current: Option<ViewerHandle>

    constructor ()
      ensures current.None?
    {
      current := None;
    }

    /** The registry's subscription is live and dispatches to the to-viewer handler with no data. */
    ghost predicate Owns(bus: Bus)
      reads this, bus
    {
      current.Some? ==> current.value.eventSh == ViewerSubscription(current.value.eventSh.id) && bus.Live(current.value.eventSh)
    }

    /** `minicontrol_viewer_set_event_cb`. */
    method SetEventCb(bus: Bus, callback: Option<Callback>, data: UserData, attachOk: bool, stored: bool, link: Link)
      returns (r: ErrorCode)
      requires bus.Valid() && Owns(bus)
      modifies this, bus
      ensures bus.Valid() && Owns(bus)
      ensures
        var s := SetStep(old(current), old(bus.nextId), callback, data, attachOk, stored, link);
        && current == s.current && r == s.status
        && bus.log == old(bus.log) + s.ops
        && bus.subs == WithHandle(old(bus.subs), s.added)
        && bus.nextId == old(bus.nextId) + (if s.attached then 1 else 0)
    {
      ghost var step := SetStep(current, bus.nextId, callback, data, attachOk, stored, link);
      if callback.None? {
        return InvalidParameter;
      }
      if current.None? {
        var eventSh := bus.Attach(Some(SigToViewer), Some(ToViewerHandler), null, attachOk);
        if eventSh.None? {
          return IpcFailure;
        }
        assert eventSh.value == ViewerSubscription(old(bus.nextId));
        if !stored {
          bus.Detach(eventSh);
          assert bus.subs == old(bus.subs);
          return OutOfMemory;
        }
        assert step.added == eventSh;
        current := Some(ViewerHandle(eventSh.value, callback.value, data));
      }
      current := Some(ViewerHandle(current.value.eventSh, callback.value, data));
      r := bus.ViewerReqMessageSend(link);
    }

    /** `minicontrol_viewer_unset_event_cb`: idempotent; releases the one subscription, if any. */
    method UnsetEventCb(bus: Bus) returns (r: ErrorCode)
      requires bus.Valid() && Owns(bus)
      modifies this, bus`log, bus`subs
      ensures bus.Valid() && Owns(bus)
      ensures r == ErrorNone && current.None?
      ensures old(current).None? ==> bus.log == old(bus.log) && bus.subs == old(bus.subs)
      ensures old(current).Some? ==>
        && bus.subs == old(bus.subs) - {old(current).value.eventSh.id}
        && |bus.subs| == |old(bus.subs)| - 1
        && bus.log == old(bus.log) + DetachOutput(Some(old(current).value.eventSh))
    {
      if current.None? {
        return ErrorNone;
      }
      bus.Detach(Some(current.value.eventSh));
      current := None;
      r := ErrorNone;
    }
  }

  /** An invocation of the registered `minicontrol_viewer_event_cb`. */
  datatype ViewerCall = ViewerCall(callback: Callback, event: int32, name: string, arg: Option<Bundle>, userData: UserData)

  /**
   * `_sig_to_viewer_handler_cb` for the registered entry `h`: `args` is
   * what reading the message's arguments gave and `decoded` what decoding
   * its bundle gave. No name filter applies. A zero length means no
   * bundle; a nonzero length that does not decode drops the message.
   */
  function Dispatch(h: ViewerHandle, args: Option<EventArgs>, decoded: Option<Bundle>): (c: Option<ViewerCall>)
    ensures c.Some? <==> args.Some? && (args.value.length == 0 || decoded.Some?)
    ensures c.Some? ==>
      && c.value.callback == h.callback && c.value.userData == h.userData
      && c.value.name == args.value.name && c.value.event == args.value.event
      && (args.value.length == 0 <==> c.value.arg.None?)
      && (args.value.length != 0 ==> c.value.arg == decoded)
  {
    if args.None? then None
    else if args.value.length != 0 && decoded.None? then None
    else Some(ViewerCall(h.callback, args.value.event, args.value.name,
                         if args.value.length == 0 then None else decoded, h.userData))
  }

  /** The bundle a receiver recovers from an event payload. */
  function PayloadBundle(p: Payload): Option<Bundle> {
    if p.Encoded? then Some(p.bundle) else None
  }

  /** The arguments a receiver reads from an event signal whose bundle encodes to `encodedLength` bytes. */
  function Received(sig: Signal, encodedLength: uint32): Option<EventArgs>
    requires sig.Event?
  {
    Some(EventArgs(sig.target, sig.code, if sig.payload.Empty? then 0 else encodedLength))
  }

  /**
   * Every event signal that reaches the viewer, with or without a bundle,
   * is handed to its callback unchanged, when decoding returns the bundle
   * that was encoded.
   */
  lemma DispatchDelivers(h: ViewerHandle, sig: Signal, encodedLength: uint32)
    requires sig.Event? && encodedLength > 0
    ensures Dispatch(h, Received(sig, encodedLength), PayloadBundle(sig.payload))
            == Some(ViewerCall(h.callback, sig.code, sig.target, PayloadBundle(sig.payload), h.userData))
  {
  }

  /** `minicontrol_viewer_send_event`: an event for provider `name` on the to-provider channel. */
  method SendEvent(bus: Bus, name: Option<string>, event: int32, arg: Option<Bundle>, link: Link) returns (r: ErrorCode)
    modifies bus`log
    ensures name.None? ==> r == InvalidParameter && bus.log == old(bus.log)
    ensures r == SendEventStatus(name, arg, link)
    ensures bus.log == old(bus.log) + SendEventOutput(ToProvider, name, event, arg, link)
  {
    if name.None? {
      return InvalidParameter;
    }
    r := bus.SendEvent(ToProvider, name, event, arg, link);
  }

  /** The bundle of a rotate request: the angle printed with `%d` into a 100-byte buffer. */
  function AngleBundle(value: int32): (b: Bundle)
    ensures b.Keys == {"angle"} && b["angle"].Str?
  {
    map["angle" := Str(Truncate(IntToDecimal(value as int), BundleBufferLength - 1))]
  }

  /** The angle a provider reads back from the bundle is the one the viewer sent. */
  lemma {:induction false} AngleRoundTrip(value: int32)
    ensures ParseDecimal(AngleBundle(value)["angle"].s) == Some(value as int)
  {
    Int32DecimalFits(value);
    DecimalRoundTrip(value as int);
  }

  /** The switch of `minicontrol_viewer_request`: only ROTATE_PROVIDER is forwarded, as REPORT_ANGLE. */
  function ViewerRequestEvent(request: int32): (e: Option<int32>)
    ensures e.Some? <==> request == ReqRotateProvider
    ensures e.Some? ==> e.value == EventReportAngle
  {
    if request == ReqRotateProvider then Some(EventReportAngle) else None
  }

  /**
   * `minicontrol_viewer_request`: a rotate request goes to provider
   * `name` as REPORT_ANGLE with the angle bundle; the send result is not
   * reported. Any other request returns INVALID_PARAMETER and sends nothing.
   */
  method Request(bus: Bus, name: Option<string>, request: int32, value: int32, bundleCreated: bool, link: Link)
    returns (r: ErrorCode)
    modifies bus`log
    ensures name.None? || ViewerRequestEvent(request).None? ==> r == InvalidParameter && bus.log == old(bus.log)
    ensures name.Some? && ViewerRequestEvent(request).Some? && !bundleCreated ==> r == OutOfMemory && bus.log == old(bus.log)
    ensures name.Some? && ViewerRequestEvent(request).Some? && bundleCreated ==>
      && r == ErrorNone
      && bus.log == old(bus.log) + SendEventOutput(ToProvider, name, EventReportAngle, Some(AngleBundle(value)), link)
  {
    if name.None? {
      return InvalidParameter;
    }
    var event := ViewerRequestEvent(request);
    if event.None? {
      return InvalidParameter;
    }
    if !bundleCreated {
      return OutOfMemory;
    }
    var _ := bus.SendEvent(ToProvider, name, event.value, Some(AngleBundle(value)), link);
    r := ErrorNone;
  }

  /**
   * Registering, re-registering and unsetting twice: one subscription
   * while registered, none afterwards, and the second unset does nothing.
   */
  method RegisterTwiceUnsetTwice(bus: Bus, reg: Registry) returns (first: ErrorCode, second: ErrorCode)
    requires bus.Valid() && reg.Owns(bus) && reg.current.None?
    modifies bus, reg
    ensures first == ErrorNone && second == ErrorNone
    ensures reg.current.None? && bus.subs == old(bus.subs)
  {
    first := reg.SetEventCb(bus, Some(Client(1)), null, true, true, Reliable);
    var afterFirst := bus.subs;
    second := reg.SetEventCb(bus, Some(Client(2)), null, true, true, Reliable);
    assert bus.subs == afterFirst;
    assert reg.current.value.callback == Client(2);
    var _ := reg.UnsetEventCb(bus);
    var subsAfterUnset := bus.subs;
    var _ := reg.UnsetEventCb(bus);
    assert bus.subs == subsAfterUnset;
  }
}
