/**
 * Signal emission and subscription helpers shared by providers and
 * viewers (src/minicontrol-internal.c). The bus itself is abstract: a
 * `Bus` object records, in order, every signal the process emits and
 * every subscription it adds or removes, and keeps the set of live
 * subscriptions. Whether a connection, a message, an encoding or a send
 * succeeds is an input (`Link`).
 */
module Internal {
  import opened Types
  import opened Format

  const DbusPath := "/org/tizen/minicontrol"
  const DbusInterface := "org.tizen.minicontrol.signal"

  const ProcDbusExclude := "exclude"
  const ProcDbusInclude := "include"

  const SigRunningReq := "minicontrol_running_request"
  const SigToProvider := "minicontrol_signal_to_provider"
  const SigToViewer := "minicontrol_signal_to_viewer"

  /** `BUNDLE_BUFFER_LENGTH`: string values put into bundles keep at most 99 characters. */
  const BundleBufferLength := 100

  /** Size of the buffer the match rule is printed into. */
  const RuleBufferLength := 1024

  /** The bus member name of a routed channel. */
  function ChannelSignal(c: Channel): (s: string)
    ensures s == SigToProvider <==> c == ToProvider
    ensures s == SigToViewer <==> c == ToViewer
  {
    match c
    case ToProvider => SigToProvider
    case ToViewer => SigToViewer
  }

  // ---------------------------------------------------------------------
  // Match rules and the signal filter

  const RulePrefix := "path='" + DbusPath + "',type='signal',interface='" + DbusInterface + "',member='"

  /** The match rule a subscription to `signal` installs, as printed into its 1024-byte buffer. */
  function MatchRule(signal: string): (rule: string)
    ensures |rule| <= RuleBufferLength - 1
    ensures |RulePrefix| + |signal| + 1 <= RuleBufferLength - 1 ==> |rule| == |RulePrefix| + |signal| + 1
  {
    Truncate(RulePrefix + signal + "'", RuleBufferLength - 1)
  }

  /** The member a rule of the form `MatchRule` selects, read back from its text. */
  function RuleMember(rule: string): (m: Option<string>)
    ensures m.Some? ==> |m.value| + |RulePrefix| + 1 == |rule|
  {
    if |rule| >= |RulePrefix| + 1 && rule[..|RulePrefix|] == RulePrefix && rule[|rule| - 1] == '\''
    then Some(rule[|RulePrefix|..|rule| - 1])
    else None
  }

  /** A signal name short enough for its match rule to fit the buffer. */
  predicate FitsRule(signal: string) {
    |RulePrefix| + |signal| + 1 <= RuleBufferLength - 1
  }

  /** For every signal whose rule fits the buffer, the rule names exactly that signal. */
  lemma MatchRuleRoundTrip(signal: string)
    requires FitsRule(signal)
    ensures RuleMember(MatchRule(signal)) == Some(signal)
  {
    var rule := RulePrefix + signal + "'";
    assert MatchRule(signal) == rule;
    assert rule[..|RulePrefix|] == RulePrefix;
    assert rule[|RulePrefix|..|rule| - 1] == signal;
  }

  /** The three signal names the library subscribes to all fit the buffer. */
  lemma LibrarySignalsFitRule()
    ensures FitsRule(SigRunningReq) && FitsRule(SigToProvider) && FitsRule(SigToViewer)
  {
  }

  /** An inbound message as the connection filter sees it. */
  datatype Message = Message(isSignal: bool, path: Option<string>, iface: Option<string>, member: Option<string>)

  /** `DBusHandlerResult`, together with the callback the filter invoked when it handled the message. */
  datatype FilterResult = NotYetHandled | Handled(callback: Callback, userData: UserData)

  /** `_minictrl_signal_filter`: `h` is the filter's user data (`None` for NULL). */
  function SignalFilter(h: Option<SigHandle>, msg: Message): (r: FilterResult)
    ensures r.Handled? <==>
      h.Some? && msg.iface == Some(DbusInterface) && msg.isSignal && msg.member == Some(h.value.signal)
    ensures r.Handled? ==> r.callback == h.value.callback && r.userData == h.value.userData
  {
    if h.None? then NotYetHandled
    else if msg.iface.None? then NotYetHandled
    else if msg.iface.value != DbusInterface then NotYetHandled
    else if !(msg.isSignal && msg.member == Some(h.value.signal)) then NotYetHandled
    else Handled(h.value.callback, h.value.userData)
  }

  /** What the bus delivers for a rule of the form `MatchRule`: signals on the minicontrol path and interface with the rule's member. */
  predicate RuleSelects(rule: string, msg: Message) {
    RuleMember(rule).Some? && msg.isSignal && msg.path == Some(DbusPath)
    && msg.iface == Some(DbusInterface) && msg.member == Some(RuleMember(rule).value)
  }

  /**
   * On the minicontrol object path, the filter of a handle handles exactly
   * the messages its installed match rule selects.
   */
  lemma FilterAgreesWithRule(h: SigHandle, msg: Message)
    requires FitsRule(h.signal)
    requires msg.path == Some(DbusPath)
    ensures SignalFilter(Some(h), msg).Handled? <==> RuleSelects(MatchRule(h.signal), msg)
  {
    MatchRuleRoundTrip(h.signal);
  }

  // ---------------------------------------------------------------------
  // What the send helpers return and emit

  /** The process-manager notice type for a `_minictrl_PROC_DBUS_TYPE`. */
  function ProcTypeName(kind: int32): (r: Option<string>)
    ensures r == Some(ProcDbusExclude) <==> kind == ProcExclude
    ensures r == Some(ProcDbusInclude) <==> kind == ProcInclude
    ensures r.None? <==> kind != ProcExclude && kind != ProcInclude
  {
    if kind == ProcExclude then Some(ProcDbusExclude)
    else if kind == ProcInclude then Some(ProcDbusInclude)
    else None
  }

  /** What `_minictrl_provider_proc_send` returns: -1, `IPC_FAILURE`, or the D-Bus boolean that appending the arguments returned. */
  datatype ProcReturn = MinusOne | IpcError | AppendResult(appended: bool)

  function ProcStatus(kind: int32, link: Link): ProcReturn {
    if ProcTypeName(kind).None? then MinusOne
    else if !link.connected then IpcError
    else if !link.created then MinusOne
    else AppendResult(link.appended)
  }

  function ProcOutput(kind: int32, pid: int32, link: Link): (ops: seq<BusOp>)
    ensures |ops| <= 1
    ensures ops != [] ==> ProcStatus(kind, link).AppendResult?
  {
    if ProcTypeName(kind).Some? && link.connected && link.created && link.sent
    then [Emit(ProcNotice(if link.appended then ProcArgs(ProcTypeName(kind).value, pid) else NoArgs))]
    else []
  }

  function PayloadOf(arg: Option<Bundle>): Payload {
    if arg.Some? then Encoded(arg.value) else Empty
  }

  /** What `_minictrl_send_event` returns. */
  function SendEventStatus(name: Option<string>, arg: Option<Bundle>, link: Link): ErrorCode {
    if name.None? then InvalidParameter
    else if !link.connected then IpcFailure
    else if !link.created then OutOfMemory
    else if arg.Some? && !link.encoded then OutOfMemory
    else if !link.appended then OutOfMemory
    else if !link.sent then IpcFailure
    else ErrorNone
  }

  /** What `_minictrl_send_event` emits: one event signal exactly when it returns `NONE`. */
  function SendEventOutput(ch: Channel, name: Option<string>, event: int32, arg: Option<Bundle>, link: Link): (ops: seq<BusOp>)
    ensures |ops| <= 1
    ensures ops != [] <==> SendEventStatus(name, arg, link) == ErrorNone
    ensures ops != [] ==> ops[0] == Emit(Event(ch, name.value, event, PayloadOf(arg)))
  {
    if SendEventStatus(name, arg, link) == ErrorNone then [Emit(Event(ch, name.value, event, PayloadOf(arg)))] else []
  }

  /** The bundle of a START, STOP or RESIZE signal. */
  function ProviderBundle(name: string, w: int32, h: int32, priority: int32): (b: Bundle)
    ensures b.Keys == {"minicontrol_name", "width", "height", "priority"}
    ensures b["minicontrol_name"] == Str(Truncate(name, BundleBufferLength - 1))
    ensures b["width"] == Int32Bytes(w) && b["height"] == Int32Bytes(h) && b["priority"] == Int32Bytes(priority)
  {
    map["minicontrol_name" := Str(Truncate(name, BundleBufferLength - 1)),
        "width" := Int32Bytes(w),
        "height" := Int32Bytes(h),
        "priority" := Int32Bytes(priority)]
  }

  function ProviderMessageStatus(bundleCreated: bool): ErrorCode {
    if bundleCreated then ErrorNone else OutOfMemory
  }

  function ProviderMessageOutput(event: int32, name: string, w: int32, h: int32, priority: int32,
                                 bundleCreated: bool, link: Link): (ops: seq<BusOp>)
    ensures |ops| <= 1
  {
    if bundleCreated then SendEventOutput(ToViewer, Some(name), event, Some(ProviderBundle(name, w, h, priority)), link)
    else []
  }

  /** The lifecycle signal `_minictrl_provider_message_send` emits when nothing fails. */
  function LifecycleSignal(event: int32, name: string, w: int32, h: int32): Signal {
    Event(ToViewer, name, event, Encoded(ProviderBundle(name, w, h, 0)))
  }

  function RunningRequestStatus(link: Link): ErrorCode {
    if !link.connected then IpcFailure
    else if !link.created then OutOfMemory
    else if !link.sent then IpcFailure
    else ErrorNone
  }

  function RunningRequestOutput(link: Link): (ops: seq<BusOp>)
    ensures ops == [] || ops == [Emit(RunningRequest)]
    ensures ops != [] <==> RunningRequestStatus(link) == ErrorNone
  {
    if RunningRequestStatus(link) == ErrorNone then [Emit(RunningRequest)] else []
  }

  /** The bus operations that a detach of `h` records (none for a NULL handle). */
  function DetachOutput(h: Option<SigHandle>): (ops: seq<BusOp>)
    ensures |ops| == if h.Some? then 1 else 0
  {
    if h.Some? then [Unsubscribe(h.value, MatchRule(h.value.signal))] else []
  }

  /** The subscription table once `h`, if any, is attached. */
  function WithHandle(subs: map<nat, SigHandle>, h: Option<SigHandle>): map<nat, SigHandle> {
    if h.Some? then subs[h.value.id := h.value] else subs
  }

  function HandleIds(h: Option<SigHandle>): (ids: set<nat>)
    ensures |ids| <= 1
  {
    if h.Some? then {h.value.id} else {}
  }

  /** The process's side of the system bus. */
  class Bus {
    var log: seq<BusOp>
    var subs: map<nat, SigHandle>
    var nextId: nat

    /** Handles are keyed by their id, and ids are handed out in increasing order. */
    ghost predicate Valid()
      reads this
    {
      forall id | id in subs :: id < nextId && subs[id].id == id
    }

    /** `h` is a subscription that is still attached. */
    ghost predicate Live(h: SigHandle)
      reads this
    {
      h.id in subs && subs[h.id] == h
    }

    constructor ()
      ensures Valid() && log == [] && subs == map[] && nextId == 0
    {
      log, subs, nextId := [], map[], 0;
    }

    /** `_minictrl_viewer_req_message_send`: broadcast the running-request probe. */
    method ViewerReqMessageSend(link: Link) returns (r: ErrorCode)
      modifies this`log
      ensures r == RunningRequestStatus(link)
      ensures log == old(log) + RunningRequestOutput(link)
    {
      if !link.connected {
        return IpcFailure;
      }
      if !link.created {
        return OutOfMemory;
      }
      if !link.sent {
        return IpcFailure;
      }
      log := log + [Emit(RunningRequest)];
      return ErrorNone;
    }

    /** `_minictrl_provider_proc_send`: tell the process manager to exclude or include this process. */
    method ProcSend(kind: int32, pid: int32, link: Link) returns (r: ProcReturn)
      modifies this`log
      ensures r == ProcStatus(kind, link)
      ensures ProcTypeName(kind).None? ==> r == MinusOne && log == old(log)
      ensures log == old(log) + ProcOutput(kind, pid, link)
    {
      r := MinusOne;
      var typeName := ProcTypeName(kind);
      if typeName.None? {
        return;
      }
      if !link.connected {
        r := IpcError;
        return;
      }
      if !link.created {
        return;
      }
      r := AppendResult(link.appended);
      if link.sent {
        log := log + [Emit(ProcNotice(if link.appended then ProcArgs(typeName.value, pid) else NoArgs))];
      }
    }

    /** `_minictrl_send_event`: emit `(name, event, payload, length)` on a routed channel. */
    method SendEvent(ch: Channel, name: Option<string>, event: int32, arg: Option<Bundle>, link: Link) returns (r: ErrorCode)
      modifies this`log
      ensures name.None? ==> r == InvalidParameter
      ensures r == SendEventStatus(name, arg, link)
      ensures log == old(log) + SendEventOutput(ch, name, event, arg, link)
    {
      if name.None? {
        return InvalidParameter;
      }
      if !link.connected {
        return IpcFailure;
      }
      if !link.created {
        return OutOfMemory;
      }
      var payload := Empty;
      if arg.Some? {
        if !link.encoded {
          return OutOfMemory;
        }
        payload := Encoded(arg.value);
      }
      if !link.appended {
        return OutOfMemory;
      }
      if !link.sent {
        return IpcFailure;
      }
      log := log + [Emit(Event(ch, name.value, event, payload))];
      return ErrorNone;
    }

    /**
     * `_minictrl_provider_message_send`: emit a lifecycle event with the
     * name, geometry and priority bundle on the to-viewer channel. Only a
     * failure to create the bundle is reported; the send result is dropped.
     */
    method ProviderMessageSend(event: int32, name: string, w: int32, h: int32, priority: int32,
                               bundleCreated: bool, link: Link) returns (r: ErrorCode)
      modifies this`log
      ensures r == ProviderMessageStatus(bundleCreated)
      ensures log == old(log) + ProviderMessageOutput(event, name, w, h, priority, bundleCreated, link)
    {
      if !bundleCreated {
        return OutOfMemory;
      }
      var arg := ProviderBundle(name, w, h, priority);
      var _ := SendEvent(ToViewer, Some(name), event, Some(arg), link);
      return ErrorNone;
    }

    /**
     * `_minictrl_dbus_sig_handle_attach`: subscribe to `signal`. `ok` says
     * whether allocating the handle, getting a private connection, adding
     * the match rule and adding the filter all succeed; when any fails,
     * nothing stays subscribed.
     */
    method Attach(signal: Option<string>, callback: Option<Callback>, data: UserData, ok: bool)
      returns (h: Option<SigHandle>)
      requires Valid()
      modifies this
      ensures Valid()
      ensures h.Some? <==> signal.Some? && callback.Some? && ok
      ensures h.None? ==> log == old(log) && subs == old(subs) && nextId == old(nextId)
      ensures h.Some? ==>
        && h.value == SigHandle(old(nextId), signal.value, callback.value, data)
        && h.value.id !in old(subs)
        && subs == old(subs)[h.value.id := h.value]
        && nextId == old(nextId) + 1
        && log == old(log) + [Subscribe(h.value, MatchRule(signal.value))]
    {
      if signal.None? || callback.None? || !ok {
        return None;
      }
      var handle := SigHandle(nextId, signal.value, callback.value, data);
      subs := subs[nextId := handle];
      nextId := nextId + 1;
      log := log + [Subscribe(handle, MatchRule(signal.value))];
      return Some(handle);
    }

    /** `_minictrl_dbus_sig_handle_dettach`: drop a live subscription; a NULL handle is ignored. */
    method Detach(h: Option<SigHandle>)
      requires Valid()
      requires h.Some? ==> Live(h.value)
      modifies this`log, this`subs
      ensures Valid()
      ensures subs == old(subs) - HandleIds(h)
      ensures log == old(log) + DetachOutput(h)
      ensures h.Some? ==> |subs| == |old(subs)| - 1
    {
      if h.None? {
        return;
      }
      subs := subs - {h.value.id};
      log := log + [Unsubscribe(h.value, MatchRule(h.value.signal))];
    }
  }
}
