/**
 * The provider side (src/minicontrol-provider.c): a provider window, the
 * per-window data record with its READY/RUNNING state and its two bus
 * subscriptions, the lifecycle transitions driven by the window's
 * show/hide/resize/delete callbacks, the replies to the running-request
 * probe and to to-provider events, and the public send/request calls.
 *
 * Geometry `(w, h)` and the process id are inputs to the operations that
 * read them; `Faults` says how the bus interactions of one operation go.
 */
module Provider {
  import opened Types
  import opened Format
  import opened Internal

  datatype State = Ready | Running

  // ---------------------------------------------------------------------
  // Names and requests

  /** `_minictrl_create_name`: the internal name is the given name in square brackets. */
  function CreateName(name: Option<string>, ok: bool): (r: Result<string>)
    ensures name.None? ==> r == Err(InvalidParameter)
    ensures name.Some? && !ok ==> r == Err(OutOfMemory)
    ensures name.Some? && ok ==>
      && r.Ok? && |r.value| == |name.value| + 2
      && r.value[0] == '[' && r.value[|r.value| - 1] == ']'
      && r.value[1..|r.value| - 1] == name.value
  {
    if name.None? then Err(InvalidParameter)
    else if !ok then Err(OutOfMemory)
    else Ok("[" + name.value + "]")
  }

  /** Distinct names give distinct internal names, so routing on the internal name tells providers apart. */
  lemma CreateNameInjective(a: string, b: string)
    ensures CreateName(Some(a), true) == CreateName(Some(b), true) ==> a == b
  {
    if CreateName(Some(a), true) == CreateName(Some(b), true) {
      var r := CreateName(Some(a), true).value;
      assert a == r[1..|r| - 1] == b;
    }
  }

  /**
   * The switch of `minicontrol_request`: the event code a request is
   * forwarded as, or `None` for `MINICONTROL_REQ_NONE` and unknown codes.
   * Every forwarded request keeps its numeric code, because hide-viewer and
   * report-angle share theirs with the request-hide and request-angle events.
   */
  function RequestEvent(request: int32): (e: Option<int32>)
    ensures e.Some? <==>
      request == ReqHideViewer || request == ReqFreezeScrollViewer || request == ReqUnfreezeScrollViewer
      || request == ReqReportViewerAngle || request == ReqRotateProvider
    ensures request == ReqHideViewer ==> e == Some(EventRequestHide)
    ensures request == ReqReportViewerAngle ==> e == Some(EventRequestAngle)
    ensures e.Some? ==> e.value == request
  {
    if request == ReqHideViewer then Some(EventRequestHide)
    else if request == ReqReportViewerAngle then Some(EventRequestAngle)
    else if request == ReqFreezeScrollViewer || request == ReqUnfreezeScrollViewer || request == ReqRotateProvider
    then Some(request)
    else None
  }

  /** The name filter of `_sig_to_provider_handler_cb`: the arguments were read and name this provider exactly. */
  predicate Accepts(providerName: string, args: Option<EventArgs>) {
    args.Some? && args.value.name == providerName
  }

  /**
   * Two providers created from names `a` and `b` share the to-provider
   * channel; an event addressed to `a` is accepted by `b` only if `a == b`.
   */
  lemma RoutingByName(a: string, b: string, event: int32, length: uint32)
    ensures Accepts(CreateName(Some(b), true).value, Some(EventArgs(CreateName(Some(a), true).value, event, length)))
            <==> a == b
  {
    CreateNameInjective(a, b);
  }

  // ---------------------------------------------------------------------
  // The lifecycle, as functions of the state

  /** How the bus interactions of one transition go: the process-manager notice, the lifecycle message and its bundle. */
  datatype Faults = Faults(proc: Link, msg: Link, bundleCreated: bool)

  const NoFaults := Faults(Reliable, Reliable, true)

  /** New state, bus operations in order, and return value of one transition. */
  datatype Step = Step(state: State, ops: seq<BusOp>, status: ErrorCode)

  /**
   * `minicontrol_win_start`: from READY, become RUNNING, then notify the
   * process manager EXCLUDE, then emit START with the current geometry and
   * priority 0; from RUNNING, nothing.
   */
  function StartStep(s: State, name: string, w: int32, h: int32, pid: int32, f: Faults): (r: Step)
    ensures r.state == Running
    ensures s == Running ==> r == Step(Running, [], ErrorNone)
    ensures s == Ready ==> r.status == ProviderMessageStatus(f.bundleCreated) && |r.ops| <= 2
    ensures s == Ready && f == NoFaults ==>
      r.ops == [Emit(ProcNotice(ProcArgs(ProcDbusExclude, pid))), Emit(LifecycleSignal(EventStart, name, w, h))]
  {
    if s == Running then Step(Running, [], ErrorNone)
    else Step(Running,
              ProcOutput(ProcExclude, pid, f.proc) + ProviderMessageOutput(EventStart, name, w, h, 0, f.bundleCreated, f.msg),
              ProviderMessageStatus(f.bundleCreated))
  }

  /**
   * `minicontrol_win_stop`: from RUNNING, become READY, then notify the
   * process manager INCLUDE, then emit STOP with zero geometry; from READY,
   * nothing.
   */
  function StopStep(s: State, name: string, pid: int32, f: Faults): (r: Step)
    ensures r.state == Ready
    ensures s == Ready ==> r == Step(Ready, [], ErrorNone)
    ensures s == Running ==> r.status == ProviderMessageStatus(f.bundleCreated) && |r.ops| <= 2
    ensures s == Running && f == NoFaults ==>
      r.ops == [Emit(ProcNotice(ProcArgs(ProcDbusInclude, pid))), Emit(LifecycleSignal(EventStop, name, 0, 0))]
  {
    if s == Ready then Step(Ready, [], ErrorNone)
    else Step(Ready,
              ProcOutput(ProcInclude, pid, f.proc) + ProviderMessageOutput(EventStop, name, 0, 0, 0, f.bundleCreated, f.msg),
              ProviderMessageStatus(f.bundleCreated))
  }

  /** `_minictrl_win_resize_cb`: RESIZE with the new geometry, only while RUNNING. */
  function ResizeOutput(s: State, name: string, w: int32, h: int32, f: Faults): (ops: seq<BusOp>)
    ensures s == Ready ==> ops == []
    ensures s == Running && f == NoFaults ==> ops == [Emit(LifecycleSignal(EventResize, name, w, h))]
  {
    if s == Running then ProviderMessageOutput(EventResize, name, w, h, 0, f.bundleCreated, f.msg) else []
  }

  /** `_running_req_cb`: a RUNNING provider answers the probe by re-emitting START; a READY one stays silent. */
  function ProbeOutput(s: State, name: string, w: int32, h: int32, f: Faults): (ops: seq<BusOp>)
    ensures s == Ready ==> ops == []
    ensures s == Running && f == NoFaults ==> ops == [Emit(LifecycleSignal(EventStart, name, w, h))]
  {
    if s == Running then ProviderMessageOutput(EventStart, name, w, h, 0, f.bundleCreated, f.msg) else []
  }

  /** What the host window and the bus can do to a provider. */
  datatype WindowEvent = Shown(w: int32, h: int32) | Hidden | Resized(w: int32, h: int32) | Probed(w: int32, h: int32)

  function Apply(s: State, name: string, pid: int32, ev: WindowEvent): Step {
    match ev
    case Shown(w, h) => StartStep(s, name, w, h, pid, NoFaults)
    case Hidden => StopStep(s, name, pid, NoFaults)
    case Resized(w, h) => Step(s, ResizeOutput(s, name, w, h, NoFaults), ErrorNone)
    case Probed(w, h) => Step(s, ProbeOutput(s, name, w, h, NoFaults), ErrorNone)
  }

  /** The final state and the bus operations of a sequence of window events, when no bus interaction fails. */
  function Run(s: State, name: string, pid: int32, evs: seq<WindowEvent>): (State, seq<BusOp>)
    decreases |evs|
  {
    if evs == [] then (s, [])
    else
      var first := Apply(s, name, pid, evs[0]);
      var rest := Run(first.state, name, pid, evs[1..]);
      (rest.0, first.ops + rest.1)
  }

  /** `op` emits the lifecycle event `code` of provider `name` on the to-viewer channel. */
  predicate IsLifecycle(op: BusOp, name: string, code: int32) {
    op.Emit? && op.signal.Event? && op.signal.channel == ToViewer && op.signal.target == name
    && op.signal.code == code && op.signal.payload.Encoded?
  }

  /**
   * The shape of a provider's bus traffic: while READY, the only thing it
   * may emit is EXCLUDE followed by START; while RUNNING, RESIZE or START
   * (a probe answer), or INCLUDE followed by a STOP with zero geometry.
   */
  ghost predicate Announces(ops: seq<BusOp>, name: string, pid: int32, running: bool)
    decreases |ops|
  {
    if ops == [] then true
    else if !running then
      |ops| >= 2 && ops[0] == Emit(ProcNotice(ProcArgs(ProcDbusExclude, pid)))
      && IsLifecycle(ops[1], name, EventStart) && Announces(ops[2..], name, pid, true)
    else if IsLifecycle(ops[0], name, EventResize) || IsLifecycle(ops[0], name, EventStart) then
      Announces(ops[1..], name, pid, true)
    else
      |ops| >= 2 && ops[0] == Emit(ProcNotice(ProcArgs(ProcDbusInclude, pid)))
      && ops[1] == Emit(LifecycleSignal(EventStop, name, 0, 0)) && Announces(ops[2..], name, pid, false)
  }

  /**
   * Lifecycle gating: over any sequence of window events, a provider emits
   * START only on becoming visible or answering a probe while RUNNING,
   * RESIZE only while RUNNING, and exactly one STOP, with zero geometry,
   * each time it goes from RUNNING back to READY.
   */
  lemma {:induction false} RunAnnounces(s: State, name: string, pid: int32, evs: seq<WindowEvent>)
    ensures Announces(Run(s, name, pid, evs).1, name, pid, s == Running)
    decreases |evs|
  {
    if evs != [] {
      var first := Apply(s, name, pid, evs[0]);
      var rest := Run(first.state, name, pid, evs[1..]);
      RunAnnounces(first.state, name, pid, evs[1..]);
      var ops := first.ops + rest.1;
      assert Run(s, name, pid, evs).1 == ops;
      if |first.ops| == 2 {
        assert ops[2..] == rest.1;
      } else if |first.ops| == 1 {
        assert ops[1..] == rest.1;
      } else {
        assert ops == rest.1;
      }
    }
  }

  /** One provider as the running-request probe finds it. */
  datatype ProbeTarget = ProbeTarget(state: State, name: string, w: int32, h: int32)

  /** What the providers of `ps` emit between them when one probe reaches each of them. */
  function ProbeFanOut(ps: seq<ProbeTarget>): seq<BusOp>
    decreases |ps|
  {
    if ps == [] then []
    else ProbeOutput(ps[0].state, ps[0].name, ps[0].w, ps[0].h, NoFaults) + ProbeFanOut(ps[1..])
  }

  function CountRunning(ps: seq<ProbeTarget>): nat
    decreases |ps|
  {
    if ps == [] then 0 else (if ps[0].state == Running then 1 else 0) + CountRunning(ps[1..])
  }

  /** A probe reaching N RUNNING and M READY providers yields exactly N STARTs and nothing else. */
  lemma {:induction false} ProbeAnnouncesRunning(ps: seq<ProbeTarget>)
    ensures |ProbeFanOut(ps)| == CountRunning(ps)
    ensures forall i :: 0 <= i < |ProbeFanOut(ps)| ==>
      var op := ProbeFanOut(ps)[i]; op.Emit? && op.signal.Event? && op.signal.code == EventStart
    decreases |ps|
  {
    if ps != [] {
      ProbeAnnouncesRunning(ps[1..]);
    }
  }

  // ---------------------------------------------------------------------
  // The provider objects

  /** `struct _minicontrol_provider`. */
  class ProviderData {
    var name: string
    var state: State
    var runningSh: Option<SigHandle>
    var eventSh: Option<SigHandle>
    var eventCallback: Option<Callback>

    /** The record as `minicontrol_create_window` and `minicontrol_win_add` first fill it. */
    constructor (name: string)
      ensures this.name == name && state == Ready
      ensures runningSh.None? && eventSh.None? && eventCallback.None?
    {
      this.name := name;
      state := Ready;
      runningSh, eventSh, eventCallback := None, None, None;
    }

    /**
     * The bus subscriptions of window creation: the running-request probe
     * and, when `toProvider`, the to-provider channel, each handled with this
     * record as its data. `runningOk` and `eventOk` say whether each attach succeeds.
     */
    method Subscribe(bus: Bus, runningOk: bool, toProvider: bool, eventOk: bool)
      requires bus.Valid()
      requires runningSh.None? && eventSh.None?
      modifies bus, this`runningSh, this`eventSh
      ensures bus.Valid() && Owns(bus)
      ensures runningSh.Some? == runningOk && eventSh.Some? == (toProvider && eventOk)
      ensures bus.log == old(bus.log) + SubscribeOutput(runningSh) + SubscribeOutput(eventSh)
      ensures bus.subs == WithHandle(WithHandle(old(bus.subs), runningSh), eventSh)
      ensures HandleIds(runningSh) !! old(bus.subs).Keys && HandleIds(eventSh) !! old(bus.subs).Keys
    {
      var running := bus.Attach(Some(SigRunningReq), Some(RunningRequestHandler), this, runningOk);
      var afterRunning := bus.subs;
      var event := None;
      if toProvider {
        event := bus.Attach(Some(SigToProvider), Some(ToProviderHandler), this, eventOk);
      }
      assert running.Some? ==> running.value.id in afterRunning && (event.Some? ==> running.value.id != event.value.id);
      runningSh, eventSh := running, event;
    }

    /** The handles this record holds are live, distinct and its own. */
    ghost predicate Owns(bus: Bus)
      reads this, bus
    {
      && (runningSh.Some? ==>
            bus.Live(runningSh.value) && runningSh.value.signal == SigRunningReq
            && runningSh.value.callback == RunningRequestHandler && runningSh.value.userData == this)
      && (eventSh.Some? ==>
            bus.Live(eventSh.value) && eventSh.value.signal == SigToProvider
            && eventSh.value.callback == ToProviderHandler && eventSh.value.userData == this)
      && (runningSh.Some? && eventSh.Some? ==> runningSh.value.id != eventSh.value.id)
    }
  }

  /** A provider window; `data` is its `MINICTRL_DATA_KEY` entry. */
  class Window {
    var data: ProviderData?

    constructor ()
      ensures data == null
    {
      data := null;
    }
  }

  /** The provider record a public call finds for a window handle: none for a NULL window or a cleared key. */
  function Lookup(win: Window?): ProviderData?
    reads win
  {
    if win == null then null else win.data
  }

  function DataOf(win: Window?): set<ProviderData>
    reads win
  {
    if Lookup(win) == null then {} else {Lookup(win)}
  }

  function SubscribeOutput(h: Option<SigHandle>): seq<BusOp> {
    if h.Some? then [Subscribe(h.value, MatchRule(h.value.signal))] else []
  }

  /** Whether each platform step of window creation succeeds, and each subscription. */
  datatype CreateEnv = CreateEnv(winAdded: bool, nameAllocated: bool, listening: bool, dataAllocated: bool,
                                 runningAttached: bool, eventAttached: bool)

  /** The last result `minicontrol_create_window` sets when it returns NULL, in the order it checks. */
  function CreateWindowError(name: Option<string>, env: CreateEnv): Option<ErrorCode> {
    if name.None? then Some(InvalidParameter)
    else if !env.winAdded then Some(ElmFailure)
    else if CreateName(name, env.nameAllocated).Err? then Some(CreateName(name, env.nameAllocated).error)
    else if !env.listening then Some(ElmFailure)
    else if !env.dataAllocated then Some(OutOfMemory)
    else None
  }

  /**
   * `minicontrol_create_window`: a new READY provider named `[name]` that
   * subscribes to the running-request probe and to the to-provider channel
   * and keeps `callback`. On failure it returns NULL, sets the last result
   * and leaves the bus as it was.
   */
  method CreateWindow(name: Option<string>, targetViewer: int32, callback: Option<Callback>, bus: Bus, env: CreateEnv)
    returns (win: Window?, lastResult: Option<ErrorCode>)
    requires bus.Valid()
    modifies bus
    ensures bus.Valid()
    ensures win == null <==> CreateWindowError(name, env).Some?
    ensures win == null ==> lastResult == CreateWindowError(name, env) && unchanged(bus)
    ensures win != null ==>
      && lastResult.None? && fresh(win) && win.data != null && fresh(win.data)
      && Ok(win.data.name) == CreateName(name, true) && win.data.state == Ready
      && win.data.eventCallback == callback
      && win.data.runningSh.Some? == env.runningAttached && win.data.eventSh.Some? == env.eventAttached
      && win.data.Owns(bus)
      && bus.log == old(bus.log) + SubscribeOutput(win.data.runningSh) + SubscribeOutput(win.data.eventSh)
      && bus.subs == WithHandle(WithHandle(old(bus.subs), win.data.runningSh), win.data.eventSh)
      && HandleIds(win.data.runningSh) !! old(bus.subs).Keys && HandleIds(win.data.eventSh) !! old(bus.subs).Keys
  {
    lastResult := CreateWindowError(name, env);
    if lastResult.Some? {
      return null, lastResult;
    }
    var internalName := CreateName(name, env.nameAllocated).value;
    win := new Window();
    var pd := new ProviderData(internalName);
    win.data := pd;
    pd.Subscribe(bus, env.runningAttached, true, env.eventAttached);
    pd.eventCallback := callback;
  }

  /**
   * Whether `minicontrol_win_add` fails (`Some`) and the last result it then
   * sets: it succeeds exactly when every step does, and only the name
   * allocation sets a last result.
   */
  function WinAddError(name: Option<string>, env: CreateEnv): (r: Option<Option<ErrorCode>>)
    ensures r == Some(Some(OutOfMemory)) <==> name.Some? && env.winAdded && !env.nameAllocated
    ensures r.Some? && r.value.Some? ==> r.value.value == OutOfMemory
    ensures r.None? <==> name.Some? && env.winAdded && env.nameAllocated && env.listening && env.dataAllocated
  {
    if name.None? || !env.winAdded then Some(None)
    else if !env.nameAllocated then Some(Some(OutOfMemory))
    else if !env.listening || !env.dataAllocated then Some(None)
    else None
  }

  /**
   * `minicontrol_win_add`: like `CreateWindow`, but the provider subscribes
   * only to the running-request probe and has no event callback.
   */
  method WinAdd(name: Option<string>, bus: Bus, env: CreateEnv) returns (win: Window?, lastResult: Option<ErrorCode>)
    requires bus.Valid()
    modifies bus
    ensures bus.Valid()
    ensures win == null <==> WinAddError(name, env).Some?
    ensures win == null ==> lastResult == WinAddError(name, env).value && unchanged(bus)
    ensures win != null ==>
      && lastResult.None? && fresh(win) && win.data != null && fresh(win.data)
      && Ok(win.data.name) == CreateName(name, true) && win.data.state == Ready
      && win.data.eventCallback.None? && win.data.eventSh.None?
      && win.data.runningSh.Some? == env.runningAttached
      && win.data.Owns(bus)
      && bus.log == old(bus.log) + SubscribeOutput(win.data.runningSh)
      && bus.subs == WithHandle(old(bus.subs), win.data.runningSh)
      && HandleIds(win.data.runningSh) !! old(bus.subs).Keys
  {
    var failure := WinAddError(name, env);
    if failure.Some? {
      return null, failure.value;
    }
    var internalName := CreateName(name, env.nameAllocated).value;
    win := new Window();
    var pd := new ProviderData(internalName);
    win.data := pd;
    pd.Subscribe(bus, env.runningAttached, false, false);
    lastResult := None;
  }

  /** `minicontrol_send_event`: forwarded to the to-viewer channel only while RUNNING. */
  method SendEvent(win: Window?, bus: Bus, event: int32, arg: Option<Bundle>, link: Link) returns (r: ErrorCode)
    modifies bus`log
    ensures Lookup(win) == null ==> r == InvalidParameter && bus.log == old(bus.log)
    ensures Lookup(win) != null && Lookup(win).state == Ready ==> r == ErrorNone && bus.log == old(bus.log)
    ensures Lookup(win) != null && Lookup(win).state == Running ==>
      && r == SendEventStatus(Some(Lookup(win).name), arg, link)
      && bus.log == old(bus.log) + SendEventOutput(ToViewer, Some(Lookup(win).name), event, arg, link)
  {
    var pd := Lookup(win);
    if pd == null {
      return InvalidParameter;
    }
    r := ErrorNone;
    if pd.state == Running {
      r := bus.SendEvent(ToViewer, Some(pd.name), event, arg, link);
    }
  }

  /** `minicontrol_win_start`, run by the window's show callback. */
  method Start(win: Window?, bus: Bus, w: int32, h: int32, pid: int32, f: Faults) returns (r: ErrorCode)
    modifies bus`log, DataOf(win)`state
    ensures Lookup(win) == null ==> r == InvalidParameter && bus.log == old(bus.log)
    ensures Lookup(win) != null ==>
      var step := StartStep(old(Lookup(win).state), Lookup(win).name, w, h, pid, f);
      Lookup(win).state == step.state && bus.log == old(bus.log) + step.ops && r == step.status
  {
    var pd := Lookup(win);
    if pd == null {
      return InvalidParameter;
    }
    r := ErrorNone;
    if pd.state != Running {
      pd.state := Running;
      var _ := bus.ProcSend(ProcExclude, pid, f.proc);
      r := bus.ProviderMessageSend(EventStart, pd.name, w, h, 0, f.bundleCreated, f.msg);
    }
  }

  /** `minicontrol_win_stop`, run by the window's hide and delete callbacks. */
  method Stop(win: Window?, bus: Bus, pid: int32, f: Faults) returns (r: ErrorCode)
    modifies bus`log, DataOf(win)`state
    ensures Lookup(win) == null ==> r == InvalidParameter && bus.log == old(bus.log)
    ensures Lookup(win) != null ==>
      var step := StopStep(old(Lookup(win).state), Lookup(win).name, pid, f);
      Lookup(win).state == step.state && bus.log == old(bus.log) + step.ops && r == step.status
  {
    var pd := Lookup(win);
    if pd == null {
      return InvalidParameter;
    }
    r := ErrorNone;
    if pd.state != Ready {
      pd.state := Ready;
      var _ := bus.ProcSend(ProcInclude, pid, f.proc);
      r := bus.ProviderMessageSend(EventStop, pd.name, 0, 0, 0, f.bundleCreated, f.msg);
    }
  }

  /** `_minictrl_win_resize_cb`; `pd` is the callback's data. */
  method OnResize(pd: ProviderData?, bus: Bus, w: int32, h: int32, f: Faults)
    modifies bus`log
    ensures pd == null ==> bus.log == old(bus.log)
    ensures pd != null ==> bus.log == old(bus.log) + ResizeOutput(pd.state, pd.name, w, h, f)
  {
    if pd == null {
      return;
    }
    if pd.state == Running {
      var _ := bus.ProviderMessageSend(EventResize, pd.name, w, h, 0, f.bundleCreated, f.msg);
    }
  }

  /** `_running_req_cb`: the answer to the running-request probe; `pd` is the handler's data. */
  method OnRunningRequest(pd: ProviderData?, bus: Bus, w: int32, h: int32, f: Faults)
    modifies bus`log
    ensures pd == null ==> bus.log == old(bus.log)
    ensures pd != null ==> bus.log == old(bus.log) + ProbeOutput(pd.state, pd.name, w, h, f)
  {
    if pd == null {
      return;
    }
    if pd.state == Running {
      var _ := bus.ProviderMessageSend(EventStart, pd.name, w, h, 0, f.bundleCreated, f.msg);
    }
  }

  /** An invocation of a provider's `minicontrol_event_cb`. */
  datatype ProviderCall = ProviderCall(callback: Callback, event: int32, arg: Option<Bundle>)

  /**
   * `_sig_to_provider_handler_cb`: `args` is what reading the message's
   * arguments gave (`None` when that failed) and `decoded` what decoding
   * its bundle gave. An event for another name has no effect. For this
   * provider, SHOW first emits RESIZE with the current geometry (in either
   * state), then the callback, if any, gets the event and the decoded
   * bundle, which may be absent.
   */
  method OnToProvider(pd: ProviderData?, bus: Bus, args: Option<EventArgs>, decoded: Option<Bundle>,
                      w: int32, h: int32, f: Faults) returns (call: Option<ProviderCall>)
    modifies bus`log
    ensures pd == null || !Accepts(pd.name, args) ==> call.None? && bus.log == old(bus.log)
    ensures pd != null && Accepts(pd.name, args) ==>
      && bus.log == old(bus.log) +
           (if args.value.event == ViewerEventShow
            then ProviderMessageOutput(EventResize, pd.name, w, h, 0, f.bundleCreated, f.msg) else [])
      && call == (if pd.eventCallback.Some? then Some(ProviderCall(pd.eventCallback.value, args.value.event, decoded)) else None)
  {
    call := None;
    if pd == null || args.None? {
      return;
    }
    if args.value.name == pd.name {
      if args.value.event == ViewerEventShow {
        var _ := bus.ProviderMessageSend(EventResize, pd.name, w, h, 0, f.bundleCreated, f.msg);
      }
      if pd.eventCallback.Some? {
        call := Some(ProviderCall(pd.eventCallback.value, args.value.event, decoded));
      }
    }
  }

  /**
   * `_minictrl_win_del_cb`: stop first (so STOP goes out only if the
   * provider was RUNNING), then release each subscription it holds, then
   * clear the window's data key.
   */
  method OnDelete(win: Window, bus: Bus, pid: int32, f: Faults)
    requires bus.Valid()
    requires win.data != null ==> win.data.Owns(bus)
    modifies win, bus`log, bus`subs, DataOf(win)`state
    ensures bus.Valid()
    ensures win.data == null
    ensures old(win.data) == null ==> bus.log == old(bus.log) && bus.subs == old(bus.subs)
    ensures old(win.data) != null ==>
      var pd := old(win.data);
      && pd.state == Ready
      && bus.log == old(bus.log) + StopStep(old(pd.state), pd.name, pid, f).ops
                    + DetachOutput(pd.runningSh) + DetachOutput(pd.eventSh)
      && bus.subs == old(bus.subs) - HandleIds(pd.runningSh) - HandleIds(pd.eventSh)
  {
    var _ := Stop(win, bus, pid, f);
    var pd := win.data;
    if pd != null {
      bus.Detach(pd.runningSh);
      bus.Detach(pd.eventSh);
    }
    win.data := null;
  }

  /**
   * `minicontrol_request`: while RUNNING, a supported request goes to the
   * viewers as its event with no bundle (the send result is not
   * reported) and an unsupported one returns NOT_SUPPORTED; while READY,
   * every request, supported or not, returns NONE and sends nothing.
   */
  method Request(win: Window?, bus: Bus, request: int32, link: Link) returns (r: ErrorCode)
    modifies bus`log
    ensures Lookup(win) == null ==> r == InvalidParameter && bus.log == old(bus.log)
    ensures Lookup(win) != null && Lookup(win).state == Ready ==> r == ErrorNone && bus.log == old(bus.log)
    ensures Lookup(win) != null && Lookup(win).state == Running && RequestEvent(request).None? ==>
      r == NotSupported && bus.log == old(bus.log)
    ensures Lookup(win) != null && Lookup(win).state == Running && RequestEvent(request).Some? ==>
      && r == ErrorNone
      && bus.log == old(bus.log) + SendEventOutput(ToViewer, Some(Lookup(win).name), RequestEvent(request).value, None, link)
  {
    var pd := Lookup(win);
    if pd == null {
      return InvalidParameter;
    }
    r := ErrorNone;
    if pd.state == Running {
      var event := RequestEvent(request);
      if event.None? {
        return NotSupported;
      }
      var _ := bus.SendEvent(ToViewer, Some(pd.name), event.value, None, link);
    }
  }

  /**
   * A RUNNING provider that is destroyed emits INCLUDE and STOP, then
   * releases its subscriptions; afterwards the window no longer accepts
   * send or request calls.
   */
  method DeleteThenSend(win: Window, bus: Bus, pid: int32) returns (sent: ErrorCode, requested: ErrorCode)
    requires bus.Valid() && win.data != null && win.data.Owns(bus) && win.data.state == Running
    modifies win, bus`log, bus`subs, DataOf(win)`state
    ensures sent == InvalidParameter && requested == InvalidParameter
    ensures |bus.log| >= |old(bus.log)| + 2 && bus.log[|old(bus.log)|..|old(bus.log)| + 2]
            == [Emit(ProcNotice(ProcArgs(ProcDbusInclude, pid))), Emit(LifecycleSignal(EventStop, old(win.data.name), 0, 0))]
    ensures bus.subs == old(bus.subs) - HandleIds(old(win.data.runningSh)) - HandleIds(old(win.data.eventSh))
  {
    OnDelete(win, bus, pid, NoFaults);
    sent := SendEvent(win, bus, EventRequestHide, None, Reliable);
    requested := Request(win, bus, ReqHideViewer, Reliable);
  }
}
