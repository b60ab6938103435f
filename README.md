# minicontrol in Dafny

minicontrol lets a *provider* process (a small remote-controllable window,
e.g. a music-player widget) announce itself to *viewer* processes (a
notification panel, a lock screen) over a system message bus, and lets the
viewer send control requests back. Every signal carries the provider's
routing name, an event code and an optional key/value bundle.

This project models the core of the library in Dafny:

- `types.dfy` (`Types`): C integer widths, error codes, the event, request,
  action and priority constants, bundles (a finite map), bus signals and the
  record of bus operations.
- `format.dfy` (`Format`): the two `snprintf` behaviours the library relies
  on, copying into a fixed buffer (truncation) and `%d`. It also holds a
  decimal reader as the partner of `%d`.
- `internal.dfy` (`Internal`, src/minicontrol-internal.c):
  - the match-rule text and the connection filter's decision;
  - the process-manager notice;
  - `_minictrl_send_event` with its error chain;
  - the lifecycle bundle;
  - attach/detach.

  The bus is a `Bus` object. Its `log` records, in order, every signal the
  process emits and every subscription it adds or removes. Its `subs`
  holds the live subscriptions.
- `provider.dfy` (`Provider`, src/minicontrol-provider.c):
  - a `Window` whose data key holds a `ProviderData`, the `[name]` routing
    name and the READY/RUNNING state;
  - the start/stop/resize/probe transitions (as functions of the state, and
    as methods that update the record and the bus);
  - the to-provider handler with its exact-name filter;
  - send, request and delete.
- `viewer.dfy` (`Viewer`, src/minicontrol-viewer.c):
  - the process-wide registry, which holds at most one callback and one
    to-viewer subscription;
  - set/unset with replacement in place;
  - decode-or-drop dispatch;
  - the viewer's send and rotate request.
- `monitor.dfy` (`Monitor`, src/minicontrol-monitor.c): the legacy monitor
  singleton layered on the viewer registry, with the event-to-action and
  integer-to-priority mappings and the field extraction.

Some effects are outside the model, so they become parameters:

- Whether a connection, message, encoding, append or send succeeds is a
  `Link` record.
- Each allocation's success is a boolean.
- The result of decoding a received bundle is an `Option<Bundle>`.
- Window geometry and the process id are plain inputs.

Callbacks are opaque `Callback` values. Handlers return the callback
invocation they make, as a value.

### Behaviour worth knowing

- **READY providers can emit RESIZE.** `_sig_to_provider_handler_cb` emits
  RESIZE on a viewer SHOW event whatever the provider's state
  (src/minicontrol-provider.c:123-128), and `Provider.OnToProvider` models
  that. The gating stated by `Provider.RunAnnounces` covers the window's own
  show/hide/resize/probe events only.
- **`_minictrl_provider_proc_send` does not return an error code.** It
  returns:
  - -1 for an unsupported type or a message that cannot be created;
  - `IPC_FAILURE` when there is no connection;
  - otherwise the boolean that appending the arguments returned.

  It sends even when appending failed (`Internal.ProcReturn`,
  `Internal.ProcOutput`).
- **`minicontrol_monitor_start` broadcasts the running-request probe
  twice.** One broadcast comes from the nested
  `minicontrol_viewer_set_event_cb` and one from itself
  (`Monitor.StartTwice`).
- **The filter does not check the object path.** The installed match rule
  does (`Internal.FilterAgreesWithRule`).
- **Providers send priority 0,** which is none of the priority codes. The
  monitor therefore reports LOW (`Monitor.LifecycleFields`).

## Model

| member | source | states |
|---|---|---|
| Types.AsUnsigned | src/minicontrol-monitor.c:85-95 | an `int` passed as `unsigned int` is congruent to it modulo 2^32, and equal to it exactly when it is non-negative |
| Format.Truncate | src/minicontrol-internal.c:227-239 | the buffer copy keeps at most n characters, a prefix of the input, and the whole input when it fits |
| Format.NatToDecimal | src/minicontrol-viewer.c:248 | `%d` of a natural number is a non-empty digit string without a leading zero |
| Format.IntToDecimal | src/minicontrol-viewer.c:248 | `%d` of an int is non-empty and starts with `-` exactly for negative values |
| Format.DecimalRoundTrip | src/minicontrol-viewer.c:248 | reading back the decimal text of any integer gives the integer |
| Format.Int32DecimalFits | src/minicontrol-viewer.c:230-250 | any C `int` prints in at most 11 characters, so the 100-byte buffer never truncates it |
| Internal.ChannelSignal | src/minicontrol-internal.c:141-164 | each routed channel has its own bus member name (to-provider and to-viewer, in both directions) |
| Internal.MatchRule | src/minicontrol-internal.c:320-324 | the rule fits its 1024-byte buffer and, when it fits untruncated, is the fixed prefix, the signal and a closing quote |
| Internal.MatchRuleRoundTrip | src/minicontrol-internal.c:320-324 | the member named by the rule for a signal that fits is exactly that signal |
| Internal.LibrarySignalsFitRule | src/minicontrol-internal.c:294-324 | the three signal names the library subscribes to all fit the rule buffer |
| Internal.SignalFilter | src/minicontrol-internal.c:253-284 | handled, with the handle's callback and data, iff the handle exists, the interface is the minicontrol interface and the message is a signal whose member is the handle's signal |
| Internal.FilterAgreesWithRule | src/minicontrol-internal.c:253-326 | on the minicontrol path the filter handles exactly what the installed match rule selects |
| Internal.ProcTypeName | src/minicontrol-internal.c:89-104 | EXCLUDE gives "exclude", INCLUDE gives "include", any other type gives nothing, each both ways |
| Internal.ProcOutput | src/minicontrol-internal.c:89-139 | at most one notice is emitted, and only on the path where the append result is returned |
| Internal.SendEventOutput | src/minicontrol-internal.c:141-220 | exactly one event signal `(channel, name, event, payload)` is emitted iff the send returns NONE |
| Internal.ProviderBundle | src/minicontrol-internal.c:223-243 | the lifecycle bundle has exactly the keys minicontrol_name, width, height and priority; the name is the routing name cut to 99 characters, and width, height and priority are stored as int bytes |
| Internal.RunningRequestOutput | src/minicontrol-internal.c:43-87 | the probe is emitted iff the broadcast returns NONE |
| Internal.DetachOutput | src/minicontrol-internal.c:364-396 | detaching a handle records one removal, a NULL handle none |
| Internal.Bus.ViewerReqMessageSend | src/minicontrol-internal.c:43-87 | returns IPC_FAILURE or OUT_OF_MEMORY per failing step, NONE otherwise, and appends the probe exactly on NONE |
| Internal.Bus.ProcSend | src/minicontrol-internal.c:89-139 | an unsupported type returns -1 and sends nothing; otherwise the return and the emitted notice follow the proc-send status |
| Internal.Bus.SendEvent | src/minicontrol-internal.c:141-220 | a NULL name returns INVALID_PARAMETER before any bus access; the error chain is IPC, OOM (message, encode, append), IPC (send); a NULL bundle is sent as an empty payload |
| Internal.Bus.ProviderMessageSend | src/minicontrol-internal.c:223-251 | OUT_OF_MEMORY only if the bundle cannot be created; otherwise NONE whatever the send does, having sent the lifecycle bundle on to-viewer |
| Internal.Bus.Attach | src/minicontrol-internal.c:287-362 | a NULL signal or callback, or any failing step, returns NULL and changes nothing; success adds exactly one fresh live subscription and records its exact match rule |
| Internal.Bus.Detach | src/minicontrol-internal.c:364-396 | a NULL handle changes nothing; otherwise exactly that subscription is removed and its rule recorded |
| Provider.CreateName | src/minicontrol-provider.c:141-163 | NULL gives INVALID_PARAMETER, an allocation failure OUT_OF_MEMORY, otherwise the name between `[` and `]` |
| Provider.CreateNameInjective | src/minicontrol-provider.c:141-163 | distinct names give distinct routing names |
| Provider.RequestEvent | src/minicontrol-provider.c:492-514 | HIDE_VIEWER gives 100, REPORT_VIEWER_ANGLE gives 103, FREEZE/UNFREEZE/ROTATE pass through; a request is forwarded iff it is one of these five |
| Provider.RoutingByName | src/minicontrol-provider.c:119-120 | a provider created from `b` accepts an event addressed to the provider created from `a` iff `a == b` |
| Provider.StartStep | src/minicontrol-provider.c:289-321 | the state ends RUNNING; from RUNNING nothing is emitted and NONE returned; from READY, EXCLUDE and then START with the geometry and priority 0 |
| Provider.StopStep | src/minicontrol-provider.c:323-350 | the state ends READY; from READY nothing is emitted; from RUNNING, INCLUDE and then STOP with zero geometry |
| Provider.ResizeOutput | src/minicontrol-provider.c:376-394 | RESIZE with the new geometry only while RUNNING, nothing while READY |
| Provider.ProbeOutput | src/minicontrol-provider.c:66-82 | a RUNNING provider answers the probe with START, a READY one stays silent |
| Provider.RunAnnounces | src/minicontrol-provider.c:289-394 | over any sequence of show/hide/resize/probe events, READY emits only EXCLUDE+START, RUNNING emits only RESIZE, START or INCLUDE+STOP(0,0), so there is one STOP per RUNNING to READY transition |
| Provider.ProbeAnnouncesRunning | src/minicontrol-provider.c:66-82 | a probe reaching N RUNNING and M READY providers yields exactly N signals, all START |
| Provider.ProviderData.constructor | src/minicontrol-provider.c:239-242 | a new record is READY with the routing name and no handles or callback |
| Provider.ProviderData.Subscribe | src/minicontrol-provider.c:253-254 | subscribes to the probe and optionally the to-provider channel with the record as data; the handles are live, distinct and fresh |
| Provider.WinAddError | src/minicontrol-provider.c:396-445 | win_add succeeds exactly when the name is given and window creation, name allocation, socket listening and record allocation all succeed; when it fails, the only last result it sets is OUT_OF_MEMORY, and exactly when the name allocation fails |
| Provider.CreateWindow | src/minicontrol-provider.c:182-259 | NULL with the last result of the first failing step and no bus change, else a READY provider holding both subscriptions and the callback |
| Provider.WinAdd | src/minicontrol-provider.c:396-468 | like create_window, but only the probe subscription and no callback |
| Provider.SendEvent | src/minicontrol-provider.c:261-287 | INVALID_PARAMETER without a provider; NONE and nothing sent while READY; the send's result while RUNNING |
| Provider.Start | src/minicontrol-provider.c:289-321 | the record and the bus change exactly as StartStep says (the show callback calls this) |
| Provider.Stop | src/minicontrol-provider.c:323-350 | the record and the bus change exactly as StopStep says (the hide callback calls this) |
| Provider.OnResize | src/minicontrol-provider.c:376-394 | the bus changes as ResizeOutput says, the state does not |
| Provider.OnRunningRequest | src/minicontrol-provider.c:66-82 | the bus changes as ProbeOutput says, the state does not |
| Provider.OnToProvider | src/minicontrol-provider.c:84-137 | a mismatched name or unreadable arguments have no effect; for this provider SHOW emits RESIZE first, then the callback, if any, gets the event and the possibly absent bundle |
| Provider.OnDelete | src/minicontrol-provider.c:352-362 | STOP goes out iff the provider was RUNNING, then each held handle is detached once, then the data key is cleared |
| Provider.Request | src/minicontrol-provider.c:470-520 | INVALID_PARAMETER without a provider; NONE and nothing sent while READY; while RUNNING, NOT_SUPPORTED for unmapped requests, else the mapped event with no bundle and NONE |
| Provider.DeleteThenSend | src/minicontrol-provider.c:352-362 | deleting a RUNNING provider emits INCLUDE then STOP(0,0), releases its subscriptions, and later send and request return INVALID_PARAMETER |
| Viewer.SetStep | src/minicontrol-viewer.c:93-128 | a NULL callback changes nothing; re-registration replaces callback and data in place without a subscription; a first registration adds exactly one; failures leave none behind, with IPC_FAILURE or OUT_OF_MEMORY |
| Viewer.ReRegistrationKeepsSubscription | src/minicontrol-viewer.c:102-127 | two registrations leave the first subscription holding the second callback |
| Viewer.Registry.constructor | src/minicontrol-viewer.c:34 | the registry starts empty |
| Viewer.Registry.SetEventCb | src/minicontrol-viewer.c:93-128 | the registry and bus change exactly as SetStep says |
| Viewer.Registry.UnsetEventCb | src/minicontrol-viewer.c:130-142 | NONE always; an empty registry changes nothing; otherwise exactly one subscription is released and the registry emptied |
| Viewer.Dispatch | src/minicontrol-viewer.c:51-90 | no name filter; the callback runs iff the arguments were read and the length is 0 or the bundle decoded; length 0 means no bundle |
| Viewer.DispatchDelivers | src/minicontrol-viewer.c:51-90 | every event signal reaches the callback with its name, event and bundle unchanged, when decoding returns the bundle that was encoded |
| Viewer.SendEvent | src/minicontrol-viewer.c:36-48 | a NULL name returns INVALID_PARAMETER and sends nothing; otherwise the to-provider send's result |
| Viewer.AngleBundle | src/minicontrol-viewer.c:240-250 | the rotate bundle has exactly the key "angle", a string |
| Viewer.AngleRoundTrip | src/minicontrol-viewer.c:248-250 | the angle read back from the bundle is the one sent |
| Viewer.ViewerRequestEvent | src/minicontrol-viewer.c:237-261 | only ROTATE_PROVIDER is forwarded, as REPORT_ANGLE |
| Viewer.Request | src/minicontrol-viewer.c:225-270 | NULL name or any other request gives INVALID_PARAMETER and no send; a bundle failure gives OUT_OF_MEMORY; otherwise REPORT_ANGLE with the angle bundle and NONE |
| Viewer.RegisterTwiceUnsetTwice | src/minicontrol-viewer.c:93-142 | register, re-register, unset and unset again leave no subscription behind and both registrations return NONE |
| Monitor.IntToPriority | src/minicontrol-monitor.c:34-50 | 1000 gives TOP, 100 gives MIDDLE, every other value LOW, each both ways |
| Monitor.PriorityCodeRoundTrip | src/minicontrol-monitor.c:34-50 | every priority survives its code being read back |
| Monitor.EventToAction | src/minicontrol-monitor.c:61-83 | REQUEST_HIDE and REQUEST_ANGLE give REQUEST; every other code passes through; REQUEST results exactly from those two and from code 3 |
| Monitor.ByteField | src/minicontrol-monitor.c:86-88 | the stored integer under the key, or 0 when there is no bundle, no key or no integer |
| Monitor.ExtractFields | src/minicontrol-monitor.c:85-93 | actions other than START/RESIZE/REQUEST, and a missing bundle, give zero geometry and LOW |
| Monitor.LifecycleFields | src/minicontrol-monitor.c:85-93 | a provider's lifecycle bundle yields its own geometry (zero for STOP) and LOW |
| Monitor.Forward | src/minicontrol-monitor.c:52-96 | the monitor callback gets its data, the name and the mapped action, with zero geometry and LOW for actions without geometry |
| Monitor.LifecycleReachesMonitor | src/minicontrol-monitor.c:52-96 | a provider START, STOP or RESIZE passed through viewer dispatch reaches the monitor as that action with the provider's geometry (zero for STOP) and LOW, when decoding returns the bundle that was encoded |
| Monitor.Monitor.constructor | src/minicontrol-monitor.c:32 | the monitor starts stopped |
| Monitor.Monitor.Start | src/minicontrol-monitor.c:98-122 | NULL callback gives INVALID_PARAMETER, a started monitor UNKNOWN, an allocation failure OUT_OF_MEMORY, all with no change; otherwise the viewer registration, the stored callback and a second probe whose result is returned |
| Monitor.Monitor.Stop | src/minicontrol-monitor.c:124-135 | NONE always and idempotent; when started it unsets the viewer registration |
| Monitor.StartTwice | src/minicontrol-monitor.c:98-122 | a first start subscribes once and broadcasts twice; a second start returns UNKNOWN and changes nothing |

## Left out

- Window creation (`elm_win_add`) and socket listening
  (`elm_win_socket_listen`) are success flags, and the window geometry is an
  input. These are GUI-toolkit plumbing.
- The window's `_access_changed_cb` (src/minicontrol-provider.c:165-179) is
  not modelled; both of its branches are empty.
- `minicontrol_viewer_add`, `minicontrol_viewer_image_object_get` and the
  plug delete callbacks `_minictrl_plug_server_del` and `_minictrl_plug_del`
  (src/minicontrol-viewer.c:144-223) are not modelled. They work on plug
  objects, which the model has no counterpart for. This leaves
  out one piece of traffic: when a plug's server goes away,
  `_minictrl_plug_server_del` sends STOP with priority LOW for the plug's
  name and then an INCLUDE notice (src/minicontrol-viewer.c:160-161).
- D-Bus connection handling is reduced to the `Link` flags, the record of
  bus operations and the live-subscription table. This covers private
  connections, main-loop setup, flush and filter registration. It is
  transport plumbing.
- Bundle encoding and decoding belong to a foreign library. A bundle is a
  map, decode results are inputs, and the encoded length only matters as
  zero or non-zero.
- The process manager's object path and interface are not represented. A
  notice carries only `(type, pid)`, or no arguments when appending them
  failed.
- `getpid` is a parameter. `set_last_result` is returned as a value. The
  logging macros are dropped.
- `target_viewer` of `minicontrol_create_window` is accepted and ignored,
  as the source ignores it.
- The `!pd->name` checks and the `event_sh` check in
  `minicontrol_viewer_unset_event_cb` (src/minicontrol-viewer.c:135) are not
  modelled: a stored name and a stored subscription are never NULL here.
- Frees of names, bundles and handles are not modelled, beyond the handle
  leaving the subscription table.
- Concurrency and dispatch re-entrancy are not modelled; the library
  assumes one main loop.
- The deprecated per-action legacy signals are not modelled; the core does
  not emit them.
- Provider.RunAnnounces: states the traffic shape only when every bus
  interaction succeeds. With failures some notices or signals are simply
  missing; `Provider.StartStep` and `Provider.StopStep` state what happens
  then.
- Monitor.ByteField: gives the value the handler evidently means to read.
  The source passes `(void*)&width` where the bundle API expects a pointer
  to a pointer, and the bundle API is not part of this model.
- Monitor.Monitor.Start: the nested viewer registration's result is
  ignored, as in the source, so a monitor can be started while the viewer
  registration failed.
- Format.Truncate: counts `char`s, each standing for one byte of a C string
  without NUL. A name with multi-byte UTF-8 characters is cut at 99 bytes in
  the source, possibly inside a character; the model would keep more of it.
  Strings are not modelled as byte sequences, and a name containing `'\0'`,
  which a C string cannot hold, is not excluded.
- Internal.ProviderBundle: the minicontrol_name value is cut with
  `Format.Truncate`, so it has the same one-`char`-per-byte reading.
- Internal.MatchRule: the 1024-byte rule buffer is counted in `char`s in the
  same way.
