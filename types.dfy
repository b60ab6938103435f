/**
 * Values shared by every part of the minicontrol model: the C integer
 * widths that matter, the library's error codes and enum constants, the
 * abstract bundle, the bus signals and the bus-side effects that the
 * operations record.
 */
module Types {

  /** A C `int` (32 bits, two's complement). */
  newtype int32 = x: int | -0x8000_0000 <= x < 0x8000_0000

  /** A C `unsigned int`. */
  newtype uint32 = x: int | 0 <= x < 0x1_0000_0000

  /** The value an `int` argument takes when it is passed to an `unsigned int` parameter. */
  function AsUnsigned(x: int32): (u: uint32)
    ensures (u as int - x as int) % 0x1_0000_0000 == 0
    ensures x >= 0 <==> u as int == x as int
  {
    if x < 0 then (x as int + 0x1_0000_0000) as uint32 else x as int as uint32
  }

  datatype Option<T> = None | Some(value: T)

  /** `minicontrol_error_e`; the numeric values come from a platform header that is not part of this model. */
  datatype ErrorCode =
    | ErrorNone
    | InvalidParameter
    | OutOfMemory
    | PermissionDenied
    | IpcFailure
    | NotSupported
    | ElmFailure
    | Unknown

  datatype Result<T> = Ok(value: T) | Err(error: ErrorCode)

  // minicontrol_event_e
  const EventStart: int32 := 0
  const EventStop: int32 := 1
  const EventResize: int32 := 2
  const EventRequestHide: int32 := 100
  const EventRequestAngle: int32 := 103
  const EventReportAngle: int32 := 200

  // minicontrol_viewer_event_e
  const ViewerEventShow: int32 := 201
  const ViewerEventHide: int32 := 202

  // minicontrol_request_e
  const ReqNone: int32 := 0
  const ReqHideViewer: int32 := 100
  const ReqFreezeScrollViewer: int32 := 101
  const ReqUnfreezeScrollViewer: int32 := 102
  const ReqReportViewerAngle: int32 := 103
  const ReqRotateProvider: int32 := 200

  // minicontrol_action_e
  const ActionStart: int32 := 0
  const ActionStop: int32 := 1
  const ActionResize: int32 := 2
  const ActionRequest: int32 := 3

  // enum _minictrl_PROC_DBUS_TYPE
  const ProcExclude: int32 := 0
  const ProcInclude: int32 := 1

  /** `minicontrol_priority_e`. */
  datatype Priority = Top | Middle | Low {
    function Code(): int32 {
      match this
      case Top => 1000
      case Middle => 100
      case Low => 1
    }
  }

  /**
   * The identity of a function pointer handed to the library: its own
   * bus handlers, or one supplied by the application.
   */
  datatype Callback =
    | RunningRequestHandler
    | ToProviderHandler
    | ToViewerHandler
    | MonitorViewerHandler
    | Client(id: nat)

  /** An opaque `void *user_data`. */
  type UserData = object?

  /** A bundle value: a string, or the four raw bytes of a C `int`. */
  datatype Value = Str(s: string) | Int32Bytes(v: int32)

  /** A bundle, abstractly: keys are unique, order is immaterial. */
  type Bundle = map<string, Value>

  /**
   * How one bus interaction goes: whether the connection is obtained,
   * the message is created, the bundle is encoded, the arguments are
   * appended and the message is sent. Steps that an interaction does not
   * perform ignore their field.
   */
  datatype Link = Link(connected: bool, created: bool, encoded: bool, appended: bool, sent: bool)

  const Reliable := Link(true, true, true, true, true)

  /** The two routed channels, `minicontrol_signal_to_provider` and `minicontrol_signal_to_viewer`. */
  datatype Channel = ToProvider | ToViewer

  /** The serialized-bundle argument of an event signal: the empty string (length 0) or an encoded bundle. */
  datatype Payload = Empty | Encoded(bundle: Bundle)

  /** The arguments of the process-manager notice, `(type, pid)`, or none when appending them failed. */
  datatype ProcArgs = ProcArgs(kind: string, pid: int32) | NoArgs

  /** A signal as it leaves the process. */
  datatype Signal =
    | Event(channel: Channel, target: string, code: int32, payload: Payload)
    | RunningRequest
    | ProcNotice(args: ProcArgs)

  /** `minictrl_sig_handle`: one bus subscription, identified by `id`. */
  datatype SigHandle = SigHandle(id: nat, signal: string, callback: Callback, userData: UserData)

  /** What the process does to the bus, in order. */
  datatype BusOp =
    | Emit(signal: Signal)
    | Subscribe(handle: SigHandle, rule: string)
    | Unsubscribe(handle: SigHandle, rule: string)

  /** The arguments `(name, event, serialized bundle, length)` read from an inbound event signal. */
  datatype EventArgs = EventArgs(name: string, event: int32, length: uint32)
}
