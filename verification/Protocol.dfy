/**
 Names shared by every layer: CRUMBS frames, opcodes, session error codes, call results
 and the argument values of a device function.

 The opcodes, type ids and version numbers come from headers outside the repository. Only
 SET_REPLY, CLEAR_WATCHDOG_TRIP, the version opcode and the mode bytes are visible in it;
 the others are stand-ins of which the proofs use nothing but that they differ.
 */
module Protocol {
  import opened Bytes

  datatype DeviceType = Rlht | Dcmt

  datatype Frame = Frame(typeId: byte, opcode: byte, payload: seq<byte>)

  const MAX_PAYLOAD: nat := 27
  const MIN_ADDRESS: byte := 0x08
  const MAX_ADDRESS: byte := 0x77

  const RLHT_TYPE_ID: byte := 0x01
  const DCMT_TYPE_ID: byte := 0x02

  const OP_GET_VERSION: byte := 0x00
  const OP_SET_REPLY: byte := 0xFE
  const OP_GET_ACK: byte := 0xFD
  const OP_SET_WATCHDOG: byte := 0x7A
  const OP_GET_WATCHDOG: byte := 0x7B
  const OP_CLEAR_WATCHDOG_TRIP: byte := 0x7C
  const OP_GET_CAPS: byte := 0x7F

  const RLHT_OP_SET_MODE: byte := 0x11
  const RLHT_OP_SET_SETPOINTS: byte := 0x12
  const RLHT_OP_SET_PID: byte := 0x13
  const RLHT_OP_SET_PERIODS: byte := 0x14
  const RLHT_OP_SET_TC_SELECT: byte := 0x15
  const RLHT_OP_SET_OPEN_DUTY: byte := 0x16
  const RLHT_OP_GET_STATE: byte := 0x80
  const RLHT_MODE_CLOSED_LOOP: byte := 0
  const RLHT_MODE_OPEN_LOOP: byte := 1

  const DCMT_OP_SET_OPEN_LOOP: byte := 0x21
  const DCMT_OP_SET_BRAKE: byte := 0x22
  const DCMT_OP_SET_MODE: byte := 0x23
  const DCMT_OP_SET_SETPOINT: byte := 0x24
  const DCMT_OP_SET_PID: byte := 0x25
  const DCMT_OP_GET_STATE: byte := 0x81
  const DCMT_MODE_OPEN_LOOP: byte := 0
  const DCMT_MODE_CLOSED_POSITION: byte := 1
  const DCMT_MODE_CLOSED_SPEED: byte := 2

  const INVALID_I16: int16 := -32768

  function TypeId(t: DeviceType): byte {
    match t
    case Rlht => RLHT_TYPE_ID
    case Dcmt => DCMT_TYPE_ID
  }

  /** The type a probed type id names, if the provider supports it. */
  function ParseType(id: byte): Option<DeviceType> {
    if id == RLHT_TYPE_ID then Some(Rlht) else if id == DCMT_TYPE_ID then Some(Dcmt) else None
  }

  /** A frame the device counts for GET_ACK: anything but a SET_REPLY that names a reply. */
  predicate IsCommand(f: Frame) {
    !(f.opcode == OP_SET_REPLY && |f.payload| >= 1)
  }

  datatype SessionCode =
    | CodeOk | InvalidArgument | NotOpen | AlreadyOpen | OpenFailed | ScanFailed
    | WriteFailed | ReadFailed | Timeout | DecodeFailed | TransportError

  const ETIMEDOUT: int := 110

  datatype SessionStatus = SessionStatus(code: SessionCode, native: int, attempts: nat) {
    predicate Ok() { code.CodeOk? }
  }

  /** The ADPP status codes the adapters answer with. */
  datatype AdppCode =
    | AdppOk | AdppInvalidArgument | AdppOutOfRange | AdppNotFound | AdppUnavailable
    | AdppFailedPrecondition | AdppUnimplemented | AdppInternal | AdppDeadlineExceeded

  /** What the message of a call result says, without its wording. */
  datatype Note =
    | Applied | AppliedUnconfirmed | WriteError | NotSent | AckLost
    | RefusedFor(reason: byte) | RejectedFor(reason: byte)
    | NotCounted | CountedAnother | CannotSay
    | BadArguments | UnknownFunction | UnknownDevice | NoSession
    | BrakeEngaged(motor: nat) | NeedsEncoders

  datatype CallResult = CallResult(ok: bool, code: AdppCode, note: Note)

  datatype Value =
    | BoolV(b: bool) | IntV(i: int) | UintV(u: nat) | RealV(r: real) | StringV(s: string)

  type Args = map<string, Value>
}
