/** DCMT: motor commands encoded and gated, motor state decoded. */
module DcmtAdapter {
  import opened Bytes
  import opened Protocol
  import opened CannedDevice
  import opened SessionModel
  import opened Capabilities
  import opened Footprint
  import opened SetConfirm
  import opened AdapterHelpers

  const PID_LOOP_POSITION: byte := 0
  const PID_LOOP_SPEED: byte := 1

  function Dcmt(opcode: byte, payload: seq<byte>): Encoding {
    Encoded(Frame(DCMT_TYPE_ID, opcode, payload))
  }

  function EncodePair(args: Args, key1: string, key2: string, lo: int16, hi: int16, opcode: byte): Encoding {
    match (GetInt(args, key1), GetInt(args, key2))
    case (Some(m1), Some(m2)) =>
      if m1 < lo || m1 > hi || m2 < lo || m2 > hi then OUT_OF_RANGE else Dcmt(opcode, I16Le(m1) + I16Le(m2))
    case _ => MISSING
  }

  function EncodeBrake(args: Args): Encoding {
    match (GetBool(args, "motor1_brake"), GetBool(args, "motor2_brake"))
    case (Some(b1), Some(b2)) => Dcmt(DCMT_OP_SET_BRAKE, [if b1 then 1 else 0, if b2 then 1 else 0])
    case _ => MISSING
  }

  function EncodeMode(args: Args): Encoding {
    match GetString(args, "mode")
    case None => MISSING
    case Some(mode) =>
      if mode == "open_loop" then Dcmt(DCMT_OP_SET_MODE, [DCMT_MODE_OPEN_LOOP])
      else if mode == "closed_position" then Dcmt(DCMT_OP_SET_MODE, [DCMT_MODE_CLOSED_POSITION])
      else if mode == "closed_speed" then Dcmt(DCMT_OP_SET_MODE, [DCMT_MODE_CLOSED_SPEED])
      else MISSING
  }

  function Gain(args: Args, i: nat): seq<byte>
    requires i < 6 && AllUints(args, DCMT_GAINS) && AllAtMost(args, DCMT_GAINS, 65535)
  {
    U16Le(GetUint(args, DCMT_GAINS[i]).value)
  }

  function EncodePid(args: Args, loop: byte): Encoding {
    if !AllUints(args, DCMT_GAINS) then MISSING
    else if !AllAtMost(args, DCMT_GAINS, 65535) then OUT_OF_RANGE
    else Dcmt(DCMT_OP_SET_PID, [loop] + Gain(args, 0) + Gain(args, 1) + Gain(args, 2)
                               + Gain(args, 3) + Gain(args, 4) + Gain(args, 5))
  }

  /** `build_frame` */
  function Encode(functionId: nat, args: Args): Encoding {
    match functionId
    case 1 => EncodePair(args, "motor1_pwm", "motor2_pwm", -255, 255, DCMT_OP_SET_OPEN_LOOP)
    case 2 => EncodeBrake(args)
    case 3 => EncodeMode(args)
    case 4 => EncodePair(args, "motor1_target", "motor2_target", -32768, 32767, DCMT_OP_SET_SETPOINT)
    case 5 => EncodePid(args, PID_LOOP_POSITION)
    case 6 => Dcmt(OP_CLEAR_WATCHDOG_TRIP, [])
    case 7 => EncodePid(args, PID_LOOP_SPEED)
    case _ => Invalid(AdppNotFound, UnknownFunction)
  }

  // ----- Decoding ----------------------------------------------------------------------------

  const STATE_LEN: nat := 20

  datatype DcmtState = DcmtState(
    mode: byte, target1: int16, target2: int16, value1: int16, value2: int16,
    brakes: byte, estop: byte, estopCount: byte)

  predicate Valid(v: int16) { v != INVALID_I16 }

  function ParseState(p: seq<byte>): Option<DcmtState> {
    if |p| < STATE_LEN || |p| > 255 then None
    else
      var mode := p[0];
      var (pwm1, pwm2) := (ReadI16(p, 1).value, ReadI16(p, 3).value);
      var (sp1, sp2) := (ReadI16(p, 5).value, ReadI16(p, 7).value);
      var (pos1, pos2) := (ReadI16(p, 9).value, ReadI16(p, 11).value);
      var (spd1, spd2) := (ReadI16(p, 13).value, ReadI16(p, 15).value);
      if mode == DCMT_MODE_OPEN_LOOP then Some(DcmtState(mode, pwm1, pwm2, pwm1, pwm2, p[17], p[18], p[19]))
      else if mode == DCMT_MODE_CLOSED_POSITION && Valid(sp1) && Valid(sp2) then
        Some(DcmtState(mode, sp1, sp2, pos1, pos2, p[17], p[18], p[19]))
      else if mode == DCMT_MODE_CLOSED_SPEED && Valid(sp1) && Valid(sp2) && Valid(spd1) && Valid(spd2) then
        Some(DcmtState(mode, sp1, sp2, spd1, spd2, p[17], p[18], p[19]))
      else None
  }

  function ModeName(mode: byte): string {
    if mode == DCMT_MODE_OPEN_LOOP then "open_loop"
    else if mode == DCMT_MODE_CLOSED_POSITION then "closed_position"
    else if mode == DCMT_MODE_CLOSED_SPEED then "closed_speed"
    else "unknown"
  }

  function Signals(s: DcmtState): seq<Signal> {
    [ Signal(Mode, StringV(ModeName(s.mode)), QualityOk),
      Signal(Motor1Target, IntV(s.target1), QualityOk), Signal(Motor2Target, IntV(s.target2), QualityOk),
      Signal(Motor1Value, IntV(s.value1), QualityOk), Signal(Motor2Value, IntV(s.value2), QualityOk),
      Signal(Motor1Brake, BoolV(Bit0(s.brakes)), QualityOk), Signal(Motor2Brake, BoolV(Bit1(s.brakes)), QualityOk),
      Signal(Estop, BoolV(s.estop != 0), QualityOk), Signal(EstopCount, UintV(s.estopCount), QualityOk) ]
  }

  const DEFAULT_SIGNALS: seq<SignalId> := [Motor1Value, Motor2Value, Motor1Brake, Motor2Brake]

  function StateOf(f: Frame): Option<DcmtState> {
    if f.typeId != DCMT_TYPE_ID || f.opcode != DCMT_OP_GET_STATE then None else ParseState(f.payload)
  }

  function Decode(f: Frame, ids: seq<SignalId>): Option<seq<Signal>> {
    match StateOf(f)
    case None => None
    case Some(s) => Some(Select(Signals(s), ids, DEFAULT_SIGNALS))
  }

  /** In open loop the canned payload decodes to the PWM the device holds. */
  lemma ParsesOutputs(o: Outputs)
    ensures o.dcmtMode == DCMT_MODE_OPEN_LOOP ==>
              ParseState(DcmtStatePayload(o))
              == Some(DcmtState(DCMT_MODE_OPEN_LOOP, o.pwm1, o.pwm2, o.pwm1, o.pwm2, o.brakes, 0, 0))
    ensures o.dcmtMode != DCMT_MODE_OPEN_LOOP ==> ParseState(DcmtStatePayload(o)) == None
  {
    var p := DcmtStatePayload(o);
    assert p[1..3] == I16Le(o.pwm1) && p[3..5] == I16Le(o.pwm2) && p[5..7] == I16Le(INVALID_I16);
  }

  // ----- Gating ------------------------------------------------------------------------------

  /** The motor commands a SET_OPEN_LOOP or SET_SETPOINT carries. */
  function Commands(f: Frame): Option<(int16, int16)> {
    if f.opcode != DCMT_OP_SET_OPEN_LOOP && f.opcode != DCMT_OP_SET_SETPOINT then None
    else
      match (ReadI16(f.payload, 0), ReadI16(f.payload, 2))
      case (Some(c1), Some(c2)) => Some((c1, c2))
      case _ => None
  }

  predicate NeedsBrakeCheck(f: Frame) {
    Commands(f).Some? && (Commands(f).value.0 != 0 || Commands(f).value.1 != 0)
  }

  /** The first commanded motor whose brake is engaged. */
  function Braked(f: Frame, s: DcmtState): Option<nat>
    requires Commands(f).Some?
  {
    var (c1, c2) := Commands(f).value;
    if c1 != 0 && Bit0(s.brakes) then Some(1)
    else if c2 != 0 && Bit1(s.brakes) then Some(2)
    else None
  }

  predicate NeedsEncoders(d: InventoryDevice, f: Frame) {
    !d.encoders && f.opcode == DCMT_OP_SET_MODE && f.payload != [] && f.payload[0] != DCMT_MODE_OPEN_LOOP
  }

  /** The state read before a nonzero motor command, when there is one to read. */
  function ReadBrakes(env: Env, w: World, d: InventoryDevice, f: Frame): (World, Option<DcmtState>) {
    if !NeedsBrakeCheck(f) then (w, None)
    else
      var p := Perform(env, w, d.address, QueryFor(DCMT_OP_GET_STATE));
      (p.world, if p.status.Ok() && p.reply.Some? then StateOf(p.reply.value) else None)
  }

  /** `transmit` */
  function Transmit(env: Env, w: World, d: InventoryDevice, f: Frame): (World, CallResult) {
    var (w1, state) := ReadBrakes(env, w, d, f);
    if NeedsBrakeCheck(f) && state.Some? && Braked(f, state.value).Some? then
      (w1, CallResult(false, AdppFailedPrecondition, BrakeEngaged(Braked(f, state.value).value)))
    else if NeedsEncoders(d, f) then
      (w1, CallResult(false, AdppInvalidArgument, Note.NeedsEncoders))
    else
      TransmitConfirmed(env, w1, d, f)
  }

  /** What a transmit may send: nothing at all when a gate holds. */
  lemma TransmitMoves(env: Env, w: World, d: InventoryDevice, f: Frame, s: Sends)
    requires !NeedsEncoders(d, f) ==> (d.address, f) in s
    ensures Moves(w, Transmit(env, w, d, f).0, s)
  {
    var (w1, state) := ReadBrakes(env, w, d, f);
    MovesRefl(w, s);
    PerformMoves(env, w, d.address, QueryFor(DCMT_OP_GET_STATE), s);
    if !NeedsEncoders(d, f) {
      SetConfirm.TransmitMoves(env, w1, d, f, s);
      MovesTrans(w, w1, TransmitConfirmed(env, w1, d, f).0, s);
    }
  }

  /** A nonzero command for a motor whose brake reads engaged sends nothing at all. */
  lemma BrakedCommandIsNotSent(env: Env, w: World, d: InventoryDevice, f: Frame)
    requires NeedsBrakeCheck(f)
    requires var (_, state) := ReadBrakes(env, w, d, f); state.Some? && Braked(f, state.value).Some?
    ensures var (w', r) := Transmit(env, w, d, f);
            !r.ok && r.note.BrakeEngaged? && Moves(w, w', iset{})
  {
    PerformMoves(env, w, d.address, QueryFor(DCMT_OP_GET_STATE), iset{});
  }

  /** Past the gates, a transmit is the confirmed SET behind the brake query. */
  lemma UngatedIsConfirmed(env: Env, w: World, d: InventoryDevice, f: Frame)
    requires var state := ReadBrakes(env, w, d, f).1; NeedsBrakeCheck(f) && state.Some? ==> Braked(f, state.value).None?
    requires !NeedsEncoders(d, f)
    ensures Transmit(env, w, d, f) == TransmitConfirmed(env, ReadBrakes(env, w, d, f).0, d, f)
  {
  }

  /** A 0/0 command, and any frame that is not a motor command, goes straight to the confirm loop. */
  lemma ZeroCommandSkipsBrakes(env: Env, w: World, d: InventoryDevice, f: Frame)
    requires Commands(f) == Some((0, 0)) || Commands(f) == None
    requires !NeedsEncoders(d, f)
    ensures Transmit(env, w, d, f) == TransmitConfirmed(env, w, d, f)
  {
  }
}
