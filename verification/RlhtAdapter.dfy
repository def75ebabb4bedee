/** RLHT: heater commands encoded, heater state decoded. */
module RlhtAdapter {
  import opened Bytes
  import opened Protocol
  import opened CannedDevice
  import opened Capabilities
  import opened AdapterHelpers

  const MIN_SETPOINT_C: real := -3276.8
  const MAX_SETPOINT_C: real := 3276.7

  function Rlht(opcode: byte, payload: seq<byte>): Encoding {
    Encoded(Frame(RLHT_TYPE_ID, opcode, payload))
  }

  function EncodeMode(args: Args): Encoding {
    match GetString(args, "mode")
    case None => MISSING
    case Some(mode) =>
      if mode != "closed_loop" && mode != "open_loop" then MISSING
      else Rlht(RLHT_OP_SET_MODE, [if mode == "open_loop" then RLHT_MODE_OPEN_LOOP else RLHT_MODE_CLOSED_LOOP])
  }

  function EncodeSetpoints(args: Args): Encoding {
    match (GetReal(args, "setpoint1_c"), GetReal(args, "setpoint2_c"))
    case (Some(sp1), Some(sp2)) =>
      if sp1 < MIN_SETPOINT_C || sp1 > MAX_SETPOINT_C || sp2 < MIN_SETPOINT_C || sp2 > MAX_SETPOINT_C then OUT_OF_RANGE
      else
        var deci1, deci2 := RoundHalfAway(sp1 * 10.0), RoundHalfAway(sp2 * 10.0);
        if deci1 < -32768 || deci1 > 32767 || deci2 < -32768 || deci2 > 32767 then MISSING
        else Rlht(RLHT_OP_SET_SETPOINTS, I16Le(deci1) + I16Le(deci2))
    case _ => MISSING
  }

  function EncodePid(args: Args): Encoding {
    if !AllUints(args, RLHT_GAINS) then MISSING
    else if !AllAtMost(args, RLHT_GAINS, 255) then OUT_OF_RANGE
    else Rlht(RLHT_OP_SET_PID, seq(6, i requires 0 <= i < 6 => GetUint(args, RLHT_GAINS[i]).value))
  }

  function EncodePeriods(args: Args): Encoding {
    match (GetUint(args, "period1_ms"), GetUint(args, "period2_ms"))
    case (Some(p1), Some(p2)) =>
      if p1 < RLHT_PERIOD_MIN_MS || p1 > RLHT_PERIOD_MAX_MS || p2 < RLHT_PERIOD_MIN_MS || p2 > RLHT_PERIOD_MAX_MS
      then OUT_OF_RANGE
      else Rlht(RLHT_OP_SET_PERIODS, U16Le(p1) + U16Le(p2))
    case _ => MISSING
  }

  function EncodeTcSelect(args: Args): Encoding {
    match (GetUint(args, "channel1_thermocouple"), GetUint(args, "channel2_thermocouple"))
    case (Some(tc1), Some(tc2)) =>
      if tc1 < THERMOCOUPLE_MIN || tc1 > THERMOCOUPLE_MAX || tc2 < THERMOCOUPLE_MIN || tc2 > THERMOCOUPLE_MAX
      then OUT_OF_RANGE
      else Rlht(RLHT_OP_SET_TC_SELECT, [tc1, tc2])
    case _ => MISSING
  }

  function EncodeOpenDuty(args: Args): Encoding {
    match (GetUint(args, "duty1_pct"), GetUint(args, "duty2_pct"))
    case (Some(d1), Some(d2)) =>
      if d1 > 100 || d2 > 100 then OUT_OF_RANGE else Rlht(RLHT_OP_SET_OPEN_DUTY, [d1, d2])
    case _ => MISSING
  }

  /** `build_frame` */
  function Encode(functionId: nat, args: Args): Encoding {
    match functionId
    case 1 => EncodeMode(args)
    case 2 => EncodeSetpoints(args)
    case 3 => EncodePid(args)
    case 4 => EncodePeriods(args)
    case 5 => EncodeTcSelect(args)
    case 6 => EncodeOpenDuty(args)
    case 7 => Rlht(OP_CLEAR_WATCHDOG_TRIP, [])
    case _ => Invalid(AdppNotFound, UnknownFunction)
  }

  // ----- Decoding ----------------------------------------------------------------------------

  const STATE_LEN: nat := 19

  datatype RlhtState = RlhtState(
    mode: byte, flags: byte, t1: int16, t2: int16, sp1: int16, sp2: int16,
    on1: uint16, on2: uint16, period1: uint16, period2: uint16, tc1: byte, tc2: byte, estopCount: byte)

  /** The contracts parser: 19 fixed bytes, and an optional e-stop count read as 0 when absent. */
  function ParseState(p: seq<byte>): Option<RlhtState> {
    if |p| < STATE_LEN || |p| > 255 then None
    else Some(RlhtState(
      p[0], p[1], ReadI16(p, 2).value, ReadI16(p, 4).value, ReadI16(p, 6).value, ReadI16(p, 8).value,
      ReadU16(p, 10).value, ReadU16(p, 12).value, ReadU16(p, 14).value, ReadU16(p, 16).value,
      p[18] % 4, p[18] / 4 % 4, if |p| > STATE_LEN then p[STATE_LEN] else 0))
  }

  function Celsius(id: SignalId, deci: int16): Signal {
    if deci == INVALID_I16 then Signal(id, RealV(0.0), QualityFault)
    else Signal(id, RealV(deci as real / 10.0), QualityOk)
  }

  function Thermocouple(id: SignalId, select: byte): Signal {
    Signal(id, UintV(select), if THERMOCOUPLE_MIN <= select <= THERMOCOUPLE_MAX then QualityOk else QualityFault)
  }

  function Signals(s: RlhtState, hasEstopCount: bool): seq<Signal> {
    [ Signal(Mode, StringV(if s.mode == RLHT_MODE_OPEN_LOOP then "open_loop" else "closed_loop"), QualityOk),
      Celsius(T1C, s.t1), Celsius(T2C, s.t2),
      Celsius(Setpoint1C, s.sp1), Celsius(Setpoint2C, s.sp2),
      Signal(Period1Ms, UintV(s.period1), QualityOk), Signal(Period2Ms, UintV(s.period2), QualityOk),
      Signal(On1Ms, UintV(s.on1), QualityOk), Signal(On2Ms, UintV(s.on2), QualityOk),
      Thermocouple(Channel1Thermocouple, s.tc1), Thermocouple(Channel2Thermocouple, s.tc2),
      Signal(Relay1On, BoolV(Bit0(s.flags)), QualityOk), Signal(Relay2On, BoolV(Bit1(s.flags)), QualityOk),
      Signal(Estop, BoolV(Bit2(s.flags)), QualityOk) ]
    + if hasEstopCount then [Signal(EstopCount, UintV(s.estopCount), QualityOk)] else []
  }

  const DEFAULT_SIGNALS: seq<SignalId> := [T1C, T2C, Relay1On, Relay2On]

  /** Decode a GET_STATE reply; `None` when the adapter rejects it. */
  function Decode(d: InventoryDevice, f: Frame, ids: seq<SignalId>): Option<seq<Signal>> {
    var hasEstopCount := RLHT_CAP_ESTOP_COUNT in d.profile.flags;
    if f.typeId != RLHT_TYPE_ID || f.opcode != RLHT_OP_GET_STATE then None
    else
      match ParseState(f.payload)
      case None => None
      case Some(s) =>
        if hasEstopCount && |f.payload| <= STATE_LEN then None
        else Some(Select(Signals(s, hasEstopCount), ids, DEFAULT_SIGNALS))
  }

  /** What GET_STATE says of a device that holds these outputs. */
  function StateOf(o: Outputs): RlhtState {
    RlhtState(o.rlhtMode, Flag(o.on1 > 0, 1) + Flag(o.on2 > 0, 2), 250, 255, o.sp1, o.sp2,
              o.on1, o.on2, o.period1, o.period2, o.tc1 % 4, o.tc2 % 4, 0)
  }

  /** Parsing the canned payload recovers every field of the outputs. */
  lemma ParsesOutputs(o: Outputs)
    ensures ParseState(RlhtStatePayload(o)) == Some(StateOf(o)) && |RlhtStatePayload(o)| == STATE_LEN
  {
    var p := RlhtStatePayload(o);
    assert p[2..4] == I16Le(250) && p[4..6] == I16Le(255) && p[6..8] == I16Le(o.sp1) && p[8..10] == I16Le(o.sp2);
    assert p[10..12] == U16Le(o.on1) && p[12..14] == U16Le(o.on2);
    assert p[14..16] == U16Le(o.period1) && p[16..18] == U16Le(o.period2);
  }
}
