/**
 What a read reports: the outputs the device holds. With the encoders this closes the loop from
 the arguments of a call, through the wire and the device, back to the signals.
 */
module ReadBack {
  import opened Bytes
  import opened Protocol
  import opened CannedDevice
  import opened SessionModel
  import opened Capabilities
  import opened Footprint
  import opened AdapterHelpers
  import opened DeviceAdapter
  import RlhtAdapter
  import DcmtAdapter

  function StatePayload(t: DeviceType, o: Outputs): seq<byte> {
    match t
    case Rlht => RlhtStatePayload(o)
    case Dcmt => DcmtStatePayload(o)
  }

  lemma EmittedState(d: Device, t: DeviceType)
    ensures var r := Emit(d).1;
            r.Some? && r.value.opcode == StateOpcode(t) ==>
              d.typeId == TypeId(t) && r.value == Frame(d.typeId, StateOpcode(t), StatePayload(t, d.out))
  {
  }

  lemma TriedState(tape: seq<Link>, b: Bus, a: byte, t: DeviceType)
    ensures var r := TryOnce(tape, b, a, QueryFor(StateOpcode(t)));
            r.code.CodeOk? && r.reply.Some? && r.reply.value.opcode == StateOpcode(t) ==>
              && a in b.devices && b.devices[a].typeId == TypeId(t)
              && r.reply.value.payload == StatePayload(t, b.devices[a].out)
  {
    if a in b.devices {
      var staged := SendOnce(tape, b, a, QueryFrame(StateOpcode(t))).bus;
      EmittedState(staged.devices[a], t);
    }
  }

  lemma TriedQuietly(tape: seq<Link>, b: Bus, a: byte, reply: byte)
    requires a in b.devices
    ensures var b' := TryOnce(tape, b, a, QueryFor(reply)).bus;
            a in b'.devices && b'.devices[a].out == b.devices[a].out && b'.devices[a].typeId == b.devices[a].typeId
  {
    TryOnceGrows(tape, b, a, QueryFor(reply), iset{});
    assert FramesTo(iset{}, a) == iset{};
    QuietOutputs(b.devices[a], TryOnce(tape, b, a, QueryFor(reply)).bus.devices[a]);
  }

  /** A state reply, whenever one comes back, carries the outputs the device holds. */
  lemma {:induction false} QueriedState(
    tape: seq<Link>, b: Bus, log: seq<Attempt>, a: byte, t: DeviceType, n: nat, max: nat)
    requires 1 <= n <= max
    ensures var r := Attempts(tape, b, log, a, QueryFor(StateOpcode(t)), n, max);
            r.status.Ok() && r.reply.Some? && r.reply.value.opcode == StateOpcode(t) ==>
              && a in b.devices && b.devices[a].typeId == TypeId(t)
              && r.reply.value.payload == StatePayload(t, b.devices[a].out)
    decreases max - n
  {
    var op := QueryFor(StateOpcode(t));
    var tried := TryOnce(tape, b, a, op);
    TriedState(tape, b, a, t);
    if !Final(tried, n, max) {
      QueriedState(tape, tried.bus, log + [Attempt(a, op)], a, t, n + 1, max);
      if a in b.devices {
        TriedQuietly(tape, b, a, StateOpcode(t));
      }
    }
  }

  lemma QuietOutputs(d: Device, d': Device)
    requires Grows(d, d', iset{})
    ensures d'.journal == d.journal && d'.out == d.out && d'.typeId == d.typeId
  {
    assert d'.journal == d.journal + d'.journal[|d.journal|..];
  }

  /** The signals of a device that holds these outputs. */
  function Observed(t: DeviceType, o: Outputs): seq<Signal> {
    match t
    case Rlht => RlhtAdapter.Signals(RlhtAdapter.StateOf(o), false)
    case Dcmt =>
      DcmtAdapter.Signals(DcmtAdapter.DcmtState(
        DCMT_MODE_OPEN_LOOP, o.pwm1, o.pwm2, o.pwm1, o.pwm2, o.brakes, 0, 0))
  }

  function Defaults(t: DeviceType): seq<SignalId> {
    match t
    case Rlht => RlhtAdapter.DEFAULT_SIGNALS
    case Dcmt => DcmtAdapter.DEFAULT_SIGNALS
  }

  lemma DecodesRlht(d: InventoryDevice, p: seq<byte>, state: RlhtAdapter.RlhtState, ids: seq<SignalId>)
    requires d.deviceType.Rlht? && RlhtAdapter.ParseState(p) == Some(state) && |p| == RlhtAdapter.STATE_LEN
    ensures var r := Decode(d, Frame(RLHT_TYPE_ID, RLHT_OP_GET_STATE, p), ids);
            r.Some? ==> r.value == Select(RlhtAdapter.Signals(state, false), ids, RlhtAdapter.DEFAULT_SIGNALS)
  {
  }

  lemma DecodesDcmt(d: InventoryDevice, p: seq<byte>, ids: seq<SignalId>)
    requires d.deviceType.Dcmt?
    ensures var r := Decode(d, Frame(DCMT_TYPE_ID, DCMT_OP_GET_STATE, p), ids);
            match DcmtAdapter.ParseState(p)
            case None => r.None?
            case Some(state) => r == Some(Select(DcmtAdapter.Signals(state), ids, DcmtAdapter.DEFAULT_SIGNALS))
  {
  }

  lemma DecodesRlhtOutputs(d: InventoryDevice, o: Outputs, ids: seq<SignalId>)
    requires d.deviceType.Rlht?
    ensures var r := Decode(d, Frame(RLHT_TYPE_ID, RLHT_OP_GET_STATE, RlhtStatePayload(o)), ids);
            r.Some? ==> r.value == Select(Observed(Rlht, o), ids, Defaults(Rlht))
  {
    RlhtAdapter.ParsesOutputs(o);
    DecodesRlht(d, RlhtStatePayload(o), RlhtAdapter.StateOf(o), ids);
  }

  lemma DecodesDcmtOutputs(d: InventoryDevice, o: Outputs, ids: seq<SignalId>)
    requires d.deviceType.Dcmt?
    ensures var r := Decode(d, Frame(DCMT_TYPE_ID, DCMT_OP_GET_STATE, DcmtStatePayload(o)), ids);
            r.Some? ==>
              && r.value == Select(Observed(Dcmt, o), ids, Defaults(Dcmt))
              && o.dcmtMode == DCMT_MODE_OPEN_LOOP
  {
    DcmtAdapter.ParsesOutputs(o);
    DecodesDcmt(d, DcmtStatePayload(o), ids);
  }

  lemma DecodesOutputs(d: InventoryDevice, o: Outputs, ids: seq<SignalId>)
    ensures var t := d.deviceType;
            var r := Decode(d, Frame(TypeId(t), StateOpcode(t), StatePayload(t, o)), ids);
            r.Some? ==>
              && r.value == Select(Observed(t, o), ids, Defaults(t))
              && (t.Dcmt? ==> o.dcmtMode == DCMT_MODE_OPEN_LOOP)
  {
    match d.deviceType {
      case Rlht => DecodesRlhtOutputs(d, o, ids);
      case Dcmt => DecodesDcmtOutputs(d, o, ids);
    }
  }

  lemma DecodesStateOnly(d: InventoryDevice, f: Frame, ids: seq<SignalId>)
    ensures Decode(d, f, ids).Some? ==> f.typeId == TypeId(d.deviceType) && f.opcode == StateOpcode(d.deviceType)
  {
  }

  /**
   A successful read, after any retries, returns exactly the requested signals of the outputs the
   device held, and a DCMT read succeeds only in open loop (the canned device has no encoders).
   */
  lemma ReadObserves(env: Env, w: World, d: InventoryDevice, ids: seq<SignalId>)
    ensures var (w', r) := ReadSignals(env, w, d, ids);
            r.ok ==>
              && d.address in w.bus.devices
              && var dev := w.bus.devices[d.address];
                 && dev.typeId == TypeId(d.deviceType)
                 && (d.deviceType.Dcmt? ==> dev.out.dcmtMode == DCMT_MODE_OPEN_LOOP)
                 && r.values == Select(Observed(d.deviceType, dev.out), ids, Defaults(d.deviceType))
  {
    var (w', r) := ReadSignals(env, w, d, ids);
    if r.ok {
      var f := Perform(env, w, d.address, QueryFor(StateOpcode(d.deviceType))).reply.value;
      DecodesStateOnly(d, f, ids);
      QueriedState(env.tape, w.bus, w.log, d.address, d.deviceType, 1, MaxAttempts(env.retry));
      DecodesOutputs(d, w.bus.devices[d.address].out, ids);
      assert f == Frame(f.typeId, f.opcode, f.payload);
    }
  }

  // ----- Round trips -------------------------------------------------------------------------

  function Setpoints(sp1: real, sp2: real): Args {
    map["setpoint1_c" := RealV(sp1), "setpoint2_c" := RealV(sp2)]
  }

  /** The setpoint signal after an applied `set_setpoints`. */
  predicate SetpointReadsBack(sp: real, s: Signal) {
    if sp <= -3276.75 then s.quality.QualityFault?
    else s.quality.QualityOk? && s.value.RealV? && -0.05 <= s.value.r - sp <= 0.05
  }

  lemma SetpointSignal(id: SignalId, sp: real)
    requires RlhtAdapter.MIN_SETPOINT_C <= sp <= RlhtAdapter.MAX_SETPOINT_C
    ensures -32768 <= RoundHalfAway(sp * 10.0) <= 32767
    ensures SetpointReadsBack(sp, RlhtAdapter.Celsius(id, RoundHalfAway(sp * 10.0)))
  {
    var n := RoundHalfAway(sp * 10.0);
    assert -32768.5 <= n as real <= 32767.5;
    if sp <= -3276.75 {
      assert 0.5 - sp * 10.0 >= 32768.0;
      assert n <= -32768;
    } else {
      assert 0.5 - sp * 10.0 < 32768.0;
      assert n > -32768;
      assert RlhtAdapter.Celsius(id, n).value.r == n as real / 10.0;
    }
  }

  lemma SetpointsApplied(o: Outputs, n1: int16, n2: int16)
    ensures Act(RLHT_TYPE_ID, o, Frame(RLHT_TYPE_ID, RLHT_OP_SET_SETPOINTS, I16Le(n1) + I16Le(n2)))
            == o.(sp1 := n1, sp2 := n2)
  {
    var p := I16Le(n1) + I16Le(n2);
    I16RoundTrip([], n1, I16Le(n2));
    I16RoundTrip(I16Le(n1), n2, []);
    assert [] + I16Le(n1) + I16Le(n2) == I16Le(n1) + I16Le(n2) + [] == p;
  }

  lemma EncodesSetpoints(sp1: real, sp2: real, n1: int16, n2: int16)
    requires RlhtAdapter.MIN_SETPOINT_C <= sp1 <= RlhtAdapter.MAX_SETPOINT_C && RoundHalfAway(sp1 * 10.0) == n1
    requires RlhtAdapter.MIN_SETPOINT_C <= sp2 <= RlhtAdapter.MAX_SETPOINT_C && RoundHalfAway(sp2 * 10.0) == n2
    ensures Encode(Rlht, 2, Setpoints(sp1, sp2))
            == Encoded(Frame(RLHT_TYPE_ID, RLHT_OP_SET_SETPOINTS, I16Le(n1) + I16Le(n2)))
  {
  }

  lemma SetpointsShown(o: Outputs)
    ensures var signals := Observed(Rlht, o);
            signals[3] == RlhtAdapter.Celsius(Setpoint1C, o.sp1) && signals[4] == RlhtAdapter.Celsius(Setpoint2C, o.sp2)
  {
  }

  /**
   Encode, apply, read back: every legal setpoint pair reads back within 0.05 C, except that a
   setpoint that rounds to -32768 tenths, the sentinel, reads back as a FAULT. Those are exactly
   the setpoints at or below -3276.75 C.
   */
  lemma SetpointRoundTrip(o: Outputs, sp1: real, sp2: real)
    requires -3276.8 <= sp1 <= 3276.7 && -3276.8 <= sp2 <= 3276.7
    ensures var e := Encode(Rlht, 2, Setpoints(sp1, sp2));
            && e.Encoded?
            && var signals := Observed(Rlht, Act(RLHT_TYPE_ID, o, e.frame));
               && signals[3].id == Setpoint1C && SetpointReadsBack(sp1, signals[3])
               && signals[4].id == Setpoint2C && SetpointReadsBack(sp2, signals[4])
  {
    SetpointSignal(Setpoint1C, sp1);
    SetpointSignal(Setpoint2C, sp2);
    SetpointsReadBack(o, sp1, sp2, RoundHalfAway(sp1 * 10.0), RoundHalfAway(sp2 * 10.0));
  }

  lemma SetpointsReadBack(o: Outputs, sp1: real, sp2: real, n1: int16, n2: int16)
    requires RlhtAdapter.MIN_SETPOINT_C <= sp1 <= RlhtAdapter.MAX_SETPOINT_C && RoundHalfAway(sp1 * 10.0) == n1
    requires RlhtAdapter.MIN_SETPOINT_C <= sp2 <= RlhtAdapter.MAX_SETPOINT_C && RoundHalfAway(sp2 * 10.0) == n2
    ensures var e := Encode(Rlht, 2, Setpoints(sp1, sp2));
            && e.Encoded?
            && var signals := Observed(Rlht, Act(RLHT_TYPE_ID, o, e.frame));
               signals[3] == RlhtAdapter.Celsius(Setpoint1C, n1) && signals[4] == RlhtAdapter.Celsius(Setpoint2C, n2)
  {
    EncodesSetpoints(sp1, sp2, n1, n2);
    SetpointsApplied(o, n1, n2);
    SetpointsShown(o.(sp1 := n1, sp2 := n2));
  }

  lemma ThermocoupleRoundTrip(o: Outputs, args: Args)
    ensures var e := Encode(Rlht, 5, args);
            e.Encoded? ==>
              var signals := Observed(Rlht, Act(RLHT_TYPE_ID, o, e.frame));
              && signals[9] == Signal(Channel1Thermocouple, args["channel1_thermocouple"], QualityOk)
              && signals[10] == Signal(Channel2Thermocouple, args["channel2_thermocouple"], QualityOk)
  {
  }

  /** Every legal PWM pair, negatives included, reads back exactly while the device is in open loop. */
  lemma PwmRoundTrip(o: Outputs, args: Args)
    ensures var e := Encode(Dcmt, 1, args);
            e.Encoded? ==>
              var o' := Act(DCMT_TYPE_ID, o, e.frame);
              var signals := Observed(Dcmt, o');
              && o'.dcmtMode == o.dcmtMode
              && signals[1] == Signal(Motor1Target, args["motor1_pwm"], QualityOk)
              && signals[2] == Signal(Motor2Target, args["motor2_pwm"], QualityOk)
              && signals[3] == Signal(Motor1Value, args["motor1_pwm"], QualityOk)
              && signals[4] == Signal(Motor2Value, args["motor2_pwm"], QualityOk)
  {
    var e := Encode(Dcmt, 1, args);
    if e.Encoded? {
      var m1, m2 := args["motor1_pwm"].i, args["motor2_pwm"].i;
      I16RoundTrip([], m1, I16Le(m2));
      I16RoundTrip(I16Le(m1), m2, []);
      assert [] + I16Le(m1) + I16Le(m2) == I16Le(m1) + I16Le(m2) + [] == I16Le(m1) + I16Le(m2);
    }
  }
}
