/**
 What each signal shows, by name, of the outputs a device holds, and the round trips of the functions
 whose effect a read shows.
 */
module SignalTables {
  import opened Bytes
  import opened Protocol
  import opened CannedDevice
  import opened Capabilities
  import opened AdapterHelpers
  import opened DeviceAdapter
  import opened ReadBack
  import DcmtAdapter
  import RlhtAdapter

  /** The canned device measures 25.0 and 25.5 degrees. */
  lemma RlhtTemperatures(o: Outputs)
    ensures var signals := Observed(Rlht, o);
            && |signals| == 14
            && signals[1] == Signal(T1C, RealV(25.0), QualityOk) && signals[2] == Signal(T2C, RealV(25.5), QualityOk)
  {
  }

  /** A setpoint signal: the tenths held, or a fault at the sentinel. */
  function SetpointSignal(id: SignalId, deci: int16): Signal {
    if deci == -32768 then Signal(id, RealV(0.0), QualityFault) else Signal(id, RealV(deci as real / 10.0), QualityOk)
  }

  lemma RlhtSetpointsShown(o: Outputs)
    ensures var signals := Observed(Rlht, o);
            && |signals| == 14
            && signals[3] == SetpointSignal(Setpoint1C, o.sp1) && signals[4] == SetpointSignal(Setpoint2C, o.sp2)
  {
  }

  lemma RlhtTimes(o: Outputs)
    ensures var signals := Observed(Rlht, o);
            && |signals| == 14
            && signals[5] == Signal(Period1Ms, UintV(o.period1), QualityOk)
            && signals[6] == Signal(Period2Ms, UintV(o.period2), QualityOk)
            && signals[7] == Signal(On1Ms, UintV(o.on1), QualityOk)
            && signals[8] == Signal(On2Ms, UintV(o.on2), QualityOk)
  {
  }

  function SelectionQuality(select: byte): Quality {
    if select in {1, 2} then QualityOk else QualityFault
  }

  /** Thermocouple 1 or 2 is good, any other selection a fault. */
  lemma RlhtSelections(o: Outputs)
    ensures var signals := Observed(Rlht, o);
            && |signals| == 14
            && signals[9] == Signal(Channel1Thermocouple, UintV(o.tc1 % 4), SelectionQuality(o.tc1 % 4))
            && signals[10] == Signal(Channel2Thermocouple, UintV(o.tc2 % 4), SelectionQuality(o.tc2 % 4))
  {
  }

  lemma RelayBits(o: Outputs)
    ensures var flags := RlhtAdapter.StateOf(o).flags;
            Bit0(flags) == (o.on1 > 0) && Bit1(flags) == (o.on2 > 0) && !Bit2(flags)
  {
  }

  /** A relay is on while its on-time is above zero. */
  lemma RlhtSwitches(o: Outputs)
    ensures var signals := Observed(Rlht, o);
            && |signals| == 14
            && signals[0] == Signal(Mode, StringV(if o.rlhtMode == 1 then "open_loop" else "closed_loop"), QualityOk)
            && signals[11] == Signal(Relay1On, BoolV(o.on1 > 0), QualityOk)
            && signals[12] == Signal(Relay2On, BoolV(o.on2 > 0), QualityOk)
            && signals[13] == Signal(Estop, BoolV(false), QualityOk)
  {
    RelayBits(o);
  }

  /** The signals of a motor module in open loop. */
  lemma DcmtTable(o: Outputs)
    ensures Observed(Dcmt, o) ==
              [ Signal(Mode, StringV("open_loop"), QualityOk),
                Signal(Motor1Target, IntV(o.pwm1), QualityOk), Signal(Motor2Target, IntV(o.pwm2), QualityOk),
                Signal(Motor1Value, IntV(o.pwm1), QualityOk), Signal(Motor2Value, IntV(o.pwm2), QualityOk),
                Signal(Motor1Brake, BoolV(o.brakes % 2 == 1), QualityOk),
                Signal(Motor2Brake, BoolV(o.brakes / 2 % 2 == 1), QualityOk),
                Signal(Estop, BoolV(false), QualityOk), Signal(EstopCount, UintV(0), QualityOk) ]
  {
  }

  // ----- Which signals a read returns --------------------------------------------------------

  lemma DefaultSignals(t: DeviceType, id: SignalId)
    ensures id in Defaults(t) <==>
              if t.Rlht? then id in {T1C, T2C, Relay1On, Relay2On}
              else id in {Motor1Value, Motor2Value, Motor1Brake, Motor2Brake}
  {
  }

  /** The defaults when a request names none; else the signals it names, of those there are. */
  lemma RequestedSignals(t: DeviceType, all: seq<Signal>, ids: seq<SignalId>, s: Signal)
    ensures s in Select(all, ids, Defaults(t)) <==>
              && s in all
              && (ids != [] ==> s.id in ids)
              && (ids == [] && t.Rlht? ==> s.id in {T1C, T2C, Relay1On, Relay2On})
              && (ids == [] && t.Dcmt? ==> s.id in {Motor1Value, Motor2Value, Motor1Brake, Motor2Brake})
  {
    DefaultSignals(t, s.id);
  }

  // ----- States beyond the canned device -----------------------------------------------------

  /** A motor state on the wire. */
  function DcmtWire(
    mode: byte, pwm: (int16, int16), target: (int16, int16), position: (int16, int16), speed: (int16, int16),
    brakes: byte, estop: byte, count: byte): seq<byte>
  {
    [mode] + I16Le(pwm.0) + I16Le(pwm.1) + I16Le(target.0) + I16Le(target.1)
    + I16Le(position.0) + I16Le(position.1) + I16Le(speed.0) + I16Le(speed.1) + [brakes, estop, count]
  }

  predicate BothValid(v: (int16, int16)) {
    v.0 != -32768 && v.1 != -32768
  }

  /**
   Targets and values follow the mode: PWM for both in open loop; the setpoints and the positions, or
   the speeds, in the closed loops, where a reading at the sentinel makes the state unusable.
   */
  lemma DcmtStates(
    mode: byte, pwm: (int16, int16), target: (int16, int16), position: (int16, int16), speed: (int16, int16),
    brakes: byte, estop: byte, count: byte)
    ensures var s := DcmtAdapter.ParseState(DcmtWire(mode, pwm, target, position, speed, brakes, estop, count));
            if mode == 0 then
              s == Some(DcmtAdapter.DcmtState(0, pwm.0, pwm.1, pwm.0, pwm.1, brakes, estop, count))
            else if mode == 1 && BothValid(target) then
              s == Some(DcmtAdapter.DcmtState(1, target.0, target.1, position.0, position.1, brakes, estop, count))
            else if mode == 2 && BothValid(target) && BothValid(speed) then
              s == Some(DcmtAdapter.DcmtState(2, target.0, target.1, speed.0, speed.1, brakes, estop, count))
            else
              s == None
  {
    var p := DcmtWire(mode, pwm, target, position, speed, brakes, estop, count);
    assert p[1..3] == I16Le(pwm.0) && p[3..5] == I16Le(pwm.1) && p[5..7] == I16Le(target.0);
    assert p[7..9] == I16Le(target.1) && p[9..11] == I16Le(position.0) && p[11..13] == I16Le(position.1);
    assert p[13..15] == I16Le(speed.0) && p[15..17] == I16Le(speed.1);
  }

  /** A short payload is no state, for either family. */
  lemma ShortStates(p: seq<byte>)
    ensures |p| < 20 ==> DcmtAdapter.ParseState(p) == None
    ensures |p| < 19 ==> RlhtAdapter.ParseState(p) == None
  {
  }

  lemma CountedState(o: Outputs, count: byte)
    ensures var s := RlhtAdapter.ParseState(RlhtStatePayload(o) + [count]);
            s == Some(RlhtAdapter.StateOf(o).(estopCount := count))
  {
    RlhtAdapter.ParsesOutputs(o);
    var p, q := RlhtStatePayload(o), RlhtStatePayload(o) + [count];
    assert forall k | 0 <= k < 19 :: q[k] == p[k];
  }

  lemma CountIsLast(s: RlhtAdapter.RlhtState)
    ensures Select(RlhtAdapter.Signals(s, true), [EstopCount], RlhtAdapter.DEFAULT_SIGNALS)
            == [Signal(EstopCount, UintV(s.estopCount), QualityOk)]
  {
    OnlyLast(RlhtAdapter.Signals(s, true), EstopCount);
  }

  /** The e-stop count of a heater that advertises one is the byte behind the state; without it the state is unusable. */
  lemma EstopCounts(d: InventoryDevice, o: Outputs, count: byte)
    requires d.deviceType.Rlht? && RLHT_CAP_ESTOP_COUNT in d.profile.flags
    ensures RlhtAdapter.Decode(d, Frame(RLHT_TYPE_ID, RLHT_OP_GET_STATE, RlhtStatePayload(o)), [EstopCount]) == None
    ensures RlhtAdapter.Decode(d, Frame(RLHT_TYPE_ID, RLHT_OP_GET_STATE, RlhtStatePayload(o) + [count]), [EstopCount])
            == Some([Signal(EstopCount, UintV(count), QualityOk)])
  {
    RlhtAdapter.ParsesOutputs(o);
    CountedState(o, count);
    CountIsLast(RlhtAdapter.StateOf(o).(estopCount := count));
  }

  lemma {:induction false} OnlyLast(all: seq<Signal>, id: SignalId)
    requires all != [] && all[|all| - 1].id == id && forall k | 0 <= k < |all| - 1 :: all[k].id != id
    ensures Select(all, [id], RlhtAdapter.DEFAULT_SIGNALS) == [all[|all| - 1]]
  {
    if |all| > 1 {
      OnlyLast(all[1..], id);
    } else {
      assert all[1..] == [];
    }
  }

  // ----- Round trips -------------------------------------------------------------------------

  /** The outputs an accepted call makes of `o`. */
  function After(t: DeviceType, functionId: nat, args: Args, o: Outputs): Outputs
    requires Encode(t, functionId, args).Encoded?
  {
    Act(TypeId(t), o, Encode(t, functionId, args).frame)
  }

  /** A duty reads back as its share of the period, and switches the relay on if that is above zero. */
  lemma DutyRoundTrip(args: Args, o: Outputs)
    requires Encode(Rlht, 6, args).Encoded?
    ensures "duty1_pct" in args && args["duty1_pct"].UintV? && "duty2_pct" in args && args["duty2_pct"].UintV?
    ensures var o' := After(Rlht, 6, args, o);
            o' == o.(on1 := o.period1 * args["duty1_pct"].u / 100 % 0x1_0000,
                     on2 := o.period2 * args["duty2_pct"].u / 100 % 0x1_0000)
  {
  }

  /** The mode a heater is set to is the mode it shows. */
  lemma RlhtModeRoundTrip(args: Args, o: Outputs)
    requires Encode(Rlht, 1, args).Encoded?
    ensures "mode" in args && Observed(Rlht, After(Rlht, 1, args, o))[0] == Signal(Mode, args["mode"], QualityOk)
  {
  }

  /** The mode a motor module is set to is the mode it holds. */
  lemma DcmtModeRoundTrip(args: Args, o: Outputs)
    requires Encode(Dcmt, 3, args).Encoded?
    ensures var o' := After(Dcmt, 3, args, o);
            "mode" in args && args["mode"] == StringV(DcmtAdapter.ModeName(o'.dcmtMode)) && o' == o.(dcmtMode := o'.dcmtMode)
  {
  }

  /** The mode names are distinct, so a mode shown is a mode held. */
  lemma ModeNames(m: byte, n: byte)
    requires DcmtAdapter.ModeName(m) == DcmtAdapter.ModeName(n) && m <= 2
    ensures m == n
  {
    var names := ["open_loop", "closed_position", "closed_speed", "unknown"];
    assert names[0][0] == 'o' && names[1][0] == 'c' && names[2][0] == 'c' && names[3][0] == 'u';
    assert names[1][7] == 'p' && names[2][7] == 's';
  }
}
