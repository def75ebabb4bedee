/**
 A call and the read after it, end to end: arguments are encoded, sent, confirmed and applied
 under any faults, and a later read decodes what the device then holds.
 */
module CallReadBack {
  import opened Protocol
  import opened CannedDevice
  import opened SessionModel
  import opened Capabilities
  import opened Footprint
  import opened SetConfirm
  import opened ExactlyOnce
  import opened AdapterHelpers
  import opened DeviceAdapter
  import opened ReadBack
  import opened SafeOutputs
  import RlhtAdapter
  import DcmtAdapter

  /** Traffic without commands leaves a ready device and its outputs as they are. */
  lemma QuietKeepsOutputs(w: World, w': World, d: InventoryDevice)
    requires Moves(w, w', iset{}) && Ready(w, d)
    ensures Ready(w', d) && OutputsAt(w', d) == OutputsAt(w, d)
  {
    assert FramesTo(iset{}, d.address) == iset{};
    QuietOutputs(w.bus.devices[d.address], w'.bus.devices[d.address]);
  }

  lemma AppliedOnce(env: Env, w: World, d: InventoryDevice, f: Frame)
    requires Ready(w, d) && env.retry <= MAX_SAFE_RETRIES && !Confirmation(d).Unconfirmed?
    ensures var (w', r) := TransmitConfirmed(env, w, d, f);
            r.ok ==> Ready(w', d) && OutputsAt(w', d) == Act(TypeId(d.deviceType), OutputsAt(w, d), f)
  {
    var k := ConfirmedSetMeaning(env, w, d, f);
    AccountsOutputs(w, TransmitConfirmed(env, w, d, f).0, d.address, f, k);
    assert |k| == 1 ==> k[..0] == [];
  }

  lemma TransmitApplies(env: Env, w: World, d: InventoryDevice, f: Frame)
    requires Ready(w, d) && env.retry <= MAX_SAFE_RETRIES && !Confirmation(d).Unconfirmed?
    ensures var (w', r) := Transmit(env, w, d, f);
            r.ok ==> Ready(w', d) && OutputsAt(w', d) == Act(TypeId(d.deviceType), OutputsAt(w, d), f)
  {
    match d.deviceType {
      case Rlht => AppliedOnce(env, w, d, f);
      case Dcmt =>
        var w1 := DcmtAdapter.ReadBrakes(env, w, d, f).0;
        MovesRefl(w, iset{});
        PerformMoves(env, w, d.address, QueryFor(DCMT_OP_GET_STATE), iset{});
        QuietKeepsOutputs(w, w1, d);
        AppliedOnce(env, w1, d, f);
    }
  }

  /** The call answers OK, and `w2` is reached from it without another command. */
  ghost predicate AnswersOk(env: Env, w: World, d: InventoryDevice, functionId: nat, args: Args, w2: World) {
    var (w1, r) := Call(env, w, true, d, functionId, args);
    r.ok && Moves(w1, w2, iset{})
  }

  /**
   A call that answers OK has changed the outputs by its one frame, applied once; a later read,
   before another command, returns the requested signals of exactly those outputs.
   */
  lemma AppliedCallReadsBack(
    env: Env, w: World, d: InventoryDevice, functionId: nat, args: Args, later: Env, w2: World, ids: seq<SignalId>)
    requires Ready(w, d) && env.retry <= MAX_SAFE_RETRIES && !Confirmation(d).Unconfirmed?
    ensures var t := d.deviceType;
            var e := Encode(t, functionId, args);
            var r := ReadSignals(later, w2, d, ids).1;
            AnswersOk(env, w, d, functionId, args, w2) ==>
              && e.Encoded?
              && (r.ok ==>
                    && r.values == Select(Observed(t, Act(TypeId(t), OutputsAt(w, d), e.frame)), ids, Defaults(t))
                    && (t.Dcmt? ==> Act(TypeId(t), OutputsAt(w, d), e.frame).dcmtMode == DCMT_MODE_OPEN_LOOP))
  {
    if AnswersOk(env, w, d, functionId, args, w2) {
      TransmitApplies(env, w, d, Encode(d.deviceType, functionId, args).frame);
      QuietKeepsOutputs(Call(env, w, true, d, functionId, args).0, w2, d);
      ReadObserves(later, w2, d, ids);
    }
  }

  // ----- Motors ------------------------------------------------------------------------------

  /** The signal shows the PWM the call asked for. */
  predicate ShowsPwm(args: Args, s: Signal) {
    && (s.id.Motor1Target? || s.id.Motor1Value? ==>
          "motor1_pwm" in args && s == Signal(s.id, args["motor1_pwm"], QualityOk))
    && (s.id.Motor2Target? || s.id.Motor2Value? ==>
          "motor2_pwm" in args && s == Signal(s.id, args["motor2_pwm"], QualityOk))
  }

  lemma ObservedPwm(o: Outputs, args: Args, s: Signal)
    requires "motor1_pwm" in args && args["motor1_pwm"] == IntV(o.pwm1)
    requires "motor2_pwm" in args && args["motor2_pwm"] == IntV(o.pwm2)
    requires s in Observed(Dcmt, o)
    ensures ShowsPwm(args, s)
  {
  }

  /** Every PWM pair an answered `set_open_loop` carried, negatives included, reads back exactly. */
  lemma PwmCallReadsBack(
    env: Env, w: World, d: InventoryDevice, args: Args, later: Env, w2: World, ids: seq<SignalId>)
    requires Ready(w, d) && env.retry <= MAX_SAFE_RETRIES && !Confirmation(d).Unconfirmed? && d.deviceType.Dcmt?
    ensures var r := ReadSignals(later, w2, d, ids).1;
            AnswersOk(env, w, d, 1, args, w2) && r.ok ==> forall s | s in r.values :: ShowsPwm(args, s)
  {
    AppliedCallReadsBack(env, w, d, 1, args, later, w2, ids);
    PwmRoundTrip(OutputsAt(w, d), args);
    var r := ReadSignals(later, w2, d, ids).1;
    if AnswersOk(env, w, d, 1, args, w2) && r.ok {
      var o := Act(DCMT_TYPE_ID, OutputsAt(w, d), Encode(Dcmt, 1, args).frame);
      forall s | s in r.values ensures ShowsPwm(args, s) {
        ObservedPwm(o, args, s);
      }
    }
  }

  // ----- Heaters -----------------------------------------------------------------------------

  predicate ShowsSetpoints(sp1: real, sp2: real, s: Signal) {
    && (s.id.Setpoint1C? ==> SetpointReadsBack(sp1, s))
    && (s.id.Setpoint2C? ==> SetpointReadsBack(sp2, s))
  }

  lemma LegalSetpoints(sp1: real, sp2: real)
    requires Encode(Rlht, 2, Setpoints(sp1, sp2)).Encoded?
    ensures RlhtAdapter.MIN_SETPOINT_C <= sp1 <= RlhtAdapter.MAX_SETPOINT_C
    ensures RlhtAdapter.MIN_SETPOINT_C <= sp2 <= RlhtAdapter.MAX_SETPOINT_C
  {
  }

  lemma SetpointsAmong(o: Outputs, sp1: real, sp2: real, s: Signal)
    requires SetpointReadsBack(sp1, Observed(Rlht, o)[3]) && SetpointReadsBack(sp2, Observed(Rlht, o)[4])
    requires s in Observed(Rlht, o)
    ensures ShowsSetpoints(sp1, sp2, s)
  {
  }

  lemma ObservedSetpoints(o: Outputs, sp1: real, sp2: real, s: Signal)
    requires var e := Encode(Rlht, 2, Setpoints(sp1, sp2));
             e.Encoded? && s in Observed(Rlht, Act(RLHT_TYPE_ID, o, e.frame))
    ensures ShowsSetpoints(sp1, sp2, s)
  {
    LegalSetpoints(sp1, sp2);
    SetpointRoundTrip(o, sp1, sp2);
    SetpointsAmong(Act(RLHT_TYPE_ID, o, Encode(Rlht, 2, Setpoints(sp1, sp2)).frame), sp1, sp2, s);
  }

  /** Setpoints read back within 0.05 C, or as FAULT from -3276.75 C down, where they meet the sentinel. */
  lemma SetpointCallReadsBack(
    env: Env, w: World, d: InventoryDevice, sp1: real, sp2: real, later: Env, w2: World, ids: seq<SignalId>)
    requires Ready(w, d) && env.retry <= MAX_SAFE_RETRIES && !Confirmation(d).Unconfirmed? && d.deviceType.Rlht?
    ensures var r := ReadSignals(later, w2, d, ids).1;
            AnswersOk(env, w, d, 2, Setpoints(sp1, sp2), w2) && r.ok ==>
              forall s | s in r.values :: ShowsSetpoints(sp1, sp2, s)
  {
    var args := Setpoints(sp1, sp2);
    AppliedCallReadsBack(env, w, d, 2, args, later, w2, ids);
    var r := ReadSignals(later, w2, d, ids).1;
    if AnswersOk(env, w, d, 2, args, w2) && r.ok {
      forall s | s in r.values ensures ShowsSetpoints(sp1, sp2, s) {
        ObservedSetpoints(OutputsAt(w, d), sp1, sp2, s);
      }
    }
  }

  predicate ShowsThermocouples(args: Args, s: Signal) {
    && (s.id.Channel1Thermocouple? ==>
          "channel1_thermocouple" in args && s == Signal(s.id, args["channel1_thermocouple"], QualityOk))
    && (s.id.Channel2Thermocouple? ==>
          "channel2_thermocouple" in args && s == Signal(s.id, args["channel2_thermocouple"], QualityOk))
  }

  lemma ObservedThermocouples(o: Outputs, args: Args, s: Signal)
    requires var e := Encode(Rlht, 5, args); e.Encoded? && s in Observed(Rlht, Act(RLHT_TYPE_ID, o, e.frame))
    ensures ShowsThermocouples(args, s)
  {
    ThermocoupleRoundTrip(o, args);
  }

  /** Thermocouple selections read back exactly. */
  lemma ThermocoupleCallReadsBack(
    env: Env, w: World, d: InventoryDevice, args: Args, later: Env, w2: World, ids: seq<SignalId>)
    requires Ready(w, d) && env.retry <= MAX_SAFE_RETRIES && !Confirmation(d).Unconfirmed? && d.deviceType.Rlht?
    ensures var r := ReadSignals(later, w2, d, ids).1;
            AnswersOk(env, w, d, 5, args, w2) && r.ok ==> forall s | s in r.values :: ShowsThermocouples(args, s)
  {
    AppliedCallReadsBack(env, w, d, 5, args, later, w2, ids);
    var r := ReadSignals(later, w2, d, ids).1;
    if AnswersOk(env, w, d, 5, args, w2) && r.ok {
      forall s | s in r.values ensures ShowsThermocouples(args, s) {
        ObservedThermocouples(OutputsAt(w, d), args, s);
      }
    }
  }
}
