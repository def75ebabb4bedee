/**
 What each argument of a function becomes on the wire, by name and position, and which flags publish
 which function.
 */
module WireFormats {
  import opened Bytes
  import opened Protocol
  import opened Capabilities
  import opened AdapterHelpers
  import opened DeviceAdapter

  /** The payload of an accepted call. */
  function Payload(t: DeviceType, functionId: nat, args: Args): seq<byte>
    requires Encode(t, functionId, args).Encoded?
  {
    Encode(t, functionId, args).frame.payload
  }

  predicate Accepts(t: DeviceType, functionId: nat, args: Args) {
    Encode(t, functionId, args).Encoded?
  }

  /** The unsigned argument `key` stands in the byte at `off`. */
  predicate ByteIs(p: seq<byte>, off: nat, args: Args, key: string) {
    off < |p| && key in args && args[key] == UintV(p[off])
  }

  /** The unsigned argument `key` stands in the two bytes from `off`, low byte first. */
  predicate WordIs(p: seq<byte>, off: nat, args: Args, key: string) {
    off + 1 < |p| && key in args && args[key] == UintV((p[off] as int) + 0x100 * (p[off + 1] as int))
  }

  /** The signed argument `key` stands in the two bytes from `off`, in two's complement. */
  predicate SignedIs(p: seq<byte>, off: nat, args: Args, key: string) {
    key in args && args[key].IntV? && ReadI16(p, off) == Some(args[key].i)
  }

  /** The flag `key` stands in the byte at `off`, as 0 or 1. */
  predicate FlagIs(p: seq<byte>, off: nat, args: Args, key: string) {
    off < |p| && p[off] <= 1 && key in args && args[key] == BoolV(p[off] == 1)
  }

  // ----- RLHT --------------------------------------------------------------------------------

  lemma RlhtMode(args: Args)
    ensures Accepts(Rlht, 1, args) ==>
              "mode" in args && Payload(Rlht, 1, args) == [if args["mode"] == StringV("open_loop") then 1 else 0]
              && args["mode"] in {StringV("open_loop"), StringV("closed_loop")}
  {
  }

  lemma RlhtPid(args: Args)
    ensures Accepts(Rlht, 3, args) ==>
              var p := Payload(Rlht, 3, args);
              && |p| == 6
              && ByteIs(p, 0, args, "kp1_x10") && ByteIs(p, 1, args, "ki1_x10") && ByteIs(p, 2, args, "kd1_x10")
              && ByteIs(p, 3, args, "kp2_x10") && ByteIs(p, 4, args, "ki2_x10") && ByteIs(p, 5, args, "kd2_x10")
  {
    if Accepts(Rlht, 3, args) {
      assert forall i | 0 <= i < 6 :: GetUint(args, RLHT_GAINS[i]).Some?;
      assert RLHT_GAINS[0] == "kp1_x10" && RLHT_GAINS[1] == "ki1_x10" && RLHT_GAINS[2] == "kd1_x10";
      assert RLHT_GAINS[3] == "kp2_x10" && RLHT_GAINS[4] == "ki2_x10" && RLHT_GAINS[5] == "kd2_x10";
    }
  }

  lemma RlhtPeriods(args: Args)
    ensures Accepts(Rlht, 4, args) ==>
              var p := Payload(Rlht, 4, args);
              |p| == 4 && WordIs(p, 0, args, "period1_ms") && WordIs(p, 2, args, "period2_ms")
  {
  }

  lemma RlhtSelection(args: Args)
    ensures Accepts(Rlht, 5, args) ==>
              var p := Payload(Rlht, 5, args);
              |p| == 2 && ByteIs(p, 0, args, "channel1_thermocouple") && ByteIs(p, 1, args, "channel2_thermocouple")
  {
  }

  lemma RlhtDuty(args: Args)
    ensures Accepts(Rlht, 6, args) ==>
              var p := Payload(Rlht, 6, args);
              |p| == 2 && ByteIs(p, 0, args, "duty1_pct") && ByteIs(p, 1, args, "duty2_pct")
  {
  }

  /** A setpoint stands on the wire as the nearest tenth of a degree, halves away from zero. */
  predicate TenthsAre(p: seq<byte>, off: nat, args: Args, key: string) {
    && key in args && args[key].RealV? && ReadI16(p, off).Some?
    && var x, n := args[key].r * 10.0, ReadI16(p, off).value as real;
       -0.5 <= n - x <= 0.5 && (n - x == 0.5 ==> x > 0.0) && (n - x == -0.5 ==> x < 0.0)
  }

  lemma HalvesGoAway(x: real)
    ensures var n := RoundHalfAway(x) as real;
            -0.5 <= n - x <= 0.5 && (n - x == 0.5 ==> x > 0.0) && (n - x == -0.5 ==> x < 0.0)
  {
  }

  lemma RlhtSetpoints(args: Args)
    ensures Accepts(Rlht, 2, args) ==>
              var p := Payload(Rlht, 2, args);
              |p| == 4 && TenthsAre(p, 0, args, "setpoint1_c") && TenthsAre(p, 2, args, "setpoint2_c")
  {
    if Accepts(Rlht, 2, args) {
      var x1, x2 := args["setpoint1_c"].r * 10.0, args["setpoint2_c"].r * 10.0;
      PairReads(RoundHalfAway(x1), RoundHalfAway(x2));
      HalvesGoAway(x1);
      HalvesGoAway(x2);
    }
  }

  // ----- DCMT --------------------------------------------------------------------------------

  lemma PairReads(m1: int16, m2: int16)
    ensures var p := I16Le(m1) + I16Le(m2);
            |p| == 4 && ReadI16(p, 0) == Some(m1) && ReadI16(p, 2) == Some(m2)
  {
    I16RoundTrip([], m1, I16Le(m2));
    I16RoundTrip(I16Le(m1), m2, []);
    var p := I16Le(m1) + I16Le(m2);
    assert [] + I16Le(m1) + I16Le(m2) == p && I16Le(m1) + I16Le(m2) + [] == p;
  }

  lemma DcmtOpenLoop(args: Args)
    ensures Accepts(Dcmt, 1, args) ==>
              var p := Payload(Dcmt, 1, args);
              |p| == 4 && SignedIs(p, 0, args, "motor1_pwm") && SignedIs(p, 2, args, "motor2_pwm")
  {
    if Accepts(Dcmt, 1, args) {
      PairReads(args["motor1_pwm"].i, args["motor2_pwm"].i);
    }
  }

  lemma DcmtBrake(args: Args)
    ensures Accepts(Dcmt, 2, args) ==>
              var p := Payload(Dcmt, 2, args);
              |p| == 2 && FlagIs(p, 0, args, "motor1_brake") && FlagIs(p, 1, args, "motor2_brake")
  {
  }

  lemma DcmtMode(args: Args)
    ensures Accepts(Dcmt, 3, args) ==>
              && "mode" in args && |Payload(Dcmt, 3, args)| == 1
              && match Payload(Dcmt, 3, args)[0]
                 case 0 => args["mode"] == StringV("open_loop")
                 case 1 => args["mode"] == StringV("closed_position")
                 case 2 => args["mode"] == StringV("closed_speed")
                 case _ => false
  {
  }

  lemma DcmtSetpoint(args: Args)
    ensures Accepts(Dcmt, 4, args) ==>
              var p := Payload(Dcmt, 4, args);
              |p| == 4 && SignedIs(p, 0, args, "motor1_target") && SignedIs(p, 2, args, "motor2_target")
  {
    if Accepts(Dcmt, 4, args) {
      PairReads(args["motor1_target"].i, args["motor2_target"].i);
    }
  }

  /** The two PID functions differ in their first byte: 0 tunes the position loop, 1 the speed loop. */
  lemma DcmtPid(functionId: nat, args: Args)
    requires functionId == 5 || functionId == 7
    ensures Accepts(Dcmt, functionId, args) ==>
              var p := Payload(Dcmt, functionId, args);
              && |p| == 13 && p[0] == (if functionId == 5 then 0 else 1)
              && WordIs(p, 1, args, "kp1_x1000") && WordIs(p, 3, args, "ki1_x1000") && WordIs(p, 5, args, "kd1_x1000")
              && WordIs(p, 7, args, "kp2_x1000") && WordIs(p, 9, args, "ki2_x1000") && WordIs(p, 11, args, "kd2_x1000")
  {
    if Accepts(Dcmt, functionId, args) {
      assert forall i | 0 <= i < 6 :: GetUint(args, DCMT_GAINS[i]).Some?;
      assert DCMT_GAINS[0] == "kp1_x1000" && DCMT_GAINS[1] == "ki1_x1000" && DCMT_GAINS[2] == "kd1_x1000";
      assert DCMT_GAINS[3] == "kp2_x1000" && DCMT_GAINS[4] == "ki2_x1000" && DCMT_GAINS[5] == "kd2_x1000";
    }
  }

  /** Every function of a family has an opcode of its own, but for the two PID functions. */
  lemma OpcodesTellFunctions(t: DeviceType, m: nat, n: nat)
    requires 1 <= m < n <= 7
    ensures OpcodeOf(t, m) != OpcodeOf(t, n) || (t.Dcmt? && m == 5 && n == 7)
  {
  }

  // ----- Which flags publish which function --------------------------------------------------

  /** A function of this id and name is published for these flags. */
  ghost predicate Publishes(t: DeviceType, flags: Flags, id: nat, name: string) {
    exists f :: f in Published(t, flags) && f.id == id && f.name == name
  }

  predicate DistinctOffers(os: seq<Offer>) {
    forall i, j | 0 <= i < j < |os| :: os[i].spec.id != os[j].spec.id
  }

  lemma OfferedIff(os: seq<Offer>, k: nat)
    requires k < |os| && DistinctOffers(os)
    ensures (exists f :: f in Offered(os) && f.id == os[k].spec.id && f.name == os[k].spec.name) <==> os[k].offered
  {
    OfferedMembers(os, os[k].spec);
    if f :| f in Offered(os) && f.id == os[k].spec.id && f.name == os[k].spec.name {
      OfferedMembers(os, f);
      var i :| 0 <= i < |os| && os[i].offered && os[i].spec == f;
      assert i == k;
    }
  }

  lemma OffersAreDistinct(t: DeviceType, flags: Flags)
    ensures DistinctOffers(Offers(t, flags))
  {
  }

  lemma PublishesOffer(t: DeviceType, flags: Flags, k: nat)
    requires k < |Offers(t, flags)|
    ensures var o := Offers(t, flags)[k];
            Publishes(t, flags, o.spec.id, o.spec.name) <==> o.offered
  {
    OffersAreDistinct(t, flags);
    OfferedIff(Offers(t, flags), k);
  }

  lemma RlhtPublishes(flags: Flags)
    ensures Publishes(Rlht, flags, 1, "set_mode") <==> RLHT_CAP_MODE_CONTROL in flags
    ensures Publishes(Rlht, flags, 2, "set_setpoints") <==> RLHT_CAP_SETPOINT_CONTROL in flags
    ensures Publishes(Rlht, flags, 3, "set_pid_x10") <==> RLHT_CAP_PID_TUNING in flags
    ensures Publishes(Rlht, flags, 4, "set_periods_ms") <==> RLHT_CAP_PERIOD_CONTROL in flags
    ensures Publishes(Rlht, flags, 5, "set_tc_select") <==> RLHT_CAP_TC_SELECT in flags
    ensures Publishes(Rlht, flags, 6, "set_open_duty_pct") <==> RLHT_CAP_OPEN_DUTY_CONTROL in flags
    ensures Publishes(Rlht, flags, 7, "clear_watchdog_trip")
            <==> {RLHT_CAP_CMD_WATCHDOG, RLHT_CAP_CLEAR_WATCHDOG_TRIP} <= flags
  {
    PublishesOffer(Rlht, flags, 0);
    PublishesOffer(Rlht, flags, 1);
    PublishesOffer(Rlht, flags, 2);
    PublishesOffer(Rlht, flags, 3);
    PublishesOffer(Rlht, flags, 4);
    PublishesOffer(Rlht, flags, 5);
    PublishesOffer(Rlht, flags, 6);
  }

  lemma DcmtPublishes(flags: Flags)
    ensures Publishes(Dcmt, flags, 1, "set_open_loop") <==> DCMT_CAP_OPEN_LOOP_CONTROL in flags
    ensures Publishes(Dcmt, flags, 2, "set_brake") <==> DCMT_CAP_BRAKE_CONTROL in flags
    ensures Publishes(Dcmt, flags, 3, "set_mode")
            <==> DCMT_CAP_OPEN_LOOP_CONTROL in flags || DCMT_CAP_CLOSED_LOOP_POSITION in flags
                 || DCMT_CAP_CLOSED_LOOP_SPEED in flags
    ensures Publishes(Dcmt, flags, 4, "set_setpoint")
            <==> DCMT_CAP_CLOSED_LOOP_POSITION in flags || DCMT_CAP_CLOSED_LOOP_SPEED in flags
    ensures Publishes(Dcmt, flags, 5, "set_pid_x1000") <==> DCMT_CAP_PID_TUNING in flags
    ensures Publishes(Dcmt, flags, 7, "set_speed_pid_x1000") <==> {DCMT_CAP_PID_TUNING, DCMT_CAP_CLOSED_LOOP_SPEED} <= flags
    ensures Publishes(Dcmt, flags, 6, "clear_watchdog_trip")
            <==> {DCMT_CAP_CMD_WATCHDOG, DCMT_CAP_CLEAR_WATCHDOG_TRIP} <= flags
  {
    PublishesOffer(Dcmt, flags, 0);
    PublishesOffer(Dcmt, flags, 1);
    PublishesOffer(Dcmt, flags, 2);
    PublishesOffer(Dcmt, flags, 3);
    PublishesOffer(Dcmt, flags, 4);
    PublishesOffer(Dcmt, flags, 5);
    PublishesOffer(Dcmt, flags, 6);
  }
}
