/**
 Driving a device's outputs safe. No failure keeps a later step from being tried, and a drive
 that reports success leaves outputs that read back safe.
 */
module SafeOutputs {
  import opened Bytes
  import opened Protocol
  import opened CannedDevice
  import opened SessionModel
  import opened Capabilities
  import opened Footprint
  import opened SetConfirm
  import opened ExactlyOnce
  import opened AdapterHelpers
  import opened DeviceAdapter
  import opened ReadBack
  import DcmtAdapter

  datatype Step = Step(functionId: nat, name: string, args: Args)

  /** `safe_output_steps` */
  function Steps(t: DeviceType): seq<Step> {
    match t
    case Rlht =>
      [ Step(2, "set_setpoints", map["setpoint1_c" := RealV(0.0), "setpoint2_c" := RealV(0.0)]),
        Step(1, "set_mode", map["mode" := StringV("open_loop")]),
        Step(6, "set_open_duty_pct", map["duty1_pct" := UintV(0), "duty2_pct" := UintV(0)]) ]
    case Dcmt =>
      [ Step(3, "set_mode", map["mode" := StringV("open_loop")]),
        Step(1, "set_open_loop", map["motor1_pwm" := IntV(0), "motor2_pwm" := IntV(0)]) ]
  }

  /** The frames those steps encode to. */
  function SafeFrame(t: DeviceType, i: nat): Frame
    requires i < |Steps(t)|
  {
    match t
    case Rlht =>
      if i == 0 then Frame(RLHT_TYPE_ID, RLHT_OP_SET_SETPOINTS, [0, 0, 0, 0])
      else if i == 1 then Frame(RLHT_TYPE_ID, RLHT_OP_SET_MODE, [RLHT_MODE_OPEN_LOOP])
      else Frame(RLHT_TYPE_ID, RLHT_OP_SET_OPEN_DUTY, [0, 0])
    case Dcmt =>
      if i == 0 then Frame(DCMT_TYPE_ID, DCMT_OP_SET_MODE, [DCMT_MODE_OPEN_LOOP])
      else Frame(DCMT_TYPE_ID, DCMT_OP_SET_OPEN_LOOP, [0, 0, 0, 0])
  }

  ghost predicate IsSafeFrame(t: DeviceType, f: Frame) {
    exists i :: 0 <= i < |Steps(t)| && f == SafeFrame(t, i)
  }

  ghost function SafeSends(d: InventoryDevice): Sends {
    iset p: (byte, Frame) | p.0 == d.address && IsSafeFrame(d.deviceType, p.1)
  }

  /** Outcome of a drive: the steps that failed. */
  datatype Driven = Driven(world: World, failures: seq<nat>)

  /** Steps number `i` and after of `n`, with `failures` so far, where `send` sends one. */
  function DriveWith(send: (World, nat) -> (World, bool), n: nat, w: World, i: nat, failures: seq<nat>): Driven
    requires i <= n
    decreases n - i
  {
    if i == n then Driven(w, failures)
    else
      var (w', ok) := send(w, i);
      DriveWith(send, n, w', i + 1, if ok then failures else failures + [i])
  }

  function SendStep(env: Env, d: InventoryDevice): (World, nat) -> (World, bool) {
    (w: World, i: nat) =>
      if i < |Steps(d.deviceType)| then
        var step := Steps(d.deviceType)[i];
        var (w', sent) := Call(env, w, true, d, step.functionId, step.args);
        (w', sent.ok)
      else (w, true)
  }

  function DriveFrom(env: Env, w: World, d: InventoryDevice, i: nat, failures: seq<nat>): Driven
    requires i <= |Steps(d.deviceType)|
  {
    DriveWith(SendStep(env, d), |Steps(d.deviceType)|, w, i, failures)
  }

  /** `drive` */
  function Drive(env: Env, w: World, d: InventoryDevice): Driven {
    DriveFrom(env, w, d, 0, [])
  }

  // ----- Footprint ---------------------------------------------------------------------------

  /** A safe step passes every gate: its call is the confirmed SET of its frame. */
  lemma SafeStepIsConfirmed(env: Env, w: World, d: InventoryDevice, i: nat)
    requires i < |Steps(d.deviceType)|
    ensures var step := Steps(d.deviceType)[i];
            Call(env, w, true, d, step.functionId, step.args)
            == TransmitConfirmed(env, w, d, SafeFrame(d.deviceType, i))
  {
    var t := d.deviceType;
    var step := Steps(t)[i];
    assert RoundHalfAway(0.0) == 0;
    assert I16Le(0) == [0, 0];
    assert Encode(t, step.functionId, step.args) == Encoded(SafeFrame(t, i));
    if t.Dcmt? {
      DcmtAdapter.ZeroCommandSkipsBrakes(env, w, d, SafeFrame(t, i));
    }
  }

  lemma StepMoves(env: Env, w: World, d: InventoryDevice, i: nat, s: Sends)
    requires SafeSends(d) <= s
    ensures Moves(w, SendStep(env, d)(w, i).0, s)
  {
    MovesRefl(w, s);
    if i < |Steps(d.deviceType)| {
      var f := SafeFrame(d.deviceType, i);
      assert IsSafeFrame(d.deviceType, f);
      assert (d.address, f) in SafeSends(d);
      SafeStepIsConfirmed(env, w, d, i);
      SetConfirm.TransmitMoves(env, w, d, f, s);
    }
  }

  lemma {:induction false} DriveWithMoves(
    send: (World, nat) -> (World, bool), n: nat, w: World, i: nat, failures: seq<nat>, s: Sends)
    requires i <= n && forall x: World, k: nat :: Moves(x, send(x, k).0, s)
    ensures Moves(w, DriveWith(send, n, w, i, failures).world, s)
    decreases n - i
  {
    MovesRefl(w, s);
    if i < n {
      var (w', ok) := send(w, i);
      var failures' := if ok then failures else failures + [i];
      DriveWithMoves(send, n, w', i + 1, failures', s);
      MovesTrans(w, w', DriveWith(send, n, w', i + 1, failures').world, s);
    }
  }

  lemma DriveMoves(env: Env, w: World, d: InventoryDevice, s: Sends)
    requires SafeSends(d) <= s
    ensures Moves(w, Drive(env, w, d).world, s)
  {
    forall x: World, k: nat ensures Moves(x, SendStep(env, d)(x, k).0, s) {
      StepMoves(env, x, d, k, s);
    }
    DriveWithMoves(SendStep(env, d), |Steps(d.deviceType)|, w, 0, [], s);
  }

  // ----- What each step does -----------------------------------------------------------------

  /** Step `i` has taken effect in these outputs. */
  predicate StepDone(t: DeviceType, i: nat, o: Outputs) {
    match t
    case Rlht =>
      if i == 0 then o.sp1 == 0 && o.sp2 == 0
      else if i == 1 then o.rlhtMode == RLHT_MODE_OPEN_LOOP
      else o.on1 == 0 && o.on2 == 0
    case Dcmt =>
      if i == 0 then o.dcmtMode == DCMT_MODE_OPEN_LOOP
      else o.pwm1 == 0 && o.pwm2 == 0
  }

  lemma SafeFrameActs(t: DeviceType, i: nat, j: nat, o: Outputs)
    requires i < |Steps(t)| && j < |Steps(t)|
    ensures StepDone(t, i, Act(TypeId(t), o, SafeFrame(t, i)))
    ensures StepDone(t, j, o) ==> StepDone(t, j, Act(TypeId(t), o, SafeFrame(t, i)))
  {
  }

  lemma {:induction false} SafeFramesKeep(t: DeviceType, j: nat, o: Outputs, k: seq<Entry>)
    requires j < |Steps(t)| && StepDone(t, j, o)
    requires forall e | e in k :: IsSafeFrame(t, e.frame)
    ensures StepDone(t, j, Replay(TypeId(t), o, k))
  {
    if k != [] {
      var last := k[|k| - 1];
      SafeFramesKeep(t, j, o, k[..|k| - 1]);
      assert IsSafeFrame(t, last.frame);
      var i :| 0 <= i < |Steps(t)| && last.frame == SafeFrame(t, i);
      SafeFrameActs(t, i, j, Replay(TypeId(t), o, k[..|k| - 1]));
    }
  }

  /** The device a drive talks to: present, of the type the inventory says, record intact. */
  predicate Ready(w: World, d: InventoryDevice) {
    && d.address in w.bus.devices
    && w.bus.devices[d.address].typeId == TypeId(d.deviceType)
    && Consistent(w.bus.devices[d.address])
  }

  function OutputsAt(w: World, d: InventoryDevice): Outputs
    requires Ready(w, d)
  {
    w.bus.devices[d.address].out
  }

  /** One step: if it answered OK it has taken effect, and it undoes no other. */
  predicate Effective(d: InventoryDevice, w: World, i: nat, out: (World, bool), j: nat) {
    && Ready(w, d) && Ready(out.0, d)
    && (out.1 ==> StepDone(d.deviceType, i, OutputsAt(out.0, d)))
    && (StepDone(d.deviceType, j, OutputsAt(w, d)) ==> StepDone(d.deviceType, j, OutputsAt(out.0, d)))
  }

  lemma SetEffect(env: Env, w: World, d: InventoryDevice, i: nat, j: nat)
    requires i < |Steps(d.deviceType)| && j < |Steps(d.deviceType)| && Ready(w, d)
    requires env.retry <= MAX_SAFE_RETRIES && !Confirmation(d).Unconfirmed?
    ensures var (w', r) := TransmitConfirmed(env, w, d, SafeFrame(d.deviceType, i)); Effective(d, w, i, (w', r.ok), j)
  {
    var f := SafeFrame(d.deviceType, i);
    var k := ConfirmedSetMeaning(env, w, d, f);
    AccountsOutputs(w, TransmitConfirmed(env, w, d, f).0, d.address, f, k);
    FrameEffect(d.deviceType, i, j, OutputsAt(w, d), k);
  }

  lemma StepEffect(env: Env, w: World, d: InventoryDevice, i: nat, j: nat)
    requires i < |Steps(d.deviceType)| && j < |Steps(d.deviceType)| && Ready(w, d)
    requires env.retry <= MAX_SAFE_RETRIES && !Confirmation(d).Unconfirmed?
    ensures Effective(d, w, i, SendStep(env, d)(w, i), j)
  {
    SafeStepIsConfirmed(env, w, d, i);
    SetEffect(env, w, d, i, j);
  }

  lemma FrameEffect(t: DeviceType, i: nat, j: nat, o: Outputs, k: seq<Entry>)
    requires i < |Steps(t)| && j < |Steps(t)| && forall n | 0 <= n < |k| :: k[n].frame == SafeFrame(t, i)
    ensures k == [Entry(SafeFrame(t, i), Apply)] ==> StepDone(t, i, Replay(TypeId(t), o, k))
    ensures StepDone(t, j, o) ==> StepDone(t, j, Replay(TypeId(t), o, k))
  {
    if k == [Entry(SafeFrame(t, i), Apply)] {
      assert k[..0] == [];
      SafeFrameActs(t, i, i, o);
    }
    if StepDone(t, j, o) {
      assert IsSafeFrame(t, SafeFrame(t, i));
      SafeFramesKeep(t, j, o, k);
    }
  }

  lemma {:induction false} DriveWithEffect(
    send: (World, nat) -> (World, bool), d: InventoryDevice, w: World, i: nat, failures: seq<nat>, j: nat)
    requires i <= |Steps(d.deviceType)| && j < |Steps(d.deviceType)| && Ready(w, d)
    requires forall x: World, k: nat | Ready(x, d) && k < |Steps(d.deviceType)| :: Effective(d, x, k, send(x, k), j)
    ensures var r := DriveWith(send, |Steps(d.deviceType)|, w, i, failures);
            && Ready(r.world, d)
            && failures <= r.failures
            && (StepDone(d.deviceType, j, OutputsAt(w, d)) || (i <= j && j !in r.failures) ==>
                  StepDone(d.deviceType, j, OutputsAt(r.world, d)))
    decreases |Steps(d.deviceType)| - i
  {
    if i < |Steps(d.deviceType)| {
      var (w', ok) := send(w, i);
      assert Effective(d, w, i, (w', ok), j);
      var failures' := if ok then failures else failures + [i];
      assert !ok ==> i in failures';
      DriveWithEffect(send, d, w', i + 1, failures', j);
    }
  }

  /** Any step absent from the failure list has taken effect by the end of the drive. */
  lemma DriveEffect(env: Env, w: World, d: InventoryDevice, j: nat)
    requires j < |Steps(d.deviceType)| && Ready(w, d)
    requires env.retry <= MAX_SAFE_RETRIES && !Confirmation(d).Unconfirmed?
    ensures var r := Drive(env, w, d);
            && Ready(r.world, d)
            && (j !in r.failures || StepDone(d.deviceType, j, OutputsAt(w, d)) ==>
                  StepDone(d.deviceType, j, OutputsAt(r.world, d)))
  {
    forall x: World, k: nat | Ready(x, d) && k < |Steps(d.deviceType)|
      ensures Effective(d, x, k, SendStep(env, d)(x, k), j)
    {
      StepEffect(env, x, d, k, j);
    }
    DriveWithEffect(SendStep(env, d), d, w, 0, [], j);
  }

  /** A signal that shows safe outputs. */
  predicate ShowsSafe(t: DeviceType, s: Signal) {
    && (s.id.Mode? ==> s == Signal(Mode, StringV("open_loop"), QualityOk))
    && match t
       case Rlht =>
         && (s.id.Setpoint1C? || s.id.Setpoint2C? ==> s.value == RealV(0.0) && s.quality.QualityOk?)
         && (s.id.Relay1On? || s.id.Relay2On? ==> s.value == BoolV(false))
       case Dcmt =>
         s.id.Motor1Target? || s.id.Motor2Target? || s.id.Motor1Value? || s.id.Motor2Value? ==> s.value == IntV(0)
  }

  /** Every step has taken effect. */
  predicate Safe(t: DeviceType, o: Outputs) {
    forall j | 0 <= j < |Steps(t)| :: StepDone(t, j, o)
  }

  lemma SafeShowsRlht(o: Outputs, s: Signal)
    requires StepDone(Rlht, 0, o) && StepDone(Rlht, 1, o) && StepDone(Rlht, 2, o) && s in Observed(Rlht, o)
    ensures ShowsSafe(Rlht, s)
  {
  }

  lemma SafeShowsDcmt(o: Outputs, s: Signal)
    requires StepDone(Dcmt, 0, o) && StepDone(Dcmt, 1, o) && s in Observed(Dcmt, o)
    ensures ShowsSafe(Dcmt, s)
  {
  }

  lemma SafeShows(t: DeviceType, o: Outputs, s: Signal)
    requires Safe(t, o) && s in Observed(t, o)
    ensures ShowsSafe(t, s)
  {
    assert StepDone(t, 0, o) && StepDone(t, 1, o);
    match t {
      case Rlht =>
        assert StepDone(t, 2, o);
        SafeShowsRlht(o, s);
      case Dcmt => SafeShowsDcmt(o, s);
    }
  }

  /** For any faults, a drive that reports no failure leaves the outputs safe. */
  lemma DriveOkIsSafe(env: Env, w: World, d: InventoryDevice)
    requires Ready(w, d) && env.retry <= MAX_SAFE_RETRIES && !Confirmation(d).Unconfirmed?
    ensures var r := Drive(env, w, d);
            Ready(r.world, d) && (r.failures == [] ==> Safe(d.deviceType, OutputsAt(r.world, d)))
  {
    var r := Drive(env, w, d);
    DriveEffect(env, w, d, 0);
    if r.failures == [] {
      forall j | 0 <= j < |Steps(d.deviceType)| ensures StepDone(d.deviceType, j, OutputsAt(r.world, d)) {
        DriveEffect(env, w, d, j);
      }
    }
  }

  lemma SafeReadsSafe(env: Env, w: World, d: InventoryDevice, ids: seq<SignalId>)
    requires Ready(w, d) && Safe(d.deviceType, OutputsAt(w, d))
    ensures var r := ReadSignals(env, w, d, ids).1;
            r.ok ==> forall s | s in r.values :: ShowsSafe(d.deviceType, s)
  {
    ReadObserves(env, w, d, ids);
    var r := ReadSignals(env, w, d, ids).1;
    if r.ok {
      forall s | s in r.values ensures ShowsSafe(d.deviceType, s) {
        SafeShows(d.deviceType, OutputsAt(w, d), s);
      }
    }
  }

  /**
   End to end: for any faults, a drive that reports no failure leaves the device so that any later
   successful read, before another command, shows open loop with both motors at zero (DCMT), or
   setpoints zero, open loop and both relays off (RLHT).
   */
  lemma SafeOutputsReadBack(env: Env, w: World, d: InventoryDevice, later: Env, w'': World, ids: seq<SignalId>)
    requires Ready(w, d) && env.retry <= MAX_SAFE_RETRIES && !Confirmation(d).Unconfirmed?
    ensures var driven := Drive(env, w, d);
            var r := ReadSignals(later, w'', d, ids).1;
            driven.failures == [] && Moves(driven.world, w'', iset{}) && r.ok ==>
              forall s | s in r.values :: ShowsSafe(d.deviceType, s)
  {
    var driven := Drive(env, w, d);
    DriveOkIsSafe(env, w, d);
    if driven.failures == [] && Moves(driven.world, w'', iset{}) {
      assert FramesTo(iset{}, d.address) == iset{};
      QuietOutputs(driven.world.bus.devices[d.address], w''.bus.devices[d.address]);
      SafeReadsSafe(later, w'', d, ids);
    }
  }

  // ----- Every step is attempted -------------------------------------------------------------

  lemma {:induction false} AttemptsLog(tape: seq<Link>, b: Bus, log: seq<Attempt>, a: byte, op: Op, n: nat, max: nat)
    requires n <= max
    ensures log + [Attempt(a, op)] <= Attempts(tape, b, log, a, op, n, max).log
    decreases max - n
  {
    var t := TryOnce(tape, b, a, op);
    if !Final(t, n, max) {
      AttemptsLog(tape, t.bus, log + [Attempt(a, op)], a, op, n + 1, max);
    }
  }

  /** A session operation that passes the checks reaches the transport. */
  lemma PerformAttempts(env: Env, w: World, a: byte, op: Op)
    requires Refusal(w, a, op).None?
    ensures w.log + [Attempt(a, op)] <= Perform(env, w, a, op).world.log
    ensures op.SendFrame? ==> SentBetween(w, Perform(env, w, a, op).world, a, op.frame)
  {
    AttemptsLog(env.tape, w.bus, w.log, a, op, 1, MaxAttempts(env.retry));
    assert Perform(env, w, a, op).world.log[|w.log|] == Attempt(a, op);
  }

  lemma SentEarlier(w: World, w1: World, w2: World, a: byte, f: Frame)
    requires SentBetween(w, w1, a, f) && w1.log <= w2.log
    ensures SentBetween(w, w2, a, f)
  {
    var n :| |w.log| <= n < |w1.log| && w1.log[n] == Attempt(a, SendFrame(f));
    assert w2.log[n] == w1.log[n];
  }

  lemma SentLater(w: World, w1: World, w2: World, a: byte, f: Frame)
    requires SentBetween(w1, w2, a, f) && w.log <= w1.log
    ensures SentBetween(w, w2, a, f)
  {
  }

  lemma RepeatSends(round: World -> (World, Round), w: World, sent: nat, a: byte, f: Frame, s: Sends)
    requires forall x: World :: Moves(x, round(x).0, s)
    requires SentBetween(w, round(w).0, a, f)
    ensures SentBetween(w, Repeat(round, w, sent).0, a, f)
  {
    var (w', r) := round(w);
    if Resends(r) && sent < CONFIRMED_SENDS {
      RepeatMoves(round, w', sent + 1, s);
      SentEarlier(w, w', Repeat(round, w', sent + 1).0, a, f);
    }
  }

  lemma RoundSends(env: Env, w: World, a: byte, f: Frame, before: AckRecord)
    requires Refusal(w, a, SendFrame(f)).None?
    ensures SentBetween(w, RunRound(env, w, a, f, before).0, a, f)
  {
    var sent := Perform(env, w, a, SendFrame(f)).world;
    PerformAttempts(env, w, a, SendFrame(f));
    ReadAckMoves(env, sent, a, 0, iset{});
    SentEarlier(w, sent, ReadAck(env, sent, a, 0).0, a, f);
  }

  lemma RoundsSend(env: Env, w: World, a: byte, f: Frame, before: AckRecord)
    requires Refusal(w, a, SendFrame(f)).None?
    ensures SentBetween(w, Rounds(env, w, a, f, before, 1).0, a, f)
  {
    var round := RoundOf(env, a, f, before);
    forall x: World ensures Moves(x, round(x).0, iset{(a, f)}) {
      RoundMoves(env, x, a, f, before, iset{(a, f)});
    }
    RoundSends(env, w, a, f, before);
    RepeatSends(round, w, 1, a, f, iset{(a, f)});
  }

  lemma ReadAckAttempts(env: Env, w: World, a: byte)
    requires Refusal(w, a, QueryFor(OP_GET_ACK)).None?
    ensures w.log < ReadAck(env, w, a, 0).0.log
  {
    var p := Perform(env, w, a, QueryFor(OP_GET_ACK));
    PerformAttempts(env, w, a, QueryFor(OP_GET_ACK));
    if p.status.Ok() && p.reply.Some? && AckDecode(p.reply.value).None? {
      ReadAckMoves(env, Rejected(p.world, a), a, 1, iset{});
    }
  }

  /** What a call that reached the session did: it sent the frame, or gave up on the baseline it tried to read. */
  predicate Attempted(w: World, out: (World, CallResult), a: byte, f: Frame) {
    w.log < out.0.log && out.0.open == w.open && (SentBetween(w, out.0, a, f) || out.1.note.NotSent?)
  }

  /** A confirmed SET on an open session sends its frame, or tried to read the baseline and says "not sent". */
  lemma TransmitAttempts(env: Env, w: World, d: InventoryDevice, f: Frame)
    requires w.open && ValidAddress(d.address) && |f.payload| <= MAX_PAYLOAD
    ensures Attempted(w, TransmitConfirmed(env, w, d, f), d.address, f)
  {
    var a := d.address;
    SetConfirm.TransmitMoves(env, w, d, f, iset{(a, f)});
    if Confirmation(d).Unconfirmed? {
      PerformAttempts(env, w, a, SendFrame(f));
    } else {
      var (w1, before) := ReadAck(env, w, a, 0);
      ReadAckAttempts(env, w, a);
      ReadAckMoves(env, w, a, 0, iset{});
      if before.Some? {
        RoundsSend(env, w1, a, f, before.value);
        SentLater(w, w1, Rounds(env, w1, a, f, before.value, 1).0, a, f);
      }
    }
  }

  // ----- The steps of a drive, one by one ----------------------------------------------------

  /** The world before step `i`. */
  function Before(send: (World, nat) -> (World, bool), w: World, i: nat): World {
    if i == 0 then w else send(Before(send, w, i - 1), i - 1).0
  }

  /** The steps among the first `n` that failed, in order. */
  function Failing(send: (World, nat) -> (World, bool), w: World, n: nat): seq<nat> {
    if n == 0 then []
    else Failing(send, w, n - 1) + if send(Before(send, w, n - 1), n - 1).1 then [] else [n - 1]
  }

  lemma {:induction false} DriveIsSteps(send: (World, nat) -> (World, bool), n: nat, w: World, i: nat)
    requires i <= n
    ensures DriveWith(send, n, Before(send, w, i), i, Failing(send, w, i))
            == Driven(Before(send, w, n), Failing(send, w, n))
    decreases n - i
  {
    if i < n {
      DriveIsSteps(send, n, w, i + 1);
      assert Failing(send, w, i) + [] == Failing(send, w, i);
    }
  }

  lemma {:induction false} FailingMembers(send: (World, nat) -> (World, bool), w: World, n: nat, i: nat)
    ensures i in Failing(send, w, n) <==> i < n && !send(Before(send, w, i), i).1
  {
    if n > 0 {
      FailingMembers(send, w, n - 1, i);
    }
  }

  lemma {:induction false} BeforeIsOpen(env: Env, w: World, d: InventoryDevice, i: nat)
    ensures Before(SendStep(env, d), w, i).open == w.open
  {
    if i > 0 {
      BeforeIsOpen(env, w, d, i - 1);
      StepMoves(env, Before(SendStep(env, d), w, i - 1), d, i - 1, SafeSends(d));
    }
  }

  /**
   No failure stops a drive: every step is taken from the world the one before left, and reaches the
   transport there. It sends its frame, or tried to read the baseline and answers "not sent". The
   failure list holds exactly the steps that did not answer OK.
   */
  lemma EveryStepAttempted(env: Env, w: World, d: InventoryDevice, i: nat)
    requires w.open && ValidAddress(d.address) && i < |Steps(d.deviceType)|
    ensures var send, step := SendStep(env, d), Steps(d.deviceType)[i];
            var w0 := Before(send, w, i);
            var out := Call(env, w0, true, d, step.functionId, step.args);
            && Attempted(w0, out, d.address, SafeFrame(d.deviceType, i))
            && Before(send, w, i + 1) == out.0
            && Drive(env, w, d).world == Before(send, w, |Steps(d.deviceType)|)
            && (i in Drive(env, w, d).failures <==> !out.1.ok)
  {
    var send, n := SendStep(env, d), |Steps(d.deviceType)|;
    DriveIsSteps(send, n, w, 0);
    FailingMembers(send, w, n, i);
    BeforeIsOpen(env, w, d, i);
    SafeStepIsConfirmed(env, Before(send, w, i), d, i);
    TransmitAttempts(env, Before(send, w, i), d, SafeFrame(d.deviceType, i));
  }
}
