/**
 A provider call and the read after it. The call ends by handling a recovery, so an OK call reads
 back only if no recovery drives the outputs safe behind it.
 */
module ProviderReadBack {
  import opened Bytes
  import opened Protocol
  import opened CannedDevice
  import opened SessionModel
  import opened Capabilities
  import opened Footprint
  import opened SetConfirm
  import opened AdapterHelpers
  import opened ReadBack
  import opened CallReadBack
  import opened SafeOutputs
  import opened Watchdog
  import opened RuntimeModel
  import opened SafeRuns
  import RetryBound
  import CleanDrive
  import DeviceAdapter
  import DcmtAdapter

  // ----- Arming changes nothing a read shows -------------------------------------------------

  predicate SameButWatchdog(o: Outputs, o': Outputs) {
    o' == o.(wdTimeout := o'.wdTimeout)
  }

  lemma {:induction false} ArmingReplays(typeId: byte, o: Outputs, k: seq<Entry>)
    requires forall i | 0 <= i < |k| :: k[i].frame.opcode == OP_SET_WATCHDOG
    ensures SameButWatchdog(o, Replay(typeId, o, k))
  {
    if k != [] {
      ArmingReplays(typeId, o, k[..|k| - 1]);
    }
  }

  lemma ArmKeepsOutputs(env: Env, w: World, d: InventoryDevice)
    requires Ready(w, d)
    ensures Ready(Arm(env, w, d), d) && SameButWatchdog(OutputsAt(w, d), OutputsAt(Arm(env, w, d), d))
  {
    var w' := Arm(env, w, d);
    ArmMoves(env, w, d, ArmSends(d));
    MovesKeepReady(w, w', ArmSends(d), d);
    var dev, dev' := w.bus.devices[d.address], w'.bus.devices[d.address];
    assert Grows(dev, dev', FramesTo(ArmSends(d), d.address));
    var k := dev'.journal[|dev.journal|..];
    forall i | 0 <= i < |k| ensures k[i].frame.opcode == OP_SET_WATCHDOG {
      assert k[i] == dev'.journal[|dev.journal| + i];
      assert k[i].frame in FramesTo(ArmSends(d), d.address);
    }
    ArmingReplays(dev.typeId, dev.out, k);
  }

  // ----- The two ways an OK call ends --------------------------------------------------------

  /** The adapter's part of the call. */
  function Adapter(env: Env, r: Runtime, d: InventoryDevice, functionId: nat, args: Args): (World, CallResult) {
    DeviceAdapter.Call(env, r.world, true, d, functionId, args)
  }

  /** No recovery drives the outputs behind the adapter: the policy leaves them, or none is pending. */
  predicate Undisturbed(env: Env, r: Runtime, d: InventoryDevice, functionId: nat, args: Args) {
    r.policy.LeaveOutputs? || d.address !in Adapter(env, r, d, functionId, args).0.book.recovery
  }

  predicate Served(env: Env, r: Runtime, d: InventoryDevice) {
    FindDevice(r.devices, d.id) == Some(d) && Ready(r.world, d) && Confirmable(env, d)
  }

  /** The outputs the frame of a call makes of those before it. */
  function Made(r: Runtime, d: InventoryDevice, functionId: nat, args: Args): Outputs
    requires Ready(r.world, d) && DeviceAdapter.Encode(d.deviceType, functionId, args).Encoded?
  {
    Act(TypeId(d.deviceType), OutputsAt(r.world, d), DeviceAdapter.Encode(d.deviceType, functionId, args).frame)
  }

  lemma AdapterApplies(env: Env, r: Runtime, d: InventoryDevice, functionId: nat, args: Args)
    requires Served(env, r, d) && Adapter(env, r, d, functionId, args).1.ok
    ensures var w := Adapter(env, r, d, functionId, args).0;
            && DeviceAdapter.Encode(d.deviceType, functionId, args).Encoded?
            && Ready(w, d) && OutputsAt(w, d) == Made(r, d, functionId, args)
  {
    TransmitApplies(env, r.world, d, DeviceAdapter.Encode(d.deviceType, functionId, args).frame);
  }

  lemma UndisturbedRecovery(env: Env, r: Runtime, d: InventoryDevice)
    requires Ready(r.world, d) && (r.policy.LeaveOutputs? || d.address !in r.world.book.recovery)
    ensures var r' := Recover(env, r, d);
            Ready(r'.world, d) && SameButWatchdog(OutputsAt(r.world, d), OutputsAt(r'.world, d))
  {
    if d.address in r.world.book.recovery {
      ArmKeepsOutputs(env, TakeFlag(r, d).world, d);
    }
  }

  lemma DisturbedRecovery(env: Env, r: Runtime, d: InventoryDevice)
    requires Ready(r.world, d) && Confirmable(env, d) && r.policy.DriveOutputsSafe? && d.address in r.world.book.recovery
    ensures SafeOrFault(Recover(env, r, d), d)
  {
    var taken := TakeFlag(r, d);
    var driven := DriveDevice(env, taken, d);
    DriveDeviceHonest(env, taken, d);
    ArmKeepsSafe(env, driven.world, d, d);
  }

  /**
   An OK provider call. Undisturbed, it leaves exactly the outputs its frame makes, the watchdog
   timeout aside. Otherwise the recovery it ends with has driven the outputs: they are safe, not as
   called, or FAULT is on record.
   */
  lemma ProviderCallOutputs(env: Env, r: Runtime, d: InventoryDevice, functionId: nat, args: Args)
    requires Served(env, r, d)
    ensures var (r', result) := Call(env, r, d.id, functionId, args);
            result.ok ==>
              && DeviceAdapter.Encode(d.deviceType, functionId, args).Encoded?
              && Ready(r'.world, d)
              && (if Undisturbed(env, r, d, functionId, args)
                  then SameButWatchdog(Made(r, d, functionId, args), OutputsAt(r'.world, d))
                  else SafeOrFault(r', d))
  {
    var (r', result) := Call(env, r, d.id, functionId, args);
    if result.ok {
      AdapterApplies(env, r, d, functionId, args);
      var called := Touched(r, d.id).(world := Adapter(env, r, d, functionId, args).0);
      if Undisturbed(env, r, d, functionId, args) {
        UndisturbedRecovery(env, called, d);
      } else {
        DisturbedRecovery(env, called, d);
      }
    }
  }

  // ----- Reading back ------------------------------------------------------------------------

  lemma WatchdogIsNotShown(t: DeviceType, o: Outputs, o': Outputs)
    requires SameButWatchdog(o, o')
    ensures Observed(t, o') == Observed(t, o)
  {
  }

  lemma ProviderReadObserves(env: Env, r: Runtime, d: InventoryDevice, ids: seq<SignalId>)
    requires FindDevice(r.devices, d.id) == Some(d) && Ready(r.world, d)
    ensures var result := Read(env, r, d.id, ids).1;
            result.ok ==> result.values == Select(Observed(d.deviceType, OutputsAt(r.world, d)), ids, Defaults(d.deviceType))
  {
    ReadObserves(env, r.world, d, ids);
  }

  /** `r2` is reached from the end of an OK, undisturbed call without another command. */
  ghost predicate Follows(env: Env, r: Runtime, d: InventoryDevice, functionId: nat, args: Args, r2: Runtime) {
    var (r', result) := Call(env, r, d.id, functionId, args);
    && result.ok && Undisturbed(env, r, d, functionId, args)
    && r2.devices == r.devices && Moves(r'.world, r2.world, iset{})
  }

  /**
   Undisturbed, a provider call that answers OK reads back: a later provider read shows the requested
   signals of exactly the outputs the call's frame makes.
   */
  lemma ProviderCallReadsBack(
    env: Env, r: Runtime, d: InventoryDevice, functionId: nat, args: Args, later: Env, r2: Runtime, ids: seq<SignalId>)
    requires Served(env, r, d)
    ensures var t := d.deviceType;
            var result := Read(later, r2, d.id, ids).1;
            Follows(env, r, d, functionId, args, r2) && result.ok ==>
              && DeviceAdapter.Encode(t, functionId, args).Encoded?
              && result.values == Select(Observed(t, Made(r, d, functionId, args)), ids, Defaults(t))
  {
    if Follows(env, r, d, functionId, args, r2) {
      var r' := Call(env, r, d.id, functionId, args).0;
      ProviderCallOutputs(env, r, d, functionId, args);
      QuietKeepsOutputs(r'.world, r2.world, d);
      ProviderReadObserves(later, r2, d, ids);
      WatchdogIsNotShown(d.deviceType, Made(r, d, functionId, args), OutputsAt(r2.world, d));
    }
  }

  /** PWM, negatives included, reads back exactly through the provider. */
  lemma PwmReadsBack(env: Env, r: Runtime, d: InventoryDevice, args: Args, later: Env, r2: Runtime, ids: seq<SignalId>)
    requires Served(env, r, d) && d.deviceType.Dcmt?
    ensures var result := Read(later, r2, d.id, ids).1;
            Follows(env, r, d, 1, args, r2) && result.ok ==> forall s | s in result.values :: ShowsPwm(args, s)
  {
    ProviderCallReadsBack(env, r, d, 1, args, later, r2, ids);
    var result := Read(later, r2, d.id, ids).1;
    if Follows(env, r, d, 1, args, r2) && result.ok {
      forall s | s in result.values ensures ShowsPwm(args, s) {
        MadePwm(OutputsAt(r.world, d), args, s);
      }
    }
  }

  lemma MadePwm(o: Outputs, args: Args, s: Signal)
    requires var e := DeviceAdapter.Encode(Dcmt, 1, args);
             e.Encoded? && s in Observed(Dcmt, Act(DCMT_TYPE_ID, o, e.frame))
    ensures ShowsPwm(args, s)
  {
    PwmRoundTrip(o, args);
    ObservedPwm(Act(DCMT_TYPE_ID, o, DeviceAdapter.Encode(Dcmt, 1, args).frame), args, s);
  }

  /** Setpoints read back within 0.05 C through the provider, or as the sentinel FAULT. */
  lemma SetpointsReadBack(
    env: Env, r: Runtime, d: InventoryDevice, sp1: real, sp2: real, later: Env, r2: Runtime, ids: seq<SignalId>)
    requires Served(env, r, d) && d.deviceType.Rlht?
    ensures var result := Read(later, r2, d.id, ids).1;
            Follows(env, r, d, 2, Setpoints(sp1, sp2), r2) && result.ok ==>
              forall s | s in result.values :: ShowsSetpoints(sp1, sp2, s)
  {
    ProviderCallReadsBack(env, r, d, 2, Setpoints(sp1, sp2), later, r2, ids);
    var result := Read(later, r2, d.id, ids).1;
    if Follows(env, r, d, 2, Setpoints(sp1, sp2), r2) && result.ok {
      forall s | s in result.values ensures ShowsSetpoints(sp1, sp2, s) {
        ObservedSetpoints(OutputsAt(r.world, d), sp1, sp2, s);
      }
    }
  }

  /** Neither safe frames nor arming touch the thermocouple selection. */
  lemma {:induction false} SelectionStays(o: Outputs, k: seq<Entry>)
    requires forall i | 0 <= i < |k| :: Harmless(Rlht, k[i].frame)
    ensures var o' := Replay(RLHT_TYPE_ID, o, k); o'.tc1 == o.tc1 && o'.tc2 == o.tc2
  {
    if k != [] {
      SelectionStays(o, k[..|k| - 1]);
      assert Harmless(Rlht, k[|k| - 1].frame);
    }
  }

  predicate SameSelection(o: Outputs, o': Outputs) {
    o'.tc1 == o.tc1 && o'.tc2 == o.tc2
  }

  lemma MovesKeepSelection(w: World, w': World, s: Sends, d: InventoryDevice)
    requires Moves(w, w', s) && Ready(w, d) && d.deviceType.Rlht? && HarmlessTo(s, d)
    ensures Ready(w', d) && SameSelection(OutputsAt(w, d), OutputsAt(w', d))
  {
    MovesKeepReady(w, w', s, d);
    var dev, dev' := w.bus.devices[d.address], w'.bus.devices[d.address];
    assert Grows(dev, dev', FramesTo(s, d.address));
    var k := dev'.journal[|dev.journal|..];
    forall i | 0 <= i < |k| ensures Harmless(Rlht, k[i].frame) {
      assert k[i] == dev'.journal[|dev.journal| + i];
      assert k[i].frame in FramesTo(s, d.address);
    }
    SelectionStays(dev.out, k);
  }

  lemma RecoveryIsHarmless(d: InventoryDevice, policy: OutputsPolicy)
    ensures HarmlessTo(AutoSends(d, policy), d)
  {
  }

  lemma RecoveryKeepsSelection(env: Env, r: Runtime, d: InventoryDevice)
    requires Ready(r.world, d) && d.deviceType.Rlht?
    ensures var w := Recover(env, r, d).world; Ready(w, d) && SameSelection(OutputsAt(r.world, d), OutputsAt(w, d))
  {
    RecoverMoves(env, r, d, AutoSends(d, r.policy));
    RecoveryIsHarmless(d, r.policy);
    MovesKeepSelection(r.world, Recover(env, r, d).world, AutoSends(d, r.policy), d);
  }

  /** `r2` is reached from the end of an OK call, disturbed or not, without another command. */
  ghost predicate Succeeds(env: Env, r: Runtime, d: InventoryDevice, functionId: nat, args: Args, r2: Runtime) {
    var (r', result) := Call(env, r, d.id, functionId, args);
    result.ok && r2.devices == r.devices && Moves(r'.world, r2.world, iset{})
  }

  lemma SelectionAfterCall(env: Env, r: Runtime, d: InventoryDevice, args: Args)
    requires Served(env, r, d) && d.deviceType.Rlht?
    ensures var (r', result) := Call(env, r, d.id, 5, args);
            result.ok ==>
              && DeviceAdapter.Encode(Rlht, 5, args).Encoded? && Ready(r'.world, d)
              && SameSelection(Made(r, d, 5, args), OutputsAt(r'.world, d))
  {
    if Call(env, r, d.id, 5, args).1.ok {
      AdapterApplies(env, r, d, 5, args);
      RecoveryKeepsSelection(env, Touched(r, d.id).(world := Adapter(env, r, d, 5, args).0), d);
    }
  }

  lemma SelectionIsShown(o: Outputs, o': Outputs, args: Args, s: Signal)
    requires DeviceAdapter.Encode(Rlht, 5, args).Encoded?
    requires SameSelection(Act(RLHT_TYPE_ID, o, DeviceAdapter.Encode(Rlht, 5, args).frame), o')
    requires s in Observed(Rlht, o')
    ensures ShowsThermocouples(args, s)
  {
    ThermocoupleRoundTrip(o, args);
  }

  /** A thermocouple selection reads back exactly through the provider, recovery or not. */
  lemma ThermocouplesReadBack(
    env: Env, r: Runtime, d: InventoryDevice, args: Args, later: Env, r2: Runtime, ids: seq<SignalId>)
    requires Served(env, r, d) && d.deviceType.Rlht?
    ensures var result := Read(later, r2, d.id, ids).1;
            Succeeds(env, r, d, 5, args, r2) && result.ok ==> forall s | s in result.values :: ShowsThermocouples(args, s)
  {
    var result := Read(later, r2, d.id, ids).1;
    if Succeeds(env, r, d, 5, args, r2) && result.ok {
      SelectionAfterCall(env, r, d, args);
      QuietKeepsOutputs(Call(env, r, d.id, 5, args).0.world, r2.world, d);
      ProviderReadObserves(later, r2, d, ids);
      forall s | s in result.values ensures ShowsThermocouples(args, s) {
        SelectionIsShown(OutputsAt(r.world, d), OutputsAt(r2.world, d), args, s);
      }
    }
  }

  // ----- A call that does not read back ------------------------------------------------------

  predicate Pending(w: World, a: byte) {
    a in w.book.recovery
  }

  /** A pending recovery stays pending until it is taken. */
  lemma PerformKeepsPending(env: Env, w: World, a: byte, op: Op, b: byte)
    requires Pending(w, b)
    ensures Pending(Perform(env, w, a, op).world, b)
  {
  }

  lemma {:induction false} ReadAckKeepsPending(env: Env, w: World, a: byte, n: nat, b: byte)
    requires Pending(w, b)
    ensures Pending(ReadAck(env, w, a, n).0, b)
    decreases ACK_READ_ATTEMPTS - n
  {
    if n < ACK_READ_ATTEMPTS {
      PerformKeepsPending(env, w, a, QueryFor(OP_GET_ACK), b);
      var p := Perform(env, w, a, QueryFor(OP_GET_ACK));
      if p.status.Ok() && p.reply.Some? && AckDecode(p.reply.value).None? {
        ReadAckKeepsPending(env, Rejected(p.world, a), a, n + 1, b);
      }
    }
  }

  lemma RoundKeepsPending(env: Env, w: World, a: byte, f: Frame, before: AckRecord, b: byte)
    requires Pending(w, b)
    ensures Pending(RunRound(env, w, a, f, before).0, b)
  {
    PerformKeepsPending(env, w, a, SendFrame(f), b);
    ReadAckKeepsPending(env, Perform(env, w, a, SendFrame(f)).world, a, 0, b);
  }

  lemma {:induction false} RepeatKeepsPending(round: World -> (World, Round), w: World, sent: nat, b: byte)
    requires Pending(w, b) && forall x: World | Pending(x, b) :: Pending(round(x).0, b)
    ensures Pending(Repeat(round, w, sent).0, b)
    decreases CONFIRMED_SENDS - sent
  {
    if sent < CONFIRMED_SENDS {
      RepeatKeepsPending(round, round(w).0, sent + 1, b);
    }
  }

  lemma TransmitKeepsPending(env: Env, w: World, d: InventoryDevice, f: Frame, b: byte)
    requires Pending(w, b)
    ensures Pending(TransmitConfirmed(env, w, d, f).0, b)
  {
    if Confirmation(d).Unconfirmed? {
      PerformKeepsPending(env, w, d.address, SendFrame(f), b);
    } else {
      var (w1, before) := ReadAck(env, w, d.address, 0);
      ReadAckKeepsPending(env, w, d.address, 0, b);
      if before.Some? {
        var round := RoundOf(env, d.address, f, before.value);
        forall x: World | Pending(x, b) ensures Pending(round(x).0, b) {
          RoundKeepsPending(env, x, d.address, f, before.value, b);
        }
        RepeatKeepsPending(round, w1, 1, b);
      }
    }
  }

  /** The first success after a failure makes a recovery pending. */
  lemma SuccessMakesPending(env: Env, w: World, a: byte, op: Op)
    requires a in w.book.failed && Refusal(w, a, op).None? && Perform(env, w, a, op).status.Ok()
    ensures Pending(Perform(env, w, a, op).world, a)
  {
  }

  /** A clean state query of a motor device in open loop, without brakes. */
  lemma CleanStateQuery(env: Env, w: World, a: byte)
    requires RetryBound.Online(w, a) && w.bus.devices[a].typeId == DCMT_TYPE_ID
    requires At(env.tape, w.bus.tick) == CLEAN && At(env.tape, w.bus.tick + 1) == CLEAN
    ensures var dev := w.bus.devices[a];
            var p := Perform(env, w, a, QueryFor(DCMT_OP_GET_STATE));
            && p.status.Ok()
            && p.reply == Some(Frame(DCMT_TYPE_ID, DCMT_OP_GET_STATE, DcmtStatePayload(dev.out)))
            && p.world.bus.tick == w.bus.tick + 2 && p.world.open
            && p.world.bus.devices == w.bus.devices[a := dev.(pending := Some(DCMT_OP_GET_STATE))]
  {
    var dev := w.bus.devices[a];
    var b1 := SendOnce(env.tape, w.bus, a, QueryFrame(DCMT_OP_GET_STATE)).bus;
    assert b1.devices[a] == dev.(pending := Some(DCMT_OP_GET_STATE));
    var t := ReadOnce(env.tape, b1, a);
    assert t.code.CodeOk?;
    assert TryOnce(env.tape, w.bus, a, QueryFor(DCMT_OP_GET_STATE)) == t;
    assert Final(t, 1, MaxAttempts(env.retry));
  }

  const LOST: Link := Link(false, WriteFailed, 0)

  /** A motor device as the canned bus seeds it, and the provider that serves it, before any traffic. */
  function ExampleDevice(): InventoryDevice {
    InventoryDevice("dcmt0", "", Dcmt, 0x10, Discovered, false, ModuleVersion(ACK_MIN_VERSION, 1, 0, 0),
                    Profile(1, 1, {DCMT_CAP_OPEN_LOOP_CONTROL}, Queried), {DCMT_CAP_OPEN_LOOP_CONTROL}, 0, true)
  }

  function ExampleStart(): Runtime {
    Idle(World(Bus(map[0x10 := CannedDevice.Seeded(DCMT_TYPE_ID)], 0), [], EMPTY_BOOK, true),
         [ExampleDevice()], DriveOutputsSafe, 0)
  }

  const EXAMPLE_ENV: Env := Env([LOST], 0)
  const EXAMPLE_ARGS: Args := map["motor1_pwm" := IntV(100), "motor2_pwm" := IntV(-100)]

  /** The read before the call fails on the bus. */
  lemma ExampleRead() returns (r: Runtime)
    ensures r == Next(EXAMPLE_ENV, ExampleStart(), ReadEvent("dcmt0", []))
    ensures r.devices == [ExampleDevice()] && r.policy.DriveOutputsSafe?
    ensures r.world.bus == ExampleStart().world.bus.(tick := 1) && r.world.open && 0x10 in r.world.book.failed
  {
    var start := ExampleStart();
    r := Next(EXAMPLE_ENV, start, ReadEvent("dcmt0", []));
    var op := QueryFor(DCMT_OP_GET_STATE);
    var t := TryOnce(EXAMPLE_ENV.tape, start.world.bus, 0x10, op);
    assert t == Tried(start.world.bus.(tick := 1), WriteFailed, 0, None);
    assert Final(t, 1, MaxAttempts(0));
    assert !Perform(EXAMPLE_ENV, start.world, 0x10, op).status.Ok();
  }

  lemma ExampleFrame() returns (f: Frame)
    ensures DeviceAdapter.Encode(Dcmt, 1, EXAMPLE_ARGS) == AdapterHelpers.Encoded(f)
    ensures f.opcode == DCMT_OP_SET_OPEN_LOOP && IsCommand(f) && |f.payload| <= MAX_PAYLOAD
    ensures !DcmtAdapter.NeedsEncoders(ExampleDevice(), f)
  {
    f := DeviceAdapter.Encode(Dcmt, 1, EXAMPLE_ARGS).frame;
  }

  lemma ExamplePublishes()
    ensures FunctionExists(ExampleDevice(), 1)
  {
    var os := DcmtOffers({DCMT_CAP_OPEN_LOOP_CONTROL});
    assert os[0].offered && os[0].spec.id == 1;
    OfferedMembers(os, os[0].spec);
    var fs := Functions(ExampleDevice());
    assert fs == Offered(os);
    var i :| 0 <= i < |fs| && fs[i] == os[0].spec;
  }

  /** The adapter's part of the call: brakes read, frame applied, and a recovery left pending. */
  lemma ExampleAdapter(r: Runtime)
    requires r.world.bus == ExampleStart().world.bus.(tick := 1) && r.world.open && 0x10 in r.world.book.failed
    ensures var (w, result) := Adapter(EXAMPLE_ENV, r, ExampleDevice(), 1, EXAMPLE_ARGS);
            result.ok && Pending(w, 0x10) && CleanDrive.Willing(EXAMPLE_ENV, w, ExampleDevice())
  {
    var d, a := ExampleDevice(), 0x10;
    var f := ExampleFrame();
    var op := QueryFor(DCMT_OP_GET_STATE);
    CleanStateQuery(EXAMPLE_ENV, r.world, a);
    SuccessMakesPending(EXAMPLE_ENV, r.world, a, op);
    var w1 := Perform(EXAMPLE_ENV, r.world, a, op).world;
    DcmtAdapter.ParsesOutputs(r.world.bus.devices[a].out);
    assert CleanDrive.Willing(EXAMPLE_ENV, w1, d);
    ExampleUnbraked(r.world, f);
    TransmitKeepsPending(EXAMPLE_ENV, DcmtAdapter.ReadBrakes(EXAMPLE_ENV, r.world, d, f).0, d, f, a);
    CleanDrive.WillingAnswers(EXAMPLE_ENV, w1, d, f);
  }

  lemma ExampleCommands(f: Frame)
    requires DeviceAdapter.Encode(Dcmt, 1, EXAMPLE_ARGS) == AdapterHelpers.Encoded(f)
    ensures DcmtAdapter.Commands(f) == Some((100, -100))
  {
    I16RoundTrip([], 100, I16Le(-100));
    I16RoundTrip(I16Le(100), -100, []);
    assert [] + I16Le(100) + I16Le(-100) == f.payload;
    assert I16Le(100) + I16Le(-100) + [] == f.payload;
  }

  lemma ExampleBrakes(w: World, f: Frame)
    requires w.bus == ExampleStart().world.bus.(tick := 1) && w.open && DcmtAdapter.NeedsBrakeCheck(f)
    ensures var p := Perform(EXAMPLE_ENV, w, 0x10, QueryFor(DCMT_OP_GET_STATE));
            var (w1, state) := DcmtAdapter.ReadBrakes(EXAMPLE_ENV, w, ExampleDevice(), f);
            w1 == p.world && state.Some? && DcmtAdapter.Braked(f, state.value).None?
  {
    CleanStateQuery(EXAMPLE_ENV, w, 0x10);
    DcmtAdapter.ParsesOutputs(w.bus.devices[0x10].out);
    assert !Bit0(0) && !Bit1(0);
  }

  lemma ExampleUnbraked(w: World, f: Frame)
    requires w.bus == ExampleStart().world.bus.(tick := 1) && w.open
    requires DeviceAdapter.Encode(Dcmt, 1, EXAMPLE_ARGS) == AdapterHelpers.Encoded(f)
    requires f.opcode == DCMT_OP_SET_OPEN_LOOP
    ensures DcmtAdapter.NeedsBrakeCheck(f)
    ensures var w1 := Perform(EXAMPLE_ENV, w, 0x10, QueryFor(DCMT_OP_GET_STATE)).world;
            && DcmtAdapter.ReadBrakes(EXAMPLE_ENV, w, ExampleDevice(), f).0 == w1
            && DcmtAdapter.Transmit(EXAMPLE_ENV, w, ExampleDevice(), f)
               == TransmitConfirmed(EXAMPLE_ENV, w1, ExampleDevice(), f)
  {
    ExampleCommands(f);
    ExampleBrakes(w, f);
    DcmtAdapter.UngatedIsConfirmed(EXAMPLE_ENV, w, ExampleDevice(), f);
  }

  /**
   A run in which an OK call does not read back: a read fails, the call after it asks for PWM 100 and
   -100 and answers OK, and the recovery the call ends with has set both motors to zero, with no
   FAULT to say so.
   */
  lemma RecoveryUndoesCall()
    ensures var r1 := Next(EXAMPLE_ENV, ExampleStart(), ReadEvent("dcmt0", []));
            var (r2, result) := Call(EXAMPLE_ENV, r1, "dcmt0", 1, EXAMPLE_ARGS);
            && result.ok && !Fault(r2, "dcmt0")
            && Ready(r2.world, ExampleDevice())
            && OutputsAt(r2.world, ExampleDevice()).pwm1 == 0 && OutputsAt(r2.world, ExampleDevice()).pwm2 == 0
  {
    var d := ExampleDevice();
    var r1 := ExampleRead();
    ExamplePublishes();
    ExampleAdapter(r1);
    var w := Adapter(EXAMPLE_ENV, r1, d, 1, EXAMPLE_ARGS).0;
    assert Ready(r1.world, d);
    AdapterApplies(EXAMPLE_ENV, r1, d, 1, EXAMPLE_ARGS);
    ExampleRecovery(Touched(r1, "dcmt0").(world := w));
  }

  /** That recovery: the drive succeeds and both motors are at zero. */
  lemma ExampleRecovery(r: Runtime)
    requires r.policy.DriveOutputsSafe? && Pending(r.world, 0x10) && Ready(r.world, ExampleDevice())
    requires CleanDrive.Willing(EXAMPLE_ENV, r.world, ExampleDevice())
    ensures var r' := Recover(EXAMPLE_ENV, r, ExampleDevice());
            && !Fault(r', "dcmt0") && Ready(r'.world, ExampleDevice())
            && OutputsAt(r'.world, ExampleDevice()).pwm1 == 0 && OutputsAt(r'.world, ExampleDevice()).pwm2 == 0
  {
    var d := ExampleDevice();
    DisturbedRecovery(EXAMPLE_ENV, r, d);
    CleanDrive.CleanDriveClearsFault(EXAMPLE_ENV, TakeFlag(r, d), d);
    assert StepDone(Dcmt, 1, OutputsAt(Recover(EXAMPLE_ENV, r, d).world, d));
  }
}
