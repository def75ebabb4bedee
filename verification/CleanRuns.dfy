/**
 What requests achieve on a clean link, to a device that acts on what it receives, and what a
 provider does around them: requests for what does not exist, recoveries, and the order of startup.
 */
module CleanRuns {
  import opened Bytes
  import opened Protocol
  import opened SessionModel
  import opened Capabilities
  import opened Footprint
  import opened AdapterHelpers
  import opened ReadBack
  import opened SafeOutputs
  import opened Watchdog
  import opened CleanDrive
  import opened RuntimeModel
  import DeviceAdapter
  import DcmtAdapter
  import RlhtAdapter

  // ----- Reads -------------------------------------------------------------------------------

  /** A state the adapter can use comes back: a motor module in open loop, a heater without e-stop count. */
  predicate Legible(w: World, d: InventoryDevice) {
    && Ready(w, d)
    && match d.deviceType
       case Rlht => RLHT_CAP_ESTOP_COUNT !in d.profile.flags
       case Dcmt => OutputsAt(w, d).dcmtMode == DCMT_MODE_OPEN_LOOP
  }

  lemma CleanQuery(env: Env, w: World, d: InventoryDevice)
    requires Willing(env, w, d) && Ready(w, d)
    ensures var t := d.deviceType;
            var p := Perform(env, w, d.address, QueryFor(DeviceAdapter.StateOpcode(t)));
            && p.status.Ok()
            && p.reply == Some(Frame(TypeId(t), DeviceAdapter.StateOpcode(t), StatePayload(t, OutputsAt(w, d))))
            && Willing(env, p.world, d) && Ready(p.world, d) && OutputsAt(p.world, d) == OutputsAt(w, d)
  {
    var a, op := d.address, QueryFor(DeviceAdapter.StateOpcode(d.deviceType));
    var dev := w.bus.devices[a];
    var b1 := SendOnce(env.tape, w.bus, a, QueryFrame(op.reply)).bus;
    assert b1.devices[a] == dev.(pending := Some(op.reply));
    var t := ReadOnce(env.tape, b1, a);
    assert t.code.CodeOk?;
    assert TryOnce(env.tape, w.bus, a, op) == t;
    assert Final(t, 1, MaxAttempts(env.retry));
  }

  /** A clean read answers OK with the requested signals of what the device holds. */
  lemma CleanRead(env: Env, w: World, d: InventoryDevice, ids: seq<SignalId>)
    requires Willing(env, w, d) && Legible(w, d)
    ensures var (w', r) := DeviceAdapter.ReadSignals(env, w, d, ids);
            && r.ok && r.code == AdppOk
            && r.values == Select(Observed(d.deviceType, OutputsAt(w, d)), ids, Defaults(d.deviceType))
            && Willing(env, w', d)
  {
    CleanQuery(env, w, d);
    RlhtAdapter.ParsesOutputs(OutputsAt(w, d));
    DcmtAdapter.ParsesOutputs(OutputsAt(w, d));
    ReadObserves(env, w, d, ids);
  }

  // ----- Calls -------------------------------------------------------------------------------

  /** The frame passes the gates: no commanded brake is engaged, and no closed loop without encoders. */
  predicate Ungated(w: World, d: InventoryDevice, f: Frame)
    requires Ready(w, d)
  {
    d.deviceType.Dcmt? ==>
      && !DcmtAdapter.NeedsEncoders(d, f)
      && (DcmtAdapter.NeedsBrakeCheck(f) ==> OutputsAt(w, d).brakes == 0)
  }

  lemma NoBrakeReads(env: Env, w: World, d: InventoryDevice, f: Frame)
    requires Willing(env, w, d) && Ready(w, d) && Ungated(w, d, f) && d.deviceType.Dcmt?
    ensures var (w1, state) := DcmtAdapter.ReadBrakes(env, w, d, f);
            && Willing(env, w1, d)
            && (DcmtAdapter.NeedsBrakeCheck(f) && state.Some? ==> DcmtAdapter.Braked(f, state.value).None?)
  {
    if DcmtAdapter.NeedsBrakeCheck(f) {
      CleanQuery(env, w, d);
      DcmtAdapter.ParsesOutputs(OutputsAt(w, d));
      assert !Bit0(0) && !Bit1(0);
    }
  }

  /** A clean call whose arguments encode and whose frame no gate holds answers OK. */
  lemma CleanCall(env: Env, w: World, d: InventoryDevice, functionId: nat, args: Args)
    requires Willing(env, w, d) && Ready(w, d)
    requires var e := DeviceAdapter.Encode(d.deviceType, functionId, args); e.Encoded? && Ungated(w, d, e.frame)
    ensures var (w', r) := DeviceAdapter.Call(env, w, true, d, functionId, args); r.ok && Willing(env, w', d)
  {
    var f := DeviceAdapter.Encode(d.deviceType, functionId, args).frame;
    DeviceAdapter.EncodedShape(d.deviceType, functionId, args);
    match d.deviceType {
      case Rlht => WillingAnswers(env, w, d, f);
      case Dcmt =>
        NoBrakeReads(env, w, d, f);
        DcmtAdapter.UngatedIsConfirmed(env, w, d, f);
        WillingAnswers(env, DcmtAdapter.ReadBrakes(env, w, d, f).0, d, f);
    }
  }

  // ----- Through the provider ----------------------------------------------------------------

  lemma ProviderReads(env: Env, r: Runtime, d: InventoryDevice, ids: seq<SignalId>)
    requires FindDevice(r.devices, d.id) == Some(d) && Willing(env, r.world, d) && Legible(r.world, d)
    ensures var result := Read(env, r, d.id, ids).1;
            && result.ok && result.code == AdppOk
            && result.values == Select(Observed(d.deviceType, OutputsAt(r.world, d)), ids, Defaults(d.deviceType))
  {
    CleanRead(env, r.world, d, ids);
  }

  lemma ProviderCalls(env: Env, r: Runtime, d: InventoryDevice, functionId: nat, args: Args)
    requires FindDevice(r.devices, d.id) == Some(d) && FunctionExists(d, functionId)
    requires Willing(env, r.world, d) && Ready(r.world, d)
    requires var e := DeviceAdapter.Encode(d.deviceType, functionId, args); e.Encoded? && Ungated(r.world, d, e.frame)
    ensures Call(env, r, d.id, functionId, args).1.ok
  {
    CleanCall(env, r.world, d, functionId, args);
  }

  /** Requests for a device or a function that does not exist are not found, and touch no bus. */
  lemma UnknownRequests(env: Env, r: Runtime, id: string, ids: seq<SignalId>, functionId: nat, args: Args)
    ensures (forall d | d in r.devices :: d.id != id) ==>
              && Read(env, r, id, ids) == (r, ReadFailure(AdppNotFound))
              && Call(env, r, id, functionId, args).0 == r
              && Call(env, r, id, functionId, args).1.code == AdppNotFound
    ensures (forall d | d in r.devices && d.id == id :: !FunctionExists(d, functionId)) ==>
              var (r', result) := Call(env, r, id, functionId, args);
              r'.world == r.world && !result.ok && result.code == AdppNotFound
  {
    var found := FindDevice(r.devices, id);
    if found.Some? {
      assert found.value in r.devices;
    }
  }

  // ----- Recoveries --------------------------------------------------------------------------

  /** The step handled a recovery of `d`: under the safe policy it drove the outputs, once. */
  predicate Handled(r: Runtime, r': Runtime, d: InventoryDevice) {
    if r.policy.DriveOutputsSafe? then
      && |r'.drives| == |r.drives| + 1 && r'.drives[..|r.drives|] == r.drives
      && r'.drives[|r.drives|].device == d
    else r'.drives == r.drives
  }

  lemma RecoveryIsHandled(env: Env, r: Runtime, d: InventoryDevice)
    requires d.address in r.world.book.recovery
    ensures Handled(r, Recover(env, r, d), d)
  {
  }

  /** A read that succeeds with a recovery pending handles it; one that fails, or finds none, drives nothing. */
  lemma ReadHandlesRecovery(env: Env, r: Runtime, d: InventoryDevice, ids: seq<SignalId>)
    requires FindDevice(r.devices, d.id) == Some(d)
    ensures var w := DeviceAdapter.ReadSignals(env, r.world, d, ids).0;
            var (r', result) := Read(env, r, d.id, ids);
            if result.ok && d.address in w.book.recovery then Handled(r, r', d)
            else r'.drives == r.drives && r'.world == w
  {
    var (w, result) := DeviceAdapter.ReadSignals(env, r.world, d, ids);
    if result.ok && d.address in w.book.recovery {
      RecoveryIsHandled(env, Touched(r, d.id).(world := w), d);
    }
  }

  /** So does a call. */
  lemma CallHandlesRecovery(env: Env, r: Runtime, d: InventoryDevice, functionId: nat, args: Args)
    requires FindDevice(r.devices, d.id) == Some(d) && FunctionExists(d, functionId)
    ensures var w := DeviceAdapter.Call(env, r.world, true, d, functionId, args).0;
            var (r', result) := Call(env, r, d.id, functionId, args);
            if result.ok && d.address in w.book.recovery then Handled(r, r', d)
            else r'.drives == r.drives && r'.world == w
  {
    var (w, result) := DeviceAdapter.Call(env, r.world, true, d, functionId, args);
    if result.ok && d.address in w.book.recovery {
      RecoveryIsHandled(env, Touched(r, d.id).(world := w), d);
    }
  }

  // ----- Outputs before watchdogs ------------------------------------------------------------

  ghost predicate SafeOf(ds: seq<InventoryDevice>, p: (byte, Frame)) {
    exists d :: d in ds && p in SafeSends(d)
  }

  ghost predicate ArmOf(ds: seq<InventoryDevice>, p: (byte, Frame)) {
    exists d :: d in ds && p in ArmSends(d)
  }

  ghost function AllSafe(ds: seq<InventoryDevice>): Sends {
    iset p: (byte, Frame) | SafeOf(ds, p)
  }

  ghost function AllArming(ds: seq<InventoryDevice>): Sends {
    iset p: (byte, Frame) | ArmOf(ds, p)
  }

  lemma PolicySendsSafe(env: Env, r: Runtime, d: InventoryDevice, s: Sends)
    requires SafeSends(d) <= s
    ensures Moves(r.world, ApplyPolicy(env, r, d).world, s) && ApplyPolicy(env, r, d).policy == r.policy
  {
    MovesRefl(r.world, s);
    if r.policy.DriveOutputsSafe? {
      DriveDeviceMoves(env, r, d, s);
    }
  }

  /** Startup sends the safe frames first, to all devices, and arms watchdogs only after them. */
  lemma StartupInOrder(env: Env, w: World, ds: seq<InventoryDevice>, policy: OutputsPolicy, armedAt: int)
    returns (middle: World)
    ensures Moves(w, middle, AllSafe(ds)) && Moves(middle, Launch(env, w, ds, policy, armedAt).world, AllArming(ds))
  {
    var apply, idle := PolicyStep(env), Idle(w, ds, policy, armedAt);
    forall x: Runtime, d: InventoryDevice | x.policy == policy && d in ds
      ensures Moves(x.world, apply(x, d).world, AllSafe(ds)) && apply(x, d).policy == policy
    {
      assert SafeSends(d) <= AllSafe(ds);
      PolicySendsSafe(env, x, d, AllSafe(ds));
    }
    ForEachMoves(apply, idle, ds, |ds|, AllSafe(ds));
    middle := ApplyPolicies(env, idle, |ds|).world;
    forall d | d in ds ensures ArmSends(d) <= AllArming(ds) {}
    ArmAllMoves(env, middle, ds, |ds|, AllArming(ds));
  }

  /** So does a recovery. */
  lemma RecoveryInOrder(env: Env, r: Runtime, d: InventoryDevice) returns (middle: World)
    ensures Moves(r.world, middle, SafeSends(d)) && Moves(middle, Recover(env, r, d).world, ArmSends(d))
  {
    middle := r.world;
    MovesRefl(r.world, SafeSends(d));
    MovesRefl(r.world, ArmSends(d));
    if d.address in r.world.book.recovery {
      var taken := TakeFlag(r, d);
      TakeMoves(r.world, d.address, SafeSends(d));
      middle := taken.world;
      if r.policy.DriveOutputsSafe? {
        middle := DriveDevice(env, taken, d).world;
        DriveDeviceMoves(env, taken, d, SafeSends(d));
        MovesTrans(r.world, taken.world, middle, SafeSends(d));
      }
      ArmMoves(env, middle, d, ArmSends(d));
    }
  }
}
