/**
 Safe outputs over whole runs. From startup under the safe policy and until the first call to a
 device, health that shows no FAULT means the outputs of the device are safe.
 */
module SafeRuns {
  import opened Bytes
  import opened Protocol
  import opened CannedDevice
  import opened SessionModel
  import opened Capabilities
  import opened Footprint
  import opened SetConfirm
  import opened ExactlyOnce
  import opened AdapterHelpers
  import opened SafeOutputs
  import opened Watchdog
  import opened Keepalive
  import opened RuntimeModel
  import opened RuntimeTheorems
  import DeviceAdapter

  // ----- Frames that leave safe outputs safe -------------------------------------------------

  ghost predicate Harmless(t: DeviceType, f: Frame) {
    IsSafeFrame(t, f) || f.opcode == OP_SET_WATCHDOG
  }

  lemma HarmlessActs(t: DeviceType, j: nat, o: Outputs, f: Frame)
    requires j < |Steps(t)| && StepDone(t, j, o) && Harmless(t, f)
    ensures StepDone(t, j, Act(TypeId(t), o, f))
  {
    if IsSafeFrame(t, f) {
      var i :| 0 <= i < |Steps(t)| && f == SafeFrame(t, i);
      SafeFrameActs(t, i, j, o);
    }
  }

  lemma {:induction false} HarmlessKeep(t: DeviceType, j: nat, o: Outputs, k: seq<Entry>)
    requires j < |Steps(t)| && StepDone(t, j, o)
    requires forall i | 0 <= i < |k| :: Harmless(t, k[i].frame)
    ensures StepDone(t, j, Replay(TypeId(t), o, k))
  {
    if k != [] {
      HarmlessKeep(t, j, o, k[..|k| - 1]);
      assert Harmless(t, k[|k| - 1].frame);
      HarmlessActs(t, j, Replay(TypeId(t), o, k[..|k| - 1]), k[|k| - 1].frame);
    }
  }

  ghost predicate HarmlessTo(s: Sends, d: InventoryDevice) {
    forall f: Frame :: (d.address, f) in s ==> Harmless(d.deviceType, f)
  }

  lemma MovesKeepReady(w: World, w': World, s: Sends, d: InventoryDevice)
    requires Moves(w, w', s) && Ready(w, d)
    ensures Ready(w', d)
  {
    assert Grows(w.bus.devices[d.address], w'.bus.devices[d.address], FramesTo(s, d.address));
  }

  /** Traffic that is harmless to a device leaves its safe outputs safe. */
  lemma MovesKeepSafe(w: World, w': World, s: Sends, d: InventoryDevice)
    requires Moves(w, w', s) && Ready(w, d) && HarmlessTo(s, d) && Safe(d.deviceType, OutputsAt(w, d))
    ensures Ready(w', d) && Safe(d.deviceType, OutputsAt(w', d))
  {
    MovesKeepReady(w, w', s, d);
    var dev, dev' := w.bus.devices[d.address], w'.bus.devices[d.address];
    assert Grows(dev, dev', FramesTo(s, d.address));
    var k := dev'.journal[|dev.journal|..];
    forall i | 0 <= i < |k| ensures Harmless(d.deviceType, k[i].frame) {
      assert k[i] == dev'.journal[|dev.journal| + i];
      assert k[i].frame in FramesTo(s, d.address);
    }
    forall j | 0 <= j < |Steps(d.deviceType)| ensures StepDone(d.deviceType, j, dev'.out) {
      HarmlessKeep(d.deviceType, j, dev.out, k);
    }
  }

  lemma AutoSendsHarmless(c: InventoryDevice, policy: OutputsPolicy, ds: seq<InventoryDevice>, d: InventoryDevice)
    requires DistinctDevices(ds) && c in ds && d in ds
    ensures HarmlessTo(AutoSends(c, policy), d)
  {
    forall f: Frame | (d.address, f) in AutoSends(c, policy) ensures Harmless(d.deviceType, f) {
      AutoSendsNeverClear(c, policy, d.address, f);
      SameDevice(ds, d, c);
    }
  }

  // ----- A drive that reported success left the outputs safe ---------------------------------

  /** The conditions of the confirmed SET: GET_ACK firmware and retries that cannot wrap the counter. */
  predicate Confirmable(env: Env, d: InventoryDevice) {
    env.retry <= MAX_SAFE_RETRIES && !Confirmation(d).Unconfirmed?
  }

  /** If the step made a drive of `d` that reported success, the outputs of `d` are safe after it. */
  predicate Honest(r: Runtime, r': Runtime, d: InventoryDevice) {
    |r'.drives| > |r.drives| && r'.drives[|r'.drives| - 1] == DriveRecord(d, true) ==>
      Ready(r'.world, d) && Safe(d.deviceType, OutputsAt(r'.world, d))
  }

  lemma DriveDeviceHonest(env: Env, r: Runtime, d: InventoryDevice)
    requires Ready(r.world, d) && Confirmable(env, d)
    ensures Honest(r, DriveDevice(env, r, d), d) && Ready(DriveDevice(env, r, d).world, d)
  {
    DriveOkIsSafe(env, r.world, d);
  }

  lemma ArmKeepsSafe(env: Env, w: World, c: InventoryDevice, d: InventoryDevice)
    requires Ready(w, d)
    ensures Ready(Arm(env, w, c), d)
    ensures Safe(d.deviceType, OutputsAt(w, d)) ==> Safe(d.deviceType, OutputsAt(Arm(env, w, c), d))
  {
    ArmMoves(env, w, c, ArmSends(c));
    MovesKeepReady(w, Arm(env, w, c), ArmSends(c), d);
    if Safe(d.deviceType, OutputsAt(w, d)) {
      MovesKeepSafe(w, Arm(env, w, c), ArmSends(c), d);
    }
  }

  lemma RecoverHonest(env: Env, r: Runtime, d: InventoryDevice)
    requires Ready(r.world, d) && Confirmable(env, d)
    ensures Honest(r, Recover(env, r, d), d)
  {
    if d.address in r.world.book.recovery && r.policy.DriveOutputsSafe? {
      var taken := TakeFlag(r, d);
      DriveDeviceHonest(env, taken, d);
      ArmKeepsSafe(env, DriveDevice(env, taken, d).world, d, d);
    }
  }

  lemma RecoverDrivesOnly(env: Env, r: Runtime, c: InventoryDevice)
    ensures var r' := Recover(env, r, c);
            |r'.drives| > |r.drives| ==> r'.drives[|r'.drives| - 1].device == c
  {
  }

  lemma ReadHonest(env: Env, r: Runtime, id: string, ids: seq<SignalId>, d: InventoryDevice)
    requires Ready(r.world, d) && Confirmable(env, d)
    ensures Honest(r, Read(env, r, id, ids).0, d)
  {
    var found := FindDevice(r.devices, id);
    if found.Some? {
      var w := DeviceAdapter.ReadSignals(env, r.world, found.value, ids).0;
      var r' := Touched(r, id).(world := w);
      RecoverDrivesOnly(env, r', found.value);
      if found.value == d {
        DeviceAdapter.ReadSignalsMoves(env, r.world, d, ids, iset{});
        MovesKeepReady(r.world, w, iset{}, d);
        RecoverHonest(env, r', d);
      }
    }
  }

  lemma CallHonest(env: Env, r: Runtime, id: string, functionId: nat, args: Args, d: InventoryDevice)
    requires Ready(r.world, d) && Confirmable(env, d)
    ensures Honest(r, Call(env, r, id, functionId, args).0, d)
  {
    var found := FindDevice(r.devices, id);
    if found.Some? {
      var w := DeviceAdapter.Call(env, r.world, true, found.value, functionId, args).0;
      var r' := Touched(r, id).(world := w);
      RecoverDrivesOnly(env, r', found.value);
      if found.value == d {
        CallKeepsReady(env, r.world, d, functionId, args);
        RecoverHonest(env, r', d);
      }
    }
  }

  lemma CallKeepsReady(env: Env, w: World, d: InventoryDevice, functionId: nat, args: Args)
    requires Ready(w, d)
    ensures Ready(DeviceAdapter.Call(env, w, true, d, functionId, args).0, d)
  {
    var e := DeviceAdapter.Encode(d.deviceType, functionId, args);
    var s: Sends := if e.Encoded? then iset{(d.address, e.frame)} else iset{};
    DeviceAdapter.CallMoves(env, w, true, d, functionId, args, s);
    MovesKeepReady(w, DeviceAdapter.Call(env, w, true, d, functionId, args).0, s, d);
  }

  predicate CallsTo(e: Event, d: InventoryDevice) {
    e.CallEvent? && e.id == d.id
  }

  lemma StepHonest(env: Env, r: Runtime, e: Event, d: InventoryDevice)
    requires Ready(r.world, d) && Confirmable(env, d)
    ensures Honest(r, Next(env, r, e), d)
  {
    match e {
      case ReadEvent(id, signals) => ReadHonest(env, r, id, signals, d);
      case CallEvent(id, functionId, args) => CallHonest(env, r, id, functionId, args, d);
      case HealthEvent(_) =>
      case TickEvent(_) =>
      case TripEvent(_) =>
    }
  }

  // ----- Safe or FAULT -----------------------------------------------------------------------

  predicate SafeOrFault(r: Runtime, d: InventoryDevice) {
    Ready(r.world, d) && (Fault(r, d.id) || Safe(d.deviceType, OutputsAt(r.world, d)))
  }

  lemma OtherCallElsewhere(c: InventoryDevice, functionId: nat, args: Args, d: InventoryDevice)
    requires c.address != d.address
    ensures HarmlessTo(CallSends(c, functionId, args), d)
  {
  }

  lemma StepHarmless(r: Runtime, e: Event, d: InventoryDevice)
    requires DistinctDevices(r.devices) && d in r.devices && !CallsTo(e, d)
    ensures HarmlessTo(EventSends(r, e), d)
  {
    if Subject(r, e).Some? {
      var c := Subject(r, e).value;
      AutoSendsHarmless(c, r.policy, r.devices, d);
      if e.CallEvent? {
        if c.address == d.address {
          SameDevice(r.devices, d, c);
        }
        OtherCallElsewhere(c, e.functionId, e.args, d);
      }
    }
  }

  lemma ExpireKeepsOutputs(r: Runtime, a: byte, d: InventoryDevice)
    requires SafeOrFault(r, d)
    ensures SafeOrFault(Expire(r, a), d)
  {
    if Safe(d.deviceType, OutputsAt(r.world, d)) {
      var o' := OutputsAt(Expire(r, a).world, d);
      forall j | 0 <= j < |Steps(d.deviceType)| ensures StepDone(d.deviceType, j, o') {
        assert StepDone(d.deviceType, j, OutputsAt(r.world, d));
      }
    }
  }

  /** A step that leaves the metric of `d` alone. */
  lemma UndrivenKeeps(r: Runtime, r': Runtime, e: Event, d: InventoryDevice)
    requires Advances(r, r', e) && !e.TripEvent? && SafeOrFault(r, d) && HarmlessTo(EventSends(r, e), d)
    requires Fault(r', d.id) <==> Fault(r, d.id)
    ensures SafeOrFault(r', d)
  {
    MovesKeepReady(r.world, r'.world, EventSends(r, e), d);
    if !Fault(r, d.id) {
      MovesKeepSafe(r.world, r'.world, EventSends(r, e), d);
    }
  }

  /** The step drove `d`. */
  predicate Drove(r: Runtime, r': Runtime, d: InventoryDevice) {
    |r'.drives| > |r.drives| && r'.drives[|r'.drives| - 1].device == d
  }

  lemma MetricChange(r: Runtime, r': Runtime, d: InventoryDevice)
    requires Metered(r, r') && DistinctDevices(r.devices) && d in r.devices
    ensures !Drove(r, r', d) ==> (Fault(r', d.id) <==> Fault(r, d.id))
    ensures Drove(r, r', d) ==> (Fault(r', d.id) <==> !r'.drives[|r'.drives| - 1].ok)
  {
    if r'.drives != r.drives {
      var last := r'.drives[|r.drives|];
      if last.device.id == d.id {
        SameDevice(r.devices, d, last.device);
      }
    }
  }

  lemma StepKeepsReady(r: Runtime, r': Runtime, e: Event, d: InventoryDevice)
    requires Advances(r, r', e) && Ready(r.world, d)
    ensures Ready(r'.world, d)
  {
    if !e.TripEvent? {
      MovesKeepReady(r.world, r'.world, EventSends(r, e), d);
    }
  }

  /** A step that drives `d` leaves it safe or in FAULT; so does one that neither drives nor calls it. */
  lemma StepSafeOrFault(r: Runtime, r': Runtime, e: Event, d: InventoryDevice)
    requires Advances(r, r', e) && Honest(r, r', d) && Ready(r.world, d)
    requires DistinctDevices(r.devices) && d in r.devices
    requires Drove(r, r', d) || (!CallsTo(e, d) && SafeOrFault(r, d))
    ensures SafeOrFault(r', d)
  {
    StepKeepsReady(r, r', e, d);
    MetricChange(r, r', d);
    if !Drove(r, r', d) {
      if e.TripEvent? {
        ExpireKeepsOutputs(r, e.address, d);
      } else {
        StepHarmless(r, e, d);
        UndrivenKeeps(r, r', e, d);
      }
    }
  }

  // ----- Startup -----------------------------------------------------------------------------

  lemma PolicyKeepsReady(env: Env, r: Runtime, c: InventoryDevice, d: InventoryDevice)
    requires Ready(r.world, d)
    ensures Ready(ApplyPolicy(env, r, c).world, d)
  {
    if r.policy.DriveOutputsSafe? {
      DriveMoves(env, r.world, c, SafeSends(c));
      MovesKeepReady(r.world, DriveDevice(env, r, c).world, SafeSends(c), d);
    }
  }

  /** Reached or not, device `m` is ready; once reached, its outputs are safe or FAULT is on record. */
  predicate Reached(r: Runtime, ds: seq<InventoryDevice>, m: nat, n: nat)
    requires m < |ds|
  {
    r.policy.DriveOutputsSafe? && Ready(r.world, ds[m]) && (m < n ==> SafeOrFault(r, ds[m]))
  }

  lemma PolicyReaches(env: Env, r: Runtime, ds: seq<InventoryDevice>, m: nat, n: nat)
    requires n < |ds| && m < |ds| && DistinctDevices(ds) && Confirmable(env, ds[m]) && Reached(r, ds, m, n)
    ensures Reached(ApplyPolicy(env, r, ds[n]), ds, m, n + 1)
  {
    PolicyKeepsReady(env, r, ds[n], ds[m]);
    if m == n {
      DriveDeviceHonest(env, r, ds[m]);
    } else if m < n {
      OtherDriveKeeps(env, r, ds, ds[n], ds[m]);
    }
  }

  lemma {:induction false} ForEachReaches(
    apply: (Runtime, InventoryDevice) -> Runtime, r: Runtime, ds: seq<InventoryDevice>, m: nat, n: nat)
    requires n <= |ds| && m < |ds| && Reached(r, ds, m, 0)
    requires forall x: Runtime, i: nat | i < |ds| && Reached(x, ds, m, i) :: Reached(apply(x, ds[i]), ds, m, i + 1)
    ensures Reached(ForEach(apply, r, ds, n), ds, m, n)
  {
    if n > 0 {
      ForEachReaches(apply, r, ds, m, n - 1);
    }
  }

  lemma PoliciesReach(env: Env, r: Runtime, m: nat)
    requires m < |r.devices| && DistinctDevices(r.devices) && Confirmable(env, r.devices[m])
    requires Reached(r, r.devices, m, 0)
    ensures Reached(ApplyPolicies(env, r, |r.devices|), r.devices, m, |r.devices|)
  {
    var ds := r.devices;
    forall x: Runtime, i: nat | i < |ds| && Reached(x, ds, m, i)
      ensures Reached(PolicyStep(env)(x, ds[i]), ds, m, i + 1)
    {
      PolicyReaches(env, x, ds, m, i);
    }
    ForEachReaches(PolicyStep(env), r, ds, m, |ds|);
  }

  lemma OtherDriveKeeps(env: Env, r: Runtime, ds: seq<InventoryDevice>, c: InventoryDevice, d: InventoryDevice)
    requires DistinctDevices(ds) && c in ds && d in ds && c.id != d.id && SafeOrFault(r, d)
    ensures SafeOrFault(DriveDevice(env, r, c), d)
  {
    DriveMoves(env, r.world, c, AutoSends(c, DriveOutputsSafe));
    AutoSendsHarmless(c, DriveOutputsSafe, ds, d);
    MovesKeepReady(r.world, DriveDevice(env, r, c).world, AutoSends(c, DriveOutputsSafe), d);
    if !Fault(r, d.id) {
      MovesKeepSafe(r.world, DriveDevice(env, r, c).world, AutoSends(c, DriveOutputsSafe), d);
    }
  }

  lemma {:induction false} ArmAllKeepsSafe(env: Env, w: World, ds: seq<InventoryDevice>, n: nat, d: InventoryDevice)
    requires n <= |ds| && Ready(w, d)
    ensures var w' := ArmAll(env, w, ds, n);
            Ready(w', d) && (Safe(d.deviceType, OutputsAt(w, d)) ==> Safe(d.deviceType, OutputsAt(w', d)))
  {
    if n > 0 {
      ArmAllKeepsSafe(env, w, ds, n - 1, d);
      ArmKeepsSafe(env, ArmAll(env, w, ds, n - 1), ds[n - 1], d);
    }
  }

  /** Startup leaves every device safe, or its FAULT on record. */
  lemma LaunchSafeOrFault(env: Env, w: World, ds: seq<InventoryDevice>, armedAt: Time, d: InventoryDevice)
    requires DistinctDevices(ds) && d in ds && Ready(w, d) && Confirmable(env, d)
    ensures SafeOrFault(Launch(env, w, ds, DriveOutputsSafe, armedAt), d)
  {
    var m :| 0 <= m < |ds| && ds[m] == d;
    var idle := Idle(w, ds, DriveOutputsSafe, armedAt);
    PoliciesReach(env, idle, m);
    ArmAllKeepsSafe(env, ApplyPolicies(env, idle, |ds|).world, ds, |ds|, d);
  }

  // ----- Whole runs --------------------------------------------------------------------------

  /**
   Since the most recent drive of `d` before point `j`, or since startup if there is none, no call to
   `d` was made. A drive inside a call to `d` itself, in the recovery it ends with, comes after it.
   */
  predicate UncalledSinceDrive(rs: seq<Runtime>, es: seq<Event>, j: nat, d: InventoryDevice)
    requires j <= |es| < |rs|
  {
    j == 0 || Drove(rs[j - 1], rs[j], d) || (!CallsTo(es[j - 1], d) && UncalledSinceDrive(rs, es, j - 1, d))
  }

  lemma {:induction false} RunSafeOrFault(env: Env, rs: seq<Runtime>, es: seq<Event>, j: nat, d: InventoryDevice)
    requires IsRun(env, rs, es) && Trace(rs, es) && j <= |es|
    requires DistinctDevices(rs[0].devices) && d in rs[0].devices && Confirmable(env, d) && SafeOrFault(rs[0], d)
    ensures rs[j].devices == rs[0].devices && Ready(rs[j].world, d)
    ensures UncalledSinceDrive(rs, es, j, d) ==> SafeOrFault(rs[j], d)
  {
    if j > 0 {
      var n := j - 1;
      RunSafeOrFault(env, rs, es, n, d);
      assert Advances(rs[n], rs[n + 1], es[n]);
      assert rs[n + 1] == Next(env, rs[n], es[n]);
      StepHonest(env, rs[n], es[n], d);
      StepKeepsReady(rs[n], rs[j], es[n], d);
      if UncalledSinceDrive(rs, es, j, d) {
        StepSafeOrFault(rs[n], rs[j], es[n], d);
      }
    }
  }

  /**
   From startup under the safe policy, under every fault pattern and through every order of calls,
   reads, health reads, recoveries, ticks and trips: wherever no call to a device follows its most
   recent safe-output drive, its outputs are safe or health reports FAULT for it. The drive may be
   startup's, or a recovery's inside a read or inside a call to the device itself.
   */
  lemma SafeOrFaultSinceDrive(
    env: Env, w: World, ds: seq<InventoryDevice>, armedAt: Time, rs: seq<Runtime>, es: seq<Event>, j: nat,
    d: InventoryDevice)
    requires DistinctDevices(ds) && d in ds && Ready(w, d) && Confirmable(env, d)
    requires IsRun(env, rs, es) && rs[0] == Launch(env, w, ds, DriveOutputsSafe, armedAt) && j <= |es|
    ensures Ready(rs[j].world, d)
    ensures UncalledSinceDrive(rs, es, j, d) ==>
              Health(env, rs[j], d.id).1.fault || Safe(d.deviceType, OutputsAt(rs[j].world, d))
  {
    LaunchTold(env, w, ds, DriveOutputsSafe, armedAt);
    LaunchSafeOrFault(env, w, ds, armedAt, d);
    RunIsTrace(env, rs, es);
    RunSafeOrFault(env, rs, es, j, d);
    FindSelf(ds, d);
    HealthReportsFault(env, rs[j], d);
  }

  lemma {:induction false} NeverCalled(rs: seq<Runtime>, es: seq<Event>, j: nat, d: InventoryDevice)
    requires j <= |es| < |rs| && forall n | 0 <= n < j :: !CallsTo(es[n], d)
    ensures UncalledSinceDrive(rs, es, j, d)
  {
    if j > 0 {
      NeverCalled(rs, es, j - 1, d);
    }
  }

  /** In particular, at every point before the first call to a device. */
  lemma SafeOrFaultUntilCalled(
    env: Env, w: World, ds: seq<InventoryDevice>, armedAt: Time, rs: seq<Runtime>, es: seq<Event>, j: nat,
    d: InventoryDevice)
    requires DistinctDevices(ds) && d in ds && Ready(w, d) && Confirmable(env, d)
    requires IsRun(env, rs, es) && rs[0] == Launch(env, w, ds, DriveOutputsSafe, armedAt) && j <= |es|
    requires forall n | 0 <= n < j :: !CallsTo(es[n], d)
    ensures Ready(rs[j].world, d)
    ensures Health(env, rs[j], d.id).1.fault || Safe(d.deviceType, OutputsAt(rs[j].world, d))
  {
    NeverCalled(rs, es, j, d);
    SafeOrFaultSinceDrive(env, w, ds, armedAt, rs, es, j, d);
  }
}
