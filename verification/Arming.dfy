/**
 Watchdogs do get armed. Under any faults startup, a recovery and a health read that finds a device
 disarmed each try to send it its timeout; on a clean link a device that acts on what it receives
 ends up with that timeout.
 */
module Arming {
  import opened Bytes
  import opened Protocol
  import opened CannedDevice
  import opened SessionModel
  import opened Capabilities
  import opened Footprint
  import opened SafeOutputs
  import opened Watchdog
  import opened Keepalive
  import opened RuntimeModel
  import opened CleanDrive
  import opened Elsewhere
  import opened WatchdogHealth

  // ----- What is tried, under any faults -----------------------------------------------------

  /** A SET_WATCHDOG whose two payload bytes are the configured timeout, low byte first. */
  predicate IsArming(f: Frame, d: InventoryDevice) {
    && f.opcode == OP_SET_WATCHDOG && f.typeId == TypeId(d.deviceType)
    && |f.payload| == 2 && (f.payload[0] as int) + 0x100 * (f.payload[1] as int) == d.watchdogMs
  }

  ghost predicate TriesToArm(w: World, w': World, d: InventoryDevice) {
    exists f :: IsArming(f, d) && SentBetween(w, w', d.address, f)
  }

  predicate Reachable(w: World, d: InventoryDevice) {
    w.open && ValidAddress(d.address)
  }

  lemma ArmFrameArms(d: InventoryDevice)
    ensures IsArming(ArmFrame(d), d)
  {
  }

  lemma ArmTries(env: Env, w: World, d: InventoryDevice)
    requires Armable(d) && Reachable(w, d)
    ensures TriesToArm(w, Arm(env, w, d), d)
  {
    ArmFrameArms(d);
    PerformAttempts(env, w, d.address, SendFrame(ArmFrame(d)));
  }

  lemma TriesLater(w: World, w1: World, w2: World, w3: World, d: InventoryDevice)
    requires TriesToArm(w1, w2, d) && w.log <= w1.log && w2.log <= w3.log
    ensures TriesToArm(w, w3, d)
  {
    var f :| IsArming(f, d) && SentBetween(w1, w2, d.address, f);
    SentLater(w, w1, w2, d.address, f);
    SentEarlier(w, w2, w3, d.address, f);
  }

  lemma {:induction false} ArmAllTries(env: Env, w: World, ds: seq<InventoryDevice>, n: nat, m: nat)
    requires n <= |ds| && m < n && Armable(ds[m]) && Reachable(w, ds[m])
    ensures TriesToArm(w, ArmAll(env, w, ds, n), ds[m])
  {
    var w1, s := ArmAll(env, w, ds, n - 1), StartupSends(ds, LeaveOutputs);
    forall d | d in ds ensures ArmSends(d) <= s {
      assert ArmSends(d) <= AutoSends(d, LeaveOutputs) <= s;
    }
    ArmAllMoves(env, w, ds, n - 1, s);
    if m == n - 1 {
      ArmTries(env, w1, ds[m]);
      TriesLater(w, w1, ArmAll(env, w, ds, n), ArmAll(env, w, ds, n), ds[m]);
    } else {
      ArmAllTries(env, w, ds, n - 1, m);
      ArmMoves(env, w1, ds[n - 1], s);
      TriesLater(w, w, w1, ArmAll(env, w, ds, n), ds[m]);
    }
  }

  lemma PoliciesMove(env: Env, w: World, ds: seq<InventoryDevice>, policy: OutputsPolicy, armedAt: Time)
    ensures Moves(w, ApplyPolicies(env, Idle(w, ds, policy, armedAt), |ds|).world, StartupSends(ds, policy))
  {
    var apply, s := PolicyStep(env), StartupSends(ds, policy);
    forall x: Runtime, d: InventoryDevice | x.policy == policy && d in ds
      ensures Moves(x.world, apply(x, d).world, s) && apply(x, d).policy == policy
    {
      assert AutoSends(d, policy) <= s;
      PolicyMoves(env, x, d, s);
    }
    ForEachMoves(apply, Idle(w, ds, policy, armedAt), ds, |ds|, s);
  }

  /** Startup tries to arm every armable device, whatever the bus did before and does then. */
  lemma LaunchTriesToArm(
    env: Env, w: World, ds: seq<InventoryDevice>, policy: OutputsPolicy, armedAt: Time, d: InventoryDevice)
    requires d in ds && Armable(d) && Reachable(w, d)
    ensures TriesToArm(w, Launch(env, w, ds, policy, armedAt).world, d)
  {
    var m :| 0 <= m < |ds| && ds[m] == d;
    var driven := ApplyPolicies(env, Idle(w, ds, policy, armedAt), |ds|).world;
    PoliciesMove(env, w, ds, policy, armedAt);
    ArmAllTries(env, driven, ds, |ds|, m);
    TriesLater(w, driven, ArmAll(env, driven, ds, |ds|), ArmAll(env, driven, ds, |ds|), d);
  }

  /** A recovery ends by trying to arm the device. */
  lemma RecoveryTriesToArm(env: Env, r: Runtime, d: InventoryDevice)
    requires d.address in r.world.book.recovery && Armable(d) && Reachable(r.world, d)
    ensures TriesToArm(r.world, Recover(env, r, d).world, d)
  {
    var taken := TakeFlag(r, d);
    var driven := if r.policy.DriveOutputsSafe? then DriveDevice(env, taken, d) else taken;
    if r.policy.DriveOutputsSafe? {
      DriveMoves(env, taken.world, d, SafeSends(d));
    }
    ArmTries(env, driven.world, d);
    TriesLater(r.world, driven.world, Arm(env, driven.world, d), Arm(env, driven.world, d), d);
  }

  /** A health read that finds an armable device disarmed and not tripped tries to arm it. */
  lemma HealthTriesToArm(env: Env, r: Runtime, d: InventoryDevice)
    requires FindDevice(r.devices, d.id) == Some(d) && Armable(d) && Reachable(r.world, d)
    ensures var (r', report) := Health(env, r, d.id);
            report.watchdog.Some? && !report.watchdog.value.armed && !report.watchdog.value.tripped ==>
              TriesToArm(r.world, r'.world, d)
  {
    var (w, status) := QueryStatus(env, r.world, d);
    QueryStatusMoves(env, r.world, d, iset{});
    if d.address !in r.world.book.failed && status.Some? && !status.value.armed && !status.value.tripped {
      ArmTries(env, w, d);
      TriesLater(r.world, w, Arm(env, w, d), Arm(env, w, d), d);
    }
  }

  // ----- What is achieved, on a clean link ---------------------------------------------------

  /** The device holds the configured timeout. */
  predicate Armed(w: World, d: InventoryDevice) {
    d.address in w.bus.devices && w.bus.devices[d.address].out.wdTimeout == d.watchdogMs
  }

  lemma TouchKeepsWilling(env: Env, w: World, w': World, a: byte, d: InventoryDevice)
    requires Touches(w, w', a) && a != d.address && Willing(env, w, d)
    ensures Willing(env, w', d) && (Armed(w, d) ==> Armed(w', d))
  {
  }

  lemma TimeoutActs(d: InventoryDevice, typeId: byte, o: Outputs)
    ensures Act(typeId, o, ArmFrame(d)).wdTimeout == d.watchdogMs
  {
  }

  lemma ArmArms(env: Env, w: World, d: InventoryDevice)
    requires Willing(env, w, d)
    ensures Willing(env, Arm(env, w, d), d) && (Armable(d) ==> Armed(Arm(env, w, d), d))
  {
    if Armable(d) {
      WillingTakes(env, w, d, ArmFrame(d));
      TimeoutActs(d, w.bus.devices[d.address].typeId, w.bus.devices[d.address].out);
    }
  }

  lemma {:induction false} ArmAllArms(env: Env, w: World, ds: seq<InventoryDevice>, n: nat, m: nat)
    requires n <= |ds| && m < |ds| && DistinctDevices(ds) && Armable(ds[m]) && Willing(env, w, ds[m])
    ensures var w' := ArmAll(env, w, ds, n); Willing(env, w', ds[m]) && (m < n ==> Armed(w', ds[m]))
  {
    if n > 0 {
      var w1 := ArmAll(env, w, ds, n - 1);
      ArmAllArms(env, w, ds, n - 1, m);
      if m == n - 1 {
        ArmArms(env, w1, ds[m]);
      } else {
        ArmTouches(env, w1, ds[n - 1]);
        assert ds[n - 1].address != ds[m].address;
        TouchKeepsWilling(env, w1, Arm(env, w1, ds[n - 1]), ds[n - 1].address, ds[m]);
      }
    }
  }

  lemma PolicyKeepsWilling(env: Env, r: Runtime, c: InventoryDevice, d: InventoryDevice)
    requires Willing(env, r.world, d) && (c == d || c.address != d.address)
    ensures Willing(env, ApplyPolicy(env, r, c).world, d)
  {
    if r.policy.DriveOutputsSafe? {
      if c == d {
        CleanDriveSucceeds(env, r.world, d);
      } else {
        DriveTouches(env, r.world, c);
        TouchKeepsWilling(env, r.world, Drive(env, r.world, c).world, c.address, d);
      }
    }
  }

  lemma {:induction false} ForEachKeepsWilling(
    env: Env, apply: (Runtime, InventoryDevice) -> Runtime, r: Runtime, ds: seq<InventoryDevice>, n: nat, d: InventoryDevice)
    requires n <= |ds| && Willing(env, r.world, d)
    requires forall x: Runtime, c: InventoryDevice | Willing(env, x.world, d) && c in ds ::
               Willing(env, apply(x, c).world, d)
    ensures Willing(env, ForEach(apply, r, ds, n).world, d)
  {
    if n > 0 {
      ForEachKeepsWilling(env, apply, r, ds, n - 1, d);
    }
  }

  /**
   After startup on a clean link, every armable device that acts on what it receives holds its
   configured timeout, whatever the other devices do.
   */
  lemma LaunchArms(
    env: Env, w: World, ds: seq<InventoryDevice>, policy: OutputsPolicy, armedAt: Time, d: InventoryDevice)
    requires DistinctDevices(ds) && d in ds && Armable(d) && Willing(env, w, d)
    ensures Armed(Launch(env, w, ds, policy, armedAt).world, d)
  {
    var m :| 0 <= m < |ds| && ds[m] == d;
    var apply, idle := PolicyStep(env), Idle(w, ds, policy, armedAt);
    forall x: Runtime, c: InventoryDevice | Willing(env, x.world, d) && c in ds
      ensures Willing(env, apply(x, c).world, d)
    {
      var k :| 0 <= k < |ds| && ds[k] == c;
      assert k == m || ds[k].address != ds[m].address;
      PolicyKeepsWilling(env, x, c, d);
    }
    ForEachKeepsWilling(env, apply, idle, ds, |ds|, d);
    ArmAllArms(env, ApplyPolicies(env, idle, |ds|).world, ds, |ds|, m);
  }

  /** So does such a device after a recovery. */
  lemma RecoveryArms(env: Env, r: Runtime, d: InventoryDevice)
    requires d.address in r.world.book.recovery && Armable(d) && Willing(env, r.world, d)
    ensures Armed(Recover(env, r, d).world, d)
  {
    var taken := TakeFlag(r, d);
    if r.policy.DriveOutputsSafe? {
      CleanDriveSucceeds(env, taken.world, d);
      ArmArms(env, DriveDevice(env, taken, d).world, d);
    } else {
      ArmArms(env, taken.world, d);
    }
  }

  /** On a clean link a status query is answered with what the device holds. */
  lemma CleanStatus(env: Env, w: World, d: InventoryDevice)
    requires Willing(env, w, d)
    ensures var (w', status) := QueryStatus(env, w, d);
            status == Some(StatusOf(w.bus.devices[d.address].out)) && Willing(env, w', d)
  {
    var a := d.address;
    var dev := w.bus.devices[a];
    var b1 := SendOnce(env.tape, w.bus, a, QueryFrame(OP_GET_WATCHDOG)).bus;
    assert b1.devices[a] == dev.(pending := Some(OP_GET_WATCHDOG));
    var t := ReadOnce(env.tape, b1, a);
    assert t.code.CodeOk? && t.reply == Some(Frame(dev.typeId, OP_GET_WATCHDOG, WatchdogPayload(dev.out)));
    ParsesStatus(dev.typeId, dev.out);
    assert TryOnce(env.tape, w.bus, a, QueryFor(OP_GET_WATCHDOG)) == t;
    assert Final(t, 1, MaxAttempts(env.retry));
  }

  /**
   A health read on a clean link shows the status of an armable device whose last operation did not
   fail, and leaves it armed if it was disarmed and not tripped.
   */
  lemma HealthArms(env: Env, r: Runtime, d: InventoryDevice)
    requires FindDevice(r.devices, d.id) == Some(d) && Armable(d) && Willing(env, r.world, d)
    requires d.address !in r.world.book.failed
    ensures var (r', report) := Health(env, r, d.id);
            var o := r.world.bus.devices[d.address].out;
            && report.watchdog == Some(StatusOf(o))
            && (o.wdTimeout == 0 && !o.wdTripped ==> Armed(r'.world, d))
  {
    CleanStatus(env, r.world, d);
    ArmArms(env, QueryStatus(env, r.world, d).0, d);
  }

  // ----- The rest of a health report ---------------------------------------------------------

  /**
   A health report knows exactly the devices of the inventory, and carries the statistics on record
   at the device's address, zeros if there are none.
   */
  lemma HealthStatistics(env: Env, r: Runtime, id: string)
    ensures var report := Health(env, r, id).1;
            && (report.known <==> exists d :: d in r.devices && d.id == id)
            && (report.known ==>
                  exists d :: d in r.devices && d.id == id
                    && if d.address in r.world.book.stats then report.stats == r.world.book.stats[d.address]
                       else report.stats == AddressStats(0, 0, 0, 0, false))
            && (!report.known ==> !report.fault && report.watchdog.None?)
  {
    var found := FindDevice(r.devices, id);
    if found.Some? {
      assert found.value in r.devices && found.value.id == id;
    }
  }
}
