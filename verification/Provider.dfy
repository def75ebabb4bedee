/** The provider object: its session, inventory, metrics and feeder, changed in place by requests. */
module ProviderObject {
  import opened Bytes
  import opened Protocol
  import opened SessionModel
  import opened SessionObjects
  import opened Capabilities
  import opened AdapterHelpers
  import opened Watchdog
  import opened Keepalive
  import opened RuntimeModel
  import AdapterMethods

  class Provider {
    const session: Session
    const devices: seq<InventoryDevice>
    const policy: OutputsPolicy
    const feeder: Feeder
    var safe: map<string, Metric>
    var drives: seq<DriveRecord>

    ghost predicate Valid()
      reads this, feeder
    {
      feeder.session == session && session.retry < 0x7FFF_FFFF
    }

    ghost function State(): Runtime
      reads this, feeder, session, session.transport, session.transport.bus
    {
      Runtime(session.State(), devices, policy, safe, feeder.State(), drives)
    }

    /** `drive` a device and record the metric. */
    method DriveAndRecord(d: InventoryDevice)
      requires Valid()
      modifies this, session, session.transport, session.transport.bus
      ensures Valid() && State() == DriveDevice(session.Environment(), old(State()), d)
    {
      var ok, failures := AdapterMethods.DriveSafe(session, d);
      safe := safe[d.id := if ok then Set else NotSet(failures)];
      drives := drives + [DriveRecord(d, ok)];
    }

    method ApplyOutputsPolicy(d: InventoryDevice)
      requires Valid()
      modifies this, session, session.transport, session.transport.bus
      ensures Valid() && State() == PolicyStep(session.Environment())(old(State()), d)
    {
      if policy.LeaveOutputs? {
        safe := safe[d.id := Left];
      } else {
        DriveAndRecord(d);
      }
    }

    method ApplyOutputsPolicies()
      requires Valid()
      modifies this, session, session.transport, session.transport.bus
      ensures Valid() && State() == ApplyPolicies(session.Environment(), old(State()), |devices|)
    {
      ghost var apply := PolicyStep(session.Environment());
      for n := 0 to |devices|
        invariant Valid() && State() == ForEach(apply, old(State()), devices, n)
      {
        ApplyOutputsPolicy(devices[n]);
      }
    }

    method ArmWatchdogs()
      requires Valid()
      modifies session, session.transport, session.transport.bus
      ensures Valid()
      ensures State() == old(State()).(
        world := ArmAll(session.Environment(), old(State()).world, devices, |devices|))
    {
      for n := 0 to |devices|
        invariant session.State() == ArmAll(session.Environment(), old(State()).world, devices, n)
      {
        ArmIfConfigured(session, devices[n]);
      }
    }

    /** Startup on a session whose inventory is known. */
    constructor (session: Session, devices: seq<InventoryDevice>, policy: OutputsPolicy, armedAt: Time)
      requires session.retry < 0x7FFF_FFFF
      modifies session, session.transport, session.transport.bus
      ensures Valid() && this.session == session
      ensures State() == Launch(session.Environment(), old(session.State()), devices, policy, armedAt)
    {
      this.session, this.devices, this.policy := session, devices, policy;
      feeder := new Feeder(session, devices, KEEPALIVE_CAP, armedAt);
      safe, drives := map[], [];
      new;
      ApplyOutputsPolicies();
      ArmWatchdogs();
    }

    method HandleRecovery(d: InventoryDevice)
      requires Valid()
      modifies this, session, session.transport, session.transport.bus
      ensures Valid() && State() == Recover(session.Environment(), old(State()), d)
    {
      var taken := session.TakeRecovery(d.address);
      if !taken {
        return;
      }
      if policy.DriveOutputsSafe? {
        DriveAndRecord(d);
      }
      ArmIfConfigured(session, d);
    }

    method Read(id: string, ids: seq<SignalId>) returns (result: ReadResult)
      requires Valid()
      modifies this, feeder, session, session.transport, session.transport.bus
      ensures Valid() && (State(), result) == RuntimeModel.Read(session.Environment(), old(State()), id, ids)
    {
      var d := FindDevice(devices, id);
      if d.None? {
        return ReadFailure(AdppNotFound);
      }
      feeder.NoteContact(id);
      result := AdapterMethods.ReadDevice(session, d.value, ids);
      if result.ok {
        HandleRecovery(d.value);
      }
    }

    method Call(id: string, functionId: nat, args: Args) returns (result: CallResult)
      requires Valid()
      modifies this, feeder, session, session.transport, session.transport.bus
      ensures Valid() && (State(), result) == RuntimeModel.Call(session.Environment(), old(State()), id, functionId, args)
    {
      var d := FindDevice(devices, id);
      if d.None? {
        return CallResult(false, AdppNotFound, UnknownDevice);
      }
      feeder.NoteContact(id);
      if !FunctionExists(d.value, functionId) {
        return CallResult(false, AdppNotFound, UnknownFunction);
      }
      result := AdapterMethods.CallDevice(session, d.value, functionId, args);
      if result.ok {
        HandleRecovery(d.value);
      }
    }

    method DeviceHealth(id: string) returns (report: HealthReport)
      requires Valid()
      modifies session, session.transport, session.transport.bus
      ensures Valid() && (State(), report) == Health(session.Environment(), old(State()), id)
    {
      var found := FindDevice(devices, id);
      if found.None? {
        return HealthReport(false, false, None, AddressStats(0, 0, 0, 0, false), None);
      }
      var d := found.value;
      var fault := id in safe && safe[id].NotSet?;
      var stats := if d.address in session.stats then session.stats[d.address] else AddressStats(0, 0, 0, 0, false);
      var watchdog := None;
      if d.watchdogMs > 0 && CapabilitySupported(d) && d.address !in session.lastOpFailed {
        watchdog := Query(session, d);
        if watchdog.Some? && !watchdog.value.armed && !watchdog.value.tripped {
          ArmIfConfigured(session, d);
        }
      }
      report := HealthReport(true, fault, MetricFor(safe, id), stats, watchdog);
    }

    method KeepaliveTick(now: Time) returns (next: Option<Time>)
      requires Valid()
      modifies feeder, session, session.transport, session.transport.bus
      ensures Valid() && State() == FeedTick(session.Environment(), old(State()), now)
      ensures next == Tick(old(feeder.State()), now).next
    {
      next := feeder.DoTick(now);
    }
  }
}
