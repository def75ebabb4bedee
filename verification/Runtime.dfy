/**
 The provider at run time: startup, reads, calls, health reads, recoveries and keepalive ticks,
 as steps of one state machine over the session, the inventory and the safe-output metrics.

 `drives` is an observation of the model: every safe-output drive, in order, and whether it
 reported success.
 */
module RuntimeModel {
  import opened Bytes
  import opened Protocol
  import opened CannedDevice
  import opened SessionModel
  import opened Capabilities
  import opened Footprint
  import opened AdapterHelpers
  import opened SafeOutputs
  import opened Watchdog
  import opened Keepalive
  import DeviceAdapter
  import DcmtAdapter

  datatype OutputsPolicy = DriveOutputsSafe | LeaveOutputs

  /** The health metric "set" / "not set: ..." / "left". */
  datatype Metric = Set | NotSet(failures: seq<nat>) | Left

  datatype DriveRecord = DriveRecord(device: InventoryDevice, ok: bool)

  datatype Runtime = Runtime(
    world: World,
    devices: seq<InventoryDevice>,
    policy: OutputsPolicy,
    safe: map<string, Metric>,
    keep: FeedState,
    drives: seq<DriveRecord>)

  // ----- Safe outputs and recovery -----------------------------------------------------------

  function MetricOf(failures: seq<nat>): Metric {
    if failures == [] then Set else NotSet(failures)
  }

  /** Drive one device safe and keep the metric. */
  function DriveDevice(env: Env, r: Runtime, d: InventoryDevice): Runtime {
    var out := Drive(env, r.world, d);
    r.(world := out.world,
       safe := r.safe[d.id := MetricOf(out.failures)],
       drives := r.drives + [DriveRecord(d, out.failures == [])])
  }

  /** What the policy does with one device at startup. */
  function ApplyPolicy(env: Env, r: Runtime, d: InventoryDevice): Runtime {
    if r.policy.LeaveOutputs? then r.(safe := r.safe[d.id := Left]) else DriveDevice(env, r, d)
  }

  /** The first `n` devices, each taking the runtime one `apply` further. */
  function ForEach(
    apply: (Runtime, InventoryDevice) -> Runtime, r: Runtime, ds: seq<InventoryDevice>, n: nat): Runtime
    requires n <= |ds|
  {
    if n == 0 then r else apply(ForEach(apply, r, ds, n - 1), ds[n - 1])
  }

  function PolicyStep(env: Env): (Runtime, InventoryDevice) -> Runtime {
    (r: Runtime, d: InventoryDevice) => ApplyPolicy(env, r, d)
  }

  /** `apply_outputs_policy` over the first `n` devices. */
  function ApplyPolicies(env: Env, r: Runtime, n: nat): Runtime
    requires n <= |r.devices|
  {
    ForEach(PolicyStep(env), r, r.devices, n)
  }

  function ArmAll(env: Env, w: World, ds: seq<InventoryDevice>, n: nat): World
    requires n <= |ds|
  {
    if n == 0 then w else Arm(env, ArmAll(env, w, ds, n - 1), ds[n - 1])
  }

  /** A runtime before its startup. */
  function Idle(w: World, ds: seq<InventoryDevice>, policy: OutputsPolicy, armedAt: Time): Runtime {
    Runtime(w, ds, policy, map[], Started(ds, KEEPALIVE_CAP, armedAt), [])
  }

  /** `initialize_until` once the inventory is known: safe outputs first, then the watchdogs. */
  function Launch(env: Env, w: World, ds: seq<InventoryDevice>, policy: OutputsPolicy, armedAt: Time): Runtime {
    var r := ApplyPolicies(env, Idle(w, ds, policy, armedAt), |ds|);
    r.(world := ArmAll(env, r.world, ds, |ds|))
  }

  function TakeFlag(r: Runtime, d: InventoryDevice): Runtime {
    r.(world := r.world.(book := TakeRecovery(r.world.book, d.address)))
  }

  /** `handle_recovery` */
  function Recover(env: Env, r: Runtime, d: InventoryDevice): Runtime {
    if d.address !in r.world.book.recovery then r
    else
      var taken := TakeFlag(r, d);
      var driven := if r.policy.DriveOutputsSafe? then DriveDevice(env, taken, d) else taken;
      driven.(world := Arm(env, driven.world, d))
  }

  // ----- Requests ----------------------------------------------------------------------------

  function Touched(r: Runtime, id: string): Runtime {
    r.(keep := Contacted(r.keep, id))
  }

  /** `read` */
  function Read(env: Env, r: Runtime, id: string, ids: seq<SignalId>): (Runtime, ReadResult) {
    match FindDevice(r.devices, id)
    case None => (r, ReadFailure(AdppNotFound))
    case Some(d) =>
      var (w, result) := DeviceAdapter.ReadSignals(env, r.world, d, ids);
      var r' := Touched(r, id).(world := w);
      (if result.ok then Recover(env, r', d) else r', result)
  }

  /** `call` */
  function Call(env: Env, r: Runtime, id: string, functionId: nat, args: Args): (Runtime, CallResult) {
    match FindDevice(r.devices, id)
    case None => (r, CallResult(false, AdppNotFound, UnknownDevice))
    case Some(d) =>
      if !FunctionExists(d, functionId) then (Touched(r, id), CallResult(false, AdppNotFound, UnknownFunction))
      else
        var (w, result) := DeviceAdapter.Call(env, r.world, true, d, functionId, args);
        var r' := Touched(r, id).(world := w);
        (if result.ok then Recover(env, r', d) else r', result)
  }

  /** What health says of a device: FAULT, its statistics, and the watchdog status if it was read. */
  datatype HealthReport = HealthReport(
    known: bool, fault: bool, outputs: Option<Metric>, stats: AddressStats, watchdog: Option<WatchdogStatus>)

  function MetricFor(safe: map<string, Metric>, id: string): Option<Metric> {
    if id in safe then Some(safe[id]) else None
  }

  predicate Fault(r: Runtime, id: string) {
    id in r.safe && r.safe[id].NotSet?
  }

  /** `device_health` */
  function Health(env: Env, r: Runtime, id: string): (Runtime, HealthReport) {
    match FindDevice(r.devices, id)
    case None => (r, HealthReport(false, false, None, AddressStats(0, 0, 0, 0, false), None))
    case Some(d) =>
      var report := HealthReport(true, Fault(r, id), MetricFor(r.safe, id), StatsOf(r.world.book, d.address), None);
      if !Armable(d) || d.address in r.world.book.failed then (r, report)
      else
        var (w, status) := QueryStatus(env, r.world, d);
        (r.(world := if status.Some? then Rearm(env, w, d, status.value) else w), report.(watchdog := status))
  }

  /** A keepalive tick. */
  function FeedTick(env: Env, r: Runtime, now: Time): Runtime {
    var t := Tick(r.keep, now);
    r.(world := FeedAll(env, r.world, t.queried), keep := t.state)
  }

  /** The watchdog of the device at `a` expires. */
  function Expire(r: Runtime, a: byte): Runtime {
    var m := r.world.bus.devices;
    if a in m then r.(world := r.world.(bus := r.world.bus.(devices := m[a := Tripped(m[a])]))) else r
  }

  // ----- Runs --------------------------------------------------------------------------------

  datatype Event =
    | ReadEvent(id: string, signals: seq<SignalId>)
    | CallEvent(id: string, functionId: nat, args: Args)
    | HealthEvent(id: string)
    | TickEvent(now: Time)
    | TripEvent(address: byte)

  function Next(env: Env, r: Runtime, e: Event): Runtime {
    match e
    case ReadEvent(id, signals) => Read(env, r, id, signals).0
    case CallEvent(id, functionId, args) => Call(env, r, id, functionId, args).0
    case HealthEvent(id) => Health(env, r, id).0
    case TickEvent(now) => FeedTick(env, r, now)
    case TripEvent(a) => Expire(r, a)
  }

  /** `rs` are the states of a run: each event takes a state to the next. */
  ghost predicate IsRun(env: Env, rs: seq<Runtime>, es: seq<Event>) {
    |rs| == |es| + 1 && forall i | 0 <= i < |es| :: rs[i + 1] == Next(env, rs[i], es[i])
  }

  // ----- Footprints --------------------------------------------------------------------------

  /** What startup, recovery, health and the keepalive may send to one device. */
  ghost function AutoSends(d: InventoryDevice, policy: OutputsPolicy): Sends {
    ArmSends(d) + if policy.DriveOutputsSafe? then SafeSends(d) else iset{}
  }

  /** What a call of a published function may send. */
  ghost function CallSends(d: InventoryDevice, functionId: nat, args: Args): Sends {
    var e := DeviceAdapter.Encode(d.deviceType, functionId, args);
    if FunctionExists(d, functionId) && e.Encoded? && !(d.deviceType.Dcmt? && DcmtAdapter.NeedsEncoders(d, e.frame))
    then iset{(d.address, e.frame)} else iset{}
  }

  /** The device a request is about. */
  function Subject(r: Runtime, e: Event): Option<InventoryDevice> {
    match e
    case ReadEvent(id, _) => FindDevice(r.devices, id)
    case CallEvent(id, _, _) => FindDevice(r.devices, id)
    case HealthEvent(id) => FindDevice(r.devices, id)
    case _ => None
  }

  /** What one step may send. */
  ghost function EventSends(r: Runtime, e: Event): Sends {
    match Subject(r, e)
    case None => iset{}
    case Some(d) =>
      AutoSends(d, r.policy) + if e.CallEvent? then CallSends(d, e.functionId, e.args) else iset{}
  }

  lemma DriveDeviceMoves(env: Env, r: Runtime, d: InventoryDevice, s: Sends)
    requires SafeSends(d) <= s
    ensures Moves(r.world, DriveDevice(env, r, d).world, s)
  {
    DriveMoves(env, r.world, d, s);
  }

  lemma RecoverMoves(env: Env, r: Runtime, d: InventoryDevice, s: Sends)
    requires AutoSends(d, r.policy) <= s
    ensures Moves(r.world, Recover(env, r, d).world, s)
  {
    MovesRefl(r.world, s);
    if d.address in r.world.book.recovery {
      var taken := TakeFlag(r, d);
      var driven := if r.policy.DriveOutputsSafe? then DriveDevice(env, taken, d) else taken;
      TakeMoves(r.world, d.address, s);
      MovesRefl(taken.world, s);
      if r.policy.DriveOutputsSafe? {
        DriveDeviceMoves(env, taken, d, s);
      }
      MovesTrans(r.world, taken.world, driven.world, s);
      ArmMoves(env, driven.world, d, s);
      MovesTrans(r.world, driven.world, Arm(env, driven.world, d), s);
    }
  }

  lemma ReadMoves(env: Env, r: Runtime, id: string, ids: seq<SignalId>)
    ensures Moves(r.world, Read(env, r, id, ids).0.world, EventSends(r, ReadEvent(id, ids)))
  {
    var s := EventSends(r, ReadEvent(id, ids));
    MovesRefl(r.world, s);
    var found := FindDevice(r.devices, id);
    if found.Some? {
      var (w, result) := DeviceAdapter.ReadSignals(env, r.world, found.value, ids);
      var r' := Touched(r, id).(world := w);
      DeviceAdapter.ReadSignalsMoves(env, r.world, found.value, ids, s);
      RecoverMoves(env, r', found.value, s);
      MovesTrans(r.world, w, Recover(env, r', found.value).world, s);
    }
  }

  lemma CallMoves(env: Env, r: Runtime, id: string, functionId: nat, args: Args)
    ensures Moves(r.world, Call(env, r, id, functionId, args).0.world, EventSends(r, CallEvent(id, functionId, args)))
  {
    var s := EventSends(r, CallEvent(id, functionId, args));
    MovesRefl(r.world, s);
    var found := FindDevice(r.devices, id);
    if found.Some? && FunctionExists(found.value, functionId) {
      var d := found.value;
      var (w, result) := DeviceAdapter.Call(env, r.world, true, d, functionId, args);
      var r' := Touched(r, id).(world := w);
      DeviceAdapter.CallMoves(env, r.world, true, d, functionId, args, s);
      RecoverMoves(env, r', d, s);
      MovesTrans(r.world, w, Recover(env, r', d).world, s);
    }
  }

  lemma HealthMoves(env: Env, r: Runtime, id: string)
    ensures Moves(r.world, Health(env, r, id).0.world, EventSends(r, HealthEvent(id)))
  {
    var s := EventSends(r, HealthEvent(id));
    MovesRefl(r.world, s);
    var found := FindDevice(r.devices, id);
    if found.Some? {
      var d := found.value;
      var w := QueryStatus(env, r.world, d).0;
      QueryStatusMoves(env, r.world, d, s);
      ArmMoves(env, w, d, s);
      MovesTrans(r.world, w, Arm(env, w, d), s);
    }
  }

  /** Every step but a watchdog expiring is provider traffic within `EventSends`. */
  lemma StepMoves(env: Env, r: Runtime, e: Event)
    requires !e.TripEvent?
    ensures Moves(r.world, Next(env, r, e).world, EventSends(r, e))
  {
    match e {
      case ReadEvent(id, signals) => ReadMoves(env, r, id, signals);
      case CallEvent(id, functionId, args) => CallMoves(env, r, id, functionId, args);
      case HealthEvent(id) => HealthMoves(env, r, id);
      case TickEvent(now) => FeedAllMoves(env, r.world, Tick(r.keep, now).queried, iset{});
    }
  }

  // ----- Startup -----------------------------------------------------------------------------

  ghost predicate SentAtStartup(ds: seq<InventoryDevice>, policy: OutputsPolicy, p: (byte, Frame)) {
    exists d :: d in ds && p in AutoSends(d, policy)
  }

  /** What startup may send. */
  ghost function StartupSends(ds: seq<InventoryDevice>, policy: OutputsPolicy): Sends {
    iset p: (byte, Frame) | SentAtStartup(ds, policy, p)
  }

  lemma PolicyMoves(env: Env, r: Runtime, d: InventoryDevice, s: Sends)
    requires AutoSends(d, r.policy) <= s
    ensures Moves(r.world, ApplyPolicy(env, r, d).world, s)
  {
    MovesRefl(r.world, s);
    if r.policy.DriveOutputsSafe? {
      DriveDeviceMoves(env, r, d, s);
    }
  }

  lemma {:induction false} ForEachMoves(
    apply: (Runtime, InventoryDevice) -> Runtime, r: Runtime, ds: seq<InventoryDevice>, n: nat, s: Sends)
    requires n <= |ds|
    requires forall x: Runtime, d: InventoryDevice | x.policy == r.policy && d in ds ::
               Moves(x.world, apply(x, d).world, s) && apply(x, d).policy == r.policy
    ensures var r' := ForEach(apply, r, ds, n); Moves(r.world, r'.world, s) && r'.policy == r.policy
  {
    MovesRefl(r.world, s);
    if n > 0 {
      ForEachMoves(apply, r, ds, n - 1, s);
      MovesTrans(r.world, ForEach(apply, r, ds, n - 1).world, ForEach(apply, r, ds, n).world, s);
    }
  }

  lemma {:induction false} ArmAllMoves(env: Env, w: World, ds: seq<InventoryDevice>, n: nat, s: Sends)
    requires n <= |ds| && forall d | d in ds :: ArmSends(d) <= s
    ensures Moves(w, ArmAll(env, w, ds, n), s)
  {
    MovesRefl(w, s);
    if n > 0 {
      ArmAllMoves(env, w, ds, n - 1, s);
      ArmMoves(env, ArmAll(env, w, ds, n - 1), ds[n - 1], s);
      MovesTrans(w, ArmAll(env, w, ds, n - 1), ArmAll(env, w, ds, n), s);
    }
  }

  lemma LaunchMoves(env: Env, w: World, ds: seq<InventoryDevice>, policy: OutputsPolicy, armedAt: Time)
    ensures Moves(w, Launch(env, w, ds, policy, armedAt).world, StartupSends(ds, policy))
  {
    var s := StartupSends(ds, policy);
    var idle := Idle(w, ds, policy, armedAt);
    var apply := PolicyStep(env);
    forall x: Runtime, d: InventoryDevice | x.policy == policy && d in ds
      ensures Moves(x.world, apply(x, d).world, s) && apply(x, d).policy == policy
    {
      assert AutoSends(d, policy) <= s;
      PolicyMoves(env, x, d, s);
    }
    ForEachMoves(apply, idle, ds, |ds|, s);
    forall d | d in ds ensures ArmSends(d) <= s {
      assert ArmSends(d) <= AutoSends(d, policy) <= s;
    }
    var r := ApplyPolicies(env, idle, |ds|);
    ArmAllMoves(env, r.world, ds, |ds|, s);
    MovesTrans(w, r.world, ArmAll(env, r.world, ds, |ds|), s);
  }

  // ----- One step, for theorems about runs ---------------------------------------------------

  /** One more metric, from one more drive of a device of the inventory; or nothing new. */
  ghost predicate Metered(r: Runtime, r': Runtime) {
    || (r'.safe == r.safe && r'.drives == r.drives)
    || (&& r.policy.DriveOutputsSafe? && |r'.drives| == |r.drives| + 1
        && var last := r'.drives[|r.drives|];
           && r'.drives == r.drives + [last] && last.device in r.devices
           && exists failures :: last.ok == (failures == []) && r'.safe == r.safe[last.device.id := MetricOf(failures)])
  }

  lemma RecoverMeters(env: Env, r: Runtime, d: InventoryDevice)
    requires d in r.devices
    ensures var r' := Recover(env, r, d);
            Metered(r, r') && r'.devices == r.devices && r'.policy == r.policy
  {
    if d.address in r.world.book.recovery && r.policy.DriveOutputsSafe? {
      var failures := Drive(env, TakeFlag(r, d).world, d).failures;
      assert Recover(env, r, d).safe == r.safe[d.id := MetricOf(failures)];
    }
  }

  /** What a step makes of the feed list: a tick feeds, a read or call of a device notes the contact. */
  function Kept(r: Runtime, e: Event): FeedState {
    match e
    case TickEvent(now) => Tick(r.keep, now).state
    case ReadEvent(id, _) => if FindDevice(r.devices, id).Some? then Contacted(r.keep, id) else r.keep
    case CallEvent(id, _, _) => if FindDevice(r.devices, id).Some? then Contacted(r.keep, id) else r.keep
    case _ => r.keep
  }

  /** What a theorem about runs needs of one step. */
  ghost predicate Advances(r: Runtime, r': Runtime, e: Event) {
    && r'.devices == r.devices && r'.policy == r.policy
    && r'.keep == Kept(r, e)
    && Metered(r, r')
    && if e.TripEvent? then r' == Expire(r, e.address) else Moves(r.world, r'.world, EventSends(r, e))
  }

  lemma ReadMeters(env: Env, r: Runtime, id: string, ids: seq<SignalId>)
    ensures var r' := Read(env, r, id, ids).0;
            Metered(r, r') && r'.devices == r.devices && r'.policy == r.policy
  {
    var found := FindDevice(r.devices, id);
    if found.Some? {
      var w := DeviceAdapter.ReadSignals(env, r.world, found.value, ids).0;
      RecoverMeters(env, Touched(r, id).(world := w), found.value);
    }
  }

  lemma CallMeters(env: Env, r: Runtime, id: string, functionId: nat, args: Args)
    ensures var r' := Call(env, r, id, functionId, args).0;
            Metered(r, r') && r'.devices == r.devices && r'.policy == r.policy
  {
    var found := FindDevice(r.devices, id);
    if found.Some? {
      var w := DeviceAdapter.Call(env, r.world, true, found.value, functionId, args).0;
      RecoverMeters(env, Touched(r, id).(world := w), found.value);
    }
  }

  lemma RecoverKeepsFeeding(env: Env, r: Runtime, d: InventoryDevice)
    ensures Recover(env, r, d).keep == r.keep
  {
  }

  lemma ReadNotesContact(env: Env, r: Runtime, id: string, ids: seq<SignalId>)
    ensures Read(env, r, id, ids).0.keep == Kept(r, ReadEvent(id, ids))
  {
    var found := FindDevice(r.devices, id);
    if found.Some? {
      var w := DeviceAdapter.ReadSignals(env, r.world, found.value, ids).0;
      RecoverKeepsFeeding(env, Touched(r, id).(world := w), found.value);
    }
  }

  lemma CallNotesContact(env: Env, r: Runtime, id: string, functionId: nat, args: Args)
    ensures Call(env, r, id, functionId, args).0.keep == Kept(r, CallEvent(id, functionId, args))
  {
    var found := FindDevice(r.devices, id);
    if found.Some? {
      var w := DeviceAdapter.Call(env, r.world, true, found.value, functionId, args).0;
      RecoverKeepsFeeding(env, Touched(r, id).(world := w), found.value);
    }
  }

  lemma StepAdvances(env: Env, r: Runtime, e: Event)
    ensures Advances(r, Next(env, r, e), e)
  {
    if !e.TripEvent? {
      StepMoves(env, r, e);
    }
    match e {
      case ReadEvent(id, signals) =>
        ReadMeters(env, r, id, signals);
        ReadNotesContact(env, r, id, signals);
      case CallEvent(id, functionId, args) =>
        CallMeters(env, r, id, functionId, args);
        CallNotesContact(env, r, id, functionId, args);
      case _ =>
    }
  }

  /** A sequence of states of which each follows from the one before. */
  ghost predicate Trace(rs: seq<Runtime>, es: seq<Event>) {
    |rs| == |es| + 1 && forall i | 0 <= i < |es| :: Advances(rs[i], rs[i + 1], es[i])
  }

  lemma RunIsTrace(env: Env, rs: seq<Runtime>, es: seq<Event>)
    requires IsRun(env, rs, es)
    ensures Trace(rs, es)
  {
    forall i | 0 <= i < |es| ensures Advances(rs[i], rs[i + 1], es[i]) {
      StepAdvances(env, rs[i], es[i]);
    }
  }
}
