/** What holds over every run of the provider, under every fault pattern and order of events. */
module RuntimeTheorems {
  import opened Bytes
  import opened Protocol
  import opened CannedDevice
  import opened SessionModel
  import opened Capabilities
  import opened Footprint
  import opened SafeOutputs
  import opened Watchdog
  import opened Keepalive
  import opened RuntimeModel
  import DeviceAdapter
  import DcmtAdapter

  // ----- Watchdog trips ----------------------------------------------------------------------

  /** The event is a call of `clear_watchdog_trip`, published by a device at `a`. */
  predicate ClearsTrip(r: Runtime, e: Event, a: byte) {
    && e.CallEvent? && Subject(r, e).Some?
    && var d := Subject(r, e).value;
       d.address == a && e.functionId == DeviceAdapter.ClearTripId(d.deviceType) && FunctionExists(d, e.functionId)
  }

  lemma AutoSendsNeverClear(d: InventoryDevice, policy: OutputsPolicy, a: byte, f: Frame)
    requires (a, f) in AutoSends(d, policy)
    ensures a == d.address && f.opcode != OP_CLEAR_WATCHDOG_TRIP
  {
  }

  lemma CallSendsClear(d: InventoryDevice, functionId: nat, args: Args, a: byte, f: Frame)
    requires (a, f) in CallSends(d, functionId, args)
    ensures a == d.address && FunctionExists(d, functionId)
    ensures f.opcode == OP_CLEAR_WATCHDOG_TRIP <==> functionId == DeviceAdapter.ClearTripId(d.deviceType)
  {
    DeviceAdapter.EncodedShape(d.deviceType, functionId, args);
  }

  /** Only a call of `clear_watchdog_trip` may send the clear opcode. */
  lemma OnlyCallsClear(r: Runtime, e: Event, a: byte, f: Frame)
    requires (a, f) in EventSends(r, e) && f.opcode == OP_CLEAR_WATCHDOG_TRIP
    ensures ClearsTrip(r, e, a)
  {
    var d := Subject(r, e).value;
    if (a, f) in AutoSends(d, r.policy) {
      AutoSendsNeverClear(d, r.policy, a, f);
    } else {
      CallSendsClear(d, e.functionId, e.args, a, f);
    }
  }

  predicate TrippedAt(w: World, a: byte) {
    a in w.bus.devices && w.bus.devices[a].out.wdTripped
  }

  lemma {:induction false} ReplayKeepsTrip(typeId: byte, o: Outputs, k: seq<Entry>)
    requires forall i | 0 <= i < |k| :: k[i].frame.opcode != OP_CLEAR_WATCHDOG_TRIP
    ensures Replay(typeId, o, k).wdTripped == o.wdTripped
  {
    if k != [] {
      ReplayKeepsTrip(typeId, o, k[..|k| - 1]);
    }
  }

  /** Footprints without the clear opcode leave a latched trip latched. */
  lemma MovesKeepTrip(w: World, w': World, s: Sends, a: byte)
    requires Moves(w, w', s) && TrippedAt(w, a)
    requires forall f: Frame :: (a, f) in s ==> f.opcode != OP_CLEAR_WATCHDOG_TRIP
    ensures TrippedAt(w', a)
  {
    var d, d' := w.bus.devices[a], w'.bus.devices[a];
    assert Grows(d, d', FramesTo(s, a));
    var k := d'.journal[|d.journal|..];
    forall i | 0 <= i < |k| ensures k[i].frame.opcode != OP_CLEAR_WATCHDOG_TRIP {
      assert k[i] == d'.journal[|d.journal| + i];
      assert k[i].frame in FramesTo(s, a);
    }
    ReplayKeepsTrip(d.typeId, d.out, k);
  }

  lemma StepKeepsTrip(r: Runtime, r': Runtime, e: Event, a: byte)
    requires Advances(r, r', e) && TrippedAt(r.world, a) && !ClearsTrip(r, e, a)
    ensures TrippedAt(r'.world, a)
  {
    if !e.TripEvent? {
      forall f: Frame | (a, f) in EventSends(r, e) ensures f.opcode != OP_CLEAR_WATCHDOG_TRIP {
        if f.opcode == OP_CLEAR_WATCHDOG_TRIP {
          OnlyCallsClear(r, e, a, f);
        }
      }
      MovesKeepTrip(r.world, r'.world, EventSends(r, e), a);
    }
  }

  ghost predicate NoClear(rs: seq<Runtime>, es: seq<Event>, a: byte, i: nat, j: nat)
    requires i <= j <= |es| <= |rs|
  {
    forall n | i <= n < j :: !ClearsTrip(rs[n], es[n], a)
  }

  lemma {:induction false} TraceKeepsTrip(rs: seq<Runtime>, es: seq<Event>, a: byte, i: nat, j: nat)
    requires Trace(rs, es) && i <= j <= |es| && TrippedAt(rs[i].world, a) && NoClear(rs, es, a, i, j)
    ensures TrippedAt(rs[j].world, a)
    decreases j
  {
    if i < j {
      var n := j - 1;
      assert Advances(rs[n], rs[n + 1], es[n]);
      assert !ClearsTrip(rs[n], es[n], a);
      TraceKeepsTrip(rs, es, a, i, n);
      StepKeepsTrip(rs[n], rs[j], es[n], a);
    }
  }

  /**
   A latched trip stays: in every run, between any two points, unless a `clear_watchdog_trip` call
   for that address lies between them.
   */
  lemma TripStaysLatched(env: Env, rs: seq<Runtime>, es: seq<Event>, a: byte, i: nat, j: nat)
    requires IsRun(env, rs, es) && i <= j <= |es| && TrippedAt(rs[i].world, a)
    requires forall n | i <= n < j :: !ClearsTrip(rs[n], es[n], a)
    ensures TrippedAt(rs[j].world, a)
  {
    RunIsTrace(env, rs, es);
    TraceKeepsTrip(rs, es, a, i, j);
  }

  /** A frame that was sent is in the footprint. */
  lemma SentIsPermitted(w: World, w': World, s: Sends, a: byte, f: Frame)
    requires Moves(w, w', s) && SentBetween(w, w', a, f)
    ensures (a, f) in s
  {
    var n :| |w.log| <= n < |w'.log| && w'.log[n] == Attempt(a, SendFrame(f));
    assert Permitted(w'.log[n], s);
  }

  lemma StepSends(env: Env, rs: seq<Runtime>, es: seq<Event>, n: nat, a: byte, f: Frame)
    requires IsRun(env, rs, es) && n < |es| && SentBetween(rs[n].world, rs[n + 1].world, a, f)
    ensures (a, f) in EventSends(rs[n], es[n])
  {
    StepAdvances(env, rs[n], es[n]);
    SentIsPermitted(rs[n].world, rs[n + 1].world, EventSends(rs[n], es[n]), a, f);
  }

  function ClearFlags(t: DeviceType): set<nat> {
    match t
    case Rlht => {RLHT_CAP_CMD_WATCHDOG, RLHT_CAP_CLEAR_WATCHDOG_TRIP}
    case Dcmt => {DCMT_CAP_CMD_WATCHDOG, DCMT_CAP_CLEAR_WATCHDOG_TRIP}
  }

  /** Clearing is published exactly where the firmware flags carry both watchdog bits. */
  lemma ClearNeedsBothFlags(d: InventoryDevice)
    requires Faithful(d)
    ensures FunctionExists(d, DeviceAdapter.ClearTripId(d.deviceType)) <==> ClearFlags(d.deviceType) <= d.profile.flags
  {
    var t, fs := d.deviceType, Functions(d);
    var os := Offers(t, d.offered);
    var id := DeviceAdapter.ClearTripId(t);
    if FunctionExists(d, id) {
      var i :| 0 <= i < |fs| && fs[i].id == id;
      OfferedMembers(os, fs[i]);
    }
    if ClearFlags(t) <= d.profile.flags {
      assert os[6].offered && os[6].spec.id == id;
      OfferedMembers(os, os[6].spec);
    }
  }

  /**
   The clear opcode is sent by nothing but a `clear_watchdog_trip` call, and only to a device whose
   flags carry both watchdog bits.
   */
  lemma ClearSentOnlyOnCall(env: Env, rs: seq<Runtime>, es: seq<Event>, n: nat, a: byte, f: Frame)
    requires IsRun(env, rs, es) && n < |es| && SentBetween(rs[n].world, rs[n + 1].world, a, f)
    requires f.opcode == OP_CLEAR_WATCHDOG_TRIP && forall d | d in rs[n].devices :: Faithful(d)
    ensures ClearsTrip(rs[n], es[n], a)
    ensures var d := Subject(rs[n], es[n]).value; ClearFlags(d.deviceType) <= d.profile.flags
  {
    StepSends(env, rs, es, n, a, f);
    OnlyCallsClear(rs[n], es[n], a, f);
    ClearNeedsBothFlags(Subject(rs[n], es[n]).value);
  }

  /** Startup clears no trip either: it never sends the clear opcode. */
  lemma StartupKeepsTrips(env: Env, w: World, ds: seq<InventoryDevice>, policy: OutputsPolicy, armedAt: Time, a: byte)
    ensures var w' := Launch(env, w, ds, policy, armedAt).world;
            && (TrippedAt(w, a) ==> TrippedAt(w', a))
            && (forall f: Frame :: SentBetween(w, w', a, f) ==> f.opcode != OP_CLEAR_WATCHDOG_TRIP)
  {
    var w' := Launch(env, w, ds, policy, armedAt).world;
    var s := StartupSends(ds, policy);
    LaunchMoves(env, w, ds, policy, armedAt);
    forall f: Frame | (a, f) in s ensures f.opcode != OP_CLEAR_WATCHDOG_TRIP {
      var d :| d in ds && (a, f) in AutoSends(d, policy);
      AutoSendsNeverClear(d, policy, a, f);
    }
    forall f: Frame | SentBetween(w, w', a, f) ensures f.opcode != OP_CLEAR_WATCHDOG_TRIP {
      SentIsPermitted(w, w', s, a, f);
    }
    if TrippedAt(w, a) {
      MovesKeepTrip(w, w', s, a);
    }
  }

  // ----- Accounts ----------------------------------------------------------------------------

  /** The statistics add up, and every acknowledgement record is true. */
  ghost predicate Sound(w: World) {
    Conserved(w) && forall a | a in w.bus.devices :: Consistent(w.bus.devices[a])
  }

  lemma MovesKeepSound(w: World, w': World, s: Sends)
    requires Moves(w, w', s) && Sound(w)
    ensures Sound(w')
  {
    forall a | a in w'.bus.devices ensures Consistent(w'.bus.devices[a]) {
      assert Grows(w.bus.devices[a], w'.bus.devices[a], FramesTo(s, a));
    }
  }

  lemma ExpireKeepsSound(r: Runtime, a: byte)
    requires Sound(r.world)
    ensures Sound(Expire(r, a).world)
  {
    forall c: byte ensures Balanced(Expire(r, a).world, c) {
      assert Balanced(r.world, c);
    }
  }

  lemma {:induction false} TraceKeepsSound(rs: seq<Runtime>, es: seq<Event>, j: nat)
    requires Trace(rs, es) && j <= |es| && Sound(rs[0].world)
    ensures Sound(rs[j].world)
  {
    if j > 0 {
      TraceKeepsSound(rs, es, j - 1);
      if es[j - 1].TripEvent? {
        ExpireKeepsSound(rs[j - 1], es[j - 1].address);
      } else {
        MovesKeepSound(rs[j - 1].world, rs[j].world, EventSends(rs[j - 1], es[j - 1]));
      }
    }
  }

  /**
   Conservation over every run, startup included: at every address attempts = ok + failed + retried,
   a success is on record exactly when ok > 0, and rejected <= ok; and no record lies.
   */
  lemma SoundThroughout(
    env: Env, w: World, ds: seq<InventoryDevice>, policy: OutputsPolicy, armedAt: Time,
    rs: seq<Runtime>, es: seq<Event>, j: nat)
    requires Sound(w) && IsRun(env, rs, es) && j <= |es|
    requires rs[0] == Launch(env, w, ds, policy, armedAt)
    ensures Sound(rs[j].world)
  {
    LaunchMoves(env, w, ds, policy, armedAt);
    MovesKeepSound(w, rs[0].world, StartupSends(ds, policy));
    RunIsTrace(env, rs, es);
    TraceKeepsSound(rs, es, j);
  }

  // ----- Safe-output metrics -----------------------------------------------------------------

  lemma SameId(ds: seq<InventoryDevice>, d: InventoryDevice, c: InventoryDevice)
    requires DistinctIds(ds) && d in ds && c in ds && d.id == c.id
    ensures d == c
  {
    var i :| 0 <= i < |ds| && ds[i] == d;
    var j :| 0 <= j < |ds| && ds[j] == c;
    assert i == j;
  }

  lemma SameDevice(ds: seq<InventoryDevice>, d: InventoryDevice, c: InventoryDevice)
    requires DistinctDevices(ds) && d in ds && c in ds && (d.id == c.id || d.address == c.address)
    ensures d == c
  {
    var i :| 0 <= i < |ds| && ds[i] == d;
    var j :| 0 <= j < |ds| && ds[j] == c;
    assert i == j;
  }

  /** How the most recent drive of a device ended. */
  function LastDrive(drives: seq<DriveRecord>, d: InventoryDevice): Option<bool> {
    if drives == [] then None
    else if drives[|drives| - 1].device == d then Some(drives[|drives| - 1].ok)
    else LastDrive(drives[..|drives| - 1], d)
  }

  /** FAULT is on record exactly where the last drive failed; without drives, nowhere. */
  predicate Told(r: Runtime) {
    && (forall d | d in r.devices :: Fault(r, d.id) <==> LastDrive(r.drives, d) == Some(false))
    && (r.policy.LeaveOutputs? ==> r.drives == [])
  }

  lemma MeteredKeepsTold(r: Runtime, r': Runtime)
    requires r'.devices == r.devices && r'.policy == r.policy && DistinctIds(r.devices)
    requires Metered(r, r') && Told(r)
    ensures Told(r')
  {
    if r'.drives != r.drives {
      var last := r'.drives[|r.drives|];
      assert r'.drives[..|r'.drives| - 1] == r.drives;
      forall d | d in r'.devices ensures Fault(r', d.id) <==> LastDrive(r'.drives, d) == Some(false) {
        if d.id == last.device.id {
          SameId(r.devices, d, last.device);
        }
      }
    }
  }

  lemma PolicyKeepsTold(env: Env, r: Runtime, d: InventoryDevice)
    requires DistinctIds(r.devices) && d in r.devices && Told(r)
    ensures var r' := ApplyPolicy(env, r, d);
            Told(r') && r'.devices == r.devices && r'.policy == r.policy
  {
    var r' := ApplyPolicy(env, r, d);
    if r.policy.LeaveOutputs? {
      forall c | c in r.devices ensures Fault(r', c.id) <==> Fault(r, c.id) {
        assert LastDrive(r.drives, c) == None;
      }
    } else {
      var failures := Drive(env, r.world, d).failures;
      assert r'.safe == r.safe[d.id := MetricOf(failures)];
      assert r'.drives[|r.drives|] == DriveRecord(d, failures == []);
      MeteredKeepsTold(r, r');
    }
  }

  /** A runtime of this inventory and policy whose metrics are told. */
  predicate ToldOf(r: Runtime, ds: seq<InventoryDevice>, policy: OutputsPolicy) {
    Told(r) && r.devices == ds && r.policy == policy
  }

  lemma {:induction false} ForEachTold(
    apply: (Runtime, InventoryDevice) -> Runtime, r: Runtime, ds: seq<InventoryDevice>, policy: OutputsPolicy, n: nat)
    requires n <= |ds| && ToldOf(r, ds, policy)
    requires forall x: Runtime, d: InventoryDevice | ToldOf(x, ds, policy) && d in ds :: ToldOf(apply(x, d), ds, policy)
    ensures ToldOf(ForEach(apply, r, ds, n), ds, policy)
  {
    if n > 0 {
      ForEachTold(apply, r, ds, policy, n - 1);
    }
  }

  lemma PoliciesTold(env: Env, r: Runtime)
    requires DistinctIds(r.devices) && Told(r)
    ensures ToldOf(ApplyPolicies(env, r, |r.devices|), r.devices, r.policy)
  {
    forall x: Runtime, d: InventoryDevice | ToldOf(x, r.devices, r.policy) && d in r.devices
      ensures ToldOf(PolicyStep(env)(x, d), r.devices, r.policy)
    {
      PolicyKeepsTold(env, x, d);
    }
    ForEachTold(PolicyStep(env), r, r.devices, r.policy, |r.devices|);
  }

  lemma LaunchTold(env: Env, w: World, ds: seq<InventoryDevice>, policy: OutputsPolicy, armedAt: Time)
    requires DistinctIds(ds)
    ensures var r := Launch(env, w, ds, policy, armedAt);
            Told(r) && r.devices == ds && r.policy == policy
  {
    PoliciesTold(env, Idle(w, ds, policy, armedAt));
    var r := ApplyPolicies(env, Idle(w, ds, policy, armedAt), |ds|);
    var r' := Launch(env, w, ds, policy, armedAt);
    assert forall d | d in ds :: Fault(r', d.id) <==> Fault(r, d.id);
  }

  lemma {:induction false} TraceTold(rs: seq<Runtime>, es: seq<Event>, j: nat)
    requires Trace(rs, es) && j <= |es| && DistinctIds(rs[0].devices) && Told(rs[0])
    ensures rs[j].devices == rs[0].devices && rs[j].policy == rs[0].policy && Told(rs[j])
  {
    if j > 0 {
      TraceTold(rs, es, j - 1);
      assert Advances(rs[j - 1], rs[j], es[j - 1]);
      MeteredKeepsTold(rs[j - 1], rs[j]);
    }
  }

  lemma FindSelf(ds: seq<InventoryDevice>, d: InventoryDevice)
    requires DistinctIds(ds) && d in ds
    ensures FindDevice(ds, d.id) == Some(d)
  {
    SameId(ds, d, FindDevice(ds, d.id).value);
  }

  /**
   From startup on, at every point of every run, health reports FAULT for a device exactly when its
   most recent safe-output drive failed; under the leave policy there is no drive and no FAULT.
   */
  lemma FaultMeansLastDriveFailed(
    env: Env, w: World, ds: seq<InventoryDevice>, policy: OutputsPolicy, armedAt: Time,
    rs: seq<Runtime>, es: seq<Event>, j: nat, d: InventoryDevice)
    requires DistinctIds(ds) && d in ds
    requires IsRun(env, rs, es) && rs[0] == Launch(env, w, ds, policy, armedAt) && j <= |es|
    ensures Health(env, rs[j], d.id).1.fault <==> LastDrive(rs[j].drives, d) == Some(false)
    ensures policy.LeaveOutputs? ==> rs[j].drives == [] && !Health(env, rs[j], d.id).1.fault
  {
    LaunchTold(env, w, ds, policy, armedAt);
    RunIsTrace(env, rs, es);
    TraceTold(rs, es, j);
    FindSelf(ds, d);
    HealthReportsFault(env, rs[j], d);
  }

  lemma HealthReportsFault(env: Env, r: Runtime, d: InventoryDevice)
    requires FindDevice(r.devices, d.id) == Some(d)
    ensures Health(env, r, d.id).1.fault <==> Fault(r, d.id)
  {
  }

  /** The metric of a device says what was last done to its outputs: left alone, driven safe, or not. */
  predicate Shown(r: Runtime, d: InventoryDevice) {
    && d.id in r.safe
    && if r.policy.LeaveOutputs? then r.safe[d.id] == Left
       else
         && LastDrive(r.drives, d).Some?
         && (r.safe[d.id] == Set <==> LastDrive(r.drives, d) == Some(true))
         && (r.safe[d.id].NotSet? <==> LastDrive(r.drives, d) == Some(false))
  }

  lemma MeteredKeepsShown(r: Runtime, r': Runtime, d: InventoryDevice)
    requires Metered(r, r') && r'.policy == r.policy && DistinctIds(r.devices) && d in r.devices && Shown(r, d)
    ensures Shown(r', d)
  {
    if r'.drives != r.drives {
      var last := r'.drives[|r.drives|];
      assert r'.drives[..|r'.drives| - 1] == r.drives;
      if d.id == last.device.id {
        SameId(r.devices, d, last.device);
      }
    }
  }

  /** Among `ds`, the device at place `m` is shown once the policy has reached it. */
  predicate ShownFrom(r: Runtime, ds: seq<InventoryDevice>, m: nat, n: nat)
    requires m < |ds|
  {
    r.devices == ds && (m < n ==> Shown(r, ds[m]))
  }

  lemma PolicyShows(env: Env, r: Runtime, ds: seq<InventoryDevice>, m: nat, n: nat)
    requires n < |ds| && m < |ds| && DistinctIds(ds) && ShownFrom(r, ds, m, n)
    ensures ShownFrom(ApplyPolicy(env, r, ds[n]), ds, m, n + 1)
  {
    var r' := ApplyPolicy(env, r, ds[n]);
    if r.policy.DriveOutputsSafe? {
      var failures := Drive(env, r.world, ds[n]).failures;
      assert r'.safe == r.safe[ds[n].id := MetricOf(failures)];
      assert r'.drives[..|r'.drives| - 1] == r.drives && r'.drives[|r.drives|] == DriveRecord(ds[n], failures == []);
      if m < n {
        MeteredKeepsShown(r, r', ds[m]);
      }
    } else if m < n {
      assert ds[m].id != ds[n].id;
    }
  }

  lemma {:induction false} ForEachShows(
    apply: (Runtime, InventoryDevice) -> Runtime, r: Runtime, ds: seq<InventoryDevice>, m: nat, n: nat)
    requires n <= |ds| && m < |ds| && r.devices == ds
    requires forall x: Runtime, i: nat | i < |ds| && ShownFrom(x, ds, m, i) :: ShownFrom(apply(x, ds[i]), ds, m, i + 1)
    ensures ShownFrom(ForEach(apply, r, ds, n), ds, m, n)
  {
    if n > 0 {
      ForEachShows(apply, r, ds, m, n - 1);
    }
  }

  lemma LaunchShows(
    env: Env, w: World, ds: seq<InventoryDevice>, policy: OutputsPolicy, armedAt: Time, d: InventoryDevice)
    requires DistinctIds(ds) && d in ds
    ensures Shown(Launch(env, w, ds, policy, armedAt), d)
  {
    var m :| 0 <= m < |ds| && ds[m] == d;
    var apply := PolicyStep(env);
    forall x: Runtime, i: nat | i < |ds| && ShownFrom(x, ds, m, i) ensures ShownFrom(apply(x, ds[i]), ds, m, i + 1) {
      PolicyShows(env, x, ds, m, i);
    }
    ForEachShows(apply, Idle(w, ds, policy, armedAt), ds, m, |ds|);
  }

  lemma {:induction false} TraceShows(rs: seq<Runtime>, es: seq<Event>, j: nat, d: InventoryDevice)
    requires Trace(rs, es) && j <= |es| && DistinctIds(rs[0].devices) && d in rs[0].devices && Shown(rs[0], d)
    ensures rs[j].devices == rs[0].devices && rs[j].policy == rs[0].policy && Shown(rs[j], d)
  {
    if j > 0 {
      TraceShows(rs, es, j - 1, d);
      assert Advances(rs[j - 1], rs[j], es[j - 1]);
      MeteredKeepsShown(rs[j - 1], rs[j], d);
    }
  }

  /**
   From startup on, at every point of every run, health shows of every device what was last done to
   its outputs: "left" under the leave policy, else "set" or "not set" as its most recent drive ended.
   */
  lemma MetricMeaning(
    env: Env, w: World, ds: seq<InventoryDevice>, policy: OutputsPolicy, armedAt: Time,
    rs: seq<Runtime>, es: seq<Event>, j: nat, d: InventoryDevice)
    requires DistinctIds(ds) && d in ds
    requires IsRun(env, rs, es) && rs[0] == Launch(env, w, ds, policy, armedAt) && j <= |es|
    ensures var outputs := Health(env, rs[j], d.id).1.outputs;
            if policy.LeaveOutputs? then outputs == Some(Left)
            else
              && (outputs == Some(Set) <==> LastDrive(rs[j].drives, d) == Some(true))
              && (outputs.Some? && outputs.value.NotSet? <==> LastDrive(rs[j].drives, d) == Some(false))
              && LastDrive(rs[j].drives, d).Some?
  {
    LaunchTold(env, w, ds, policy, armedAt);
    LaunchShows(env, w, ds, policy, armedAt, d);
    RunIsTrace(env, rs, es);
    TraceShows(rs, es, j, d);
    FindSelf(ds, d);
    HealthShowsMetric(env, rs[j], d);
  }

  lemma HealthShowsMetric(env: Env, r: Runtime, d: InventoryDevice)
    requires FindDevice(r.devices, d.id) == Some(d)
    ensures Health(env, r, d.id).1.outputs == MetricFor(r.safe, d.id)
  {
  }

  /** Under the leave policy, what is sent without a call is the frame that arms a watchdog. */
  lemma LeaveSendsOnlyArming(env: Env, rs: seq<Runtime>, es: seq<Event>, n: nat, a: byte, f: Frame)
    requires IsRun(env, rs, es) && n < |es| && SentBetween(rs[n].world, rs[n + 1].world, a, f)
    requires rs[n].policy.LeaveOutputs? && !es[n].CallEvent?
    ensures var d := Subject(rs[n], es[n]); d.Some? && a == d.value.address && f == ArmFrame(d.value)
  {
    StepSends(env, rs, es, n, a, f);
  }

  /** And so it is at startup. */
  lemma LeaveStartupOnlyArms(env: Env, w: World, ds: seq<InventoryDevice>, armedAt: Time, a: byte, f: Frame)
    requires SentBetween(w, Launch(env, w, ds, LeaveOutputs, armedAt).world, a, f)
    ensures exists d :: d in ds && Armable(d) && a == d.address && f == ArmFrame(d)
  {
    LaunchMoves(env, w, ds, LeaveOutputs, armedAt);
    SentIsPermitted(w, Launch(env, w, ds, LeaveOutputs, armedAt).world, StartupSends(ds, LeaveOutputs), a, f);
    var d :| d in ds && (a, f) in AutoSends(d, LeaveOutputs);
    assert Armable(d) && f == ArmFrame(d);
  }

  // ----- Encoders ----------------------------------------------------------------------------

  /** A frame that commands or tunes a closed loop. */
  predicate NeedsLoop(f: Frame) {
    || f.opcode == DCMT_OP_SET_SETPOINT || f.opcode == DCMT_OP_SET_PID
    || (f.opcode == DCMT_OP_SET_MODE && f.payload != [DCMT_MODE_OPEN_LOOP])
  }

  lemma NoLoopFunctions(d: InventoryDevice, functionId: nat)
    requires d.deviceType.Dcmt? && !d.encoders && Faithful(d) && FunctionExists(d, functionId)
    ensures functionId in {1, 2, 3, 6}
  {
    var fs := Functions(d);
    var i :| 0 <= i < |fs| && fs[i].id == functionId;
    OfferedMembers(DcmtOffers(d.offered), fs[i]);
  }

  lemma CallSendsNoLoop(d: InventoryDevice, functionId: nat, args: Args, a: byte, f: Frame)
    requires d.deviceType.Dcmt? && !d.encoders && Faithful(d) && (a, f) in CallSends(d, functionId, args)
    ensures !NeedsLoop(f)
  {
    NoLoopFunctions(d, functionId);
    DeviceAdapter.EncodedShape(Dcmt, functionId, args);
  }

  lemma AutoSendsNoLoop(d: InventoryDevice, policy: OutputsPolicy, a: byte, f: Frame)
    requires d.deviceType.Dcmt? && (a, f) in AutoSends(d, policy)
    ensures !NeedsLoop(f)
  {
  }

  /**
   In every run, a DCMT configured without encoders is never sent SET_SETPOINT, SET_PID or a
   SET_MODE other than open loop.
   */
  lemma NoClosedLoopWithoutEncoders(
    env: Env, rs: seq<Runtime>, es: seq<Event>, n: nat, d: InventoryDevice, f: Frame)
    requires IsRun(env, rs, es) && n < |es| && d in rs[n].devices && DistinctDevices(rs[n].devices)
    requires d.deviceType.Dcmt? && !d.encoders && Faithful(d)
    requires SentBetween(rs[n].world, rs[n + 1].world, d.address, f)
    ensures !NeedsLoop(f)
  {
    StepSends(env, rs, es, n, d.address, f);
    var c := Subject(rs[n], es[n]).value;
    SameDevice(rs[n].devices, d, c);
    if (d.address, f) in AutoSends(d, rs[n].policy) {
      AutoSendsNoLoop(d, rs[n].policy, d.address, f);
    } else {
      CallSendsNoLoop(d, es[n].functionId, es[n].args, d.address, f);
    }
  }

  /** The same holds of startup. */
  lemma StartupNeedsNoEncoders(
    env: Env, w: World, ds: seq<InventoryDevice>, policy: OutputsPolicy, armedAt: Time, d: InventoryDevice, f: Frame)
    requires d in ds && DistinctDevices(ds) && d.deviceType.Dcmt?
    requires SentBetween(w, Launch(env, w, ds, policy, armedAt).world, d.address, f)
    ensures !NeedsLoop(f)
  {
    LaunchMoves(env, w, ds, policy, armedAt);
    SentIsPermitted(w, Launch(env, w, ds, policy, armedAt).world, StartupSends(ds, policy), d.address, f);
    var c :| c in ds && (d.address, f) in AutoSends(c, policy);
    AutoSendsNeverClear(c, policy, d.address, f);
    SameDevice(ds, d, c);
    AutoSendsNoLoop(d, policy, d.address, f);
  }

  /** A call whose motor command meets an engaged brake fails and sends nothing at all. */
  lemma BrakedCallSendsNothing(env: Env, r: Runtime, d: InventoryDevice, functionId: nat, args: Args)
    requires FindDevice(r.devices, d.id) == Some(d) && d.deviceType.Dcmt? && FunctionExists(d, functionId)
    requires var e := DcmtAdapter.Encode(functionId, args);
             && e.Encoded? && DcmtAdapter.NeedsBrakeCheck(e.frame)
             && var state := DcmtAdapter.ReadBrakes(env, r.world, d, e.frame).1;
                state.Some? && DcmtAdapter.Braked(e.frame, state.value).Some?
    ensures var (r', result) := Call(env, r, d.id, functionId, args);
            !result.ok && result.note.BrakeEngaged? && Moves(r.world, r'.world, iset{})
  {
    DcmtAdapter.BrakedCommandIsNotSent(env, r.world, d, DcmtAdapter.Encode(functionId, args).frame);
  }
}
