/** Runs of a provider whose inventory was assembled from a configuration and the probes of a bus. */
module ConfiguredRuns {
  import opened Bytes
  import opened Protocol
  import opened SessionModel
  import opened Capabilities
  import opened Footprint
  import opened Inventory
  import opened InventoryTheorems
  import opened Keepalive
  import opened RuntimeModel
  import opened RuntimeTheorems
  import KeepaliveRuns

  // ----- The inventory of a run --------------------------------------------------------------

  lemma {:induction false} ForEachKeepsInventory(
    apply: (Runtime, InventoryDevice) -> Runtime, r: Runtime, ds: seq<InventoryDevice>, n: nat)
    requires n <= |ds|
    requires forall x: Runtime, d: InventoryDevice :: apply(x, d).devices == x.devices && apply(x, d).keep == x.keep
    ensures var r' := ForEach(apply, r, ds, n); r'.devices == r.devices && r'.keep == r.keep
  {
    if n > 0 {
      ForEachKeepsInventory(apply, r, ds, n - 1);
    }
  }

  lemma LaunchInventory(env: Env, w: World, ds: seq<InventoryDevice>, policy: OutputsPolicy, armedAt: Time)
    ensures var r := Launch(env, w, ds, policy, armedAt);
            r.devices == ds && r.keep == Started(ds, 30_000 * 1_000_000, armedAt)
  {
    var apply := PolicyStep(env);
    forall x: Runtime, d: InventoryDevice ensures apply(x, d).devices == x.devices && apply(x, d).keep == x.keep {}
    ForEachKeepsInventory(apply, Idle(w, ds, policy, armedAt), ds, |ds|);
  }

  lemma {:induction false} TraceKeepsInventory(rs: seq<Runtime>, es: seq<Event>, j: nat)
    requires Trace(rs, es) && j <= |es|
    ensures rs[j].devices == rs[0].devices
  {
    if j > 0 {
      TraceKeepsInventory(rs, es, j - 1);
      assert Advances(rs[j - 1], rs[j], es[j - 1]);
    }
  }

  // ----- No encoders, no closed loop ---------------------------------------------------------

  /** The entry at the address of a spec follows that spec. */
  lemma EntryFollowsSpec(
    specs: seq<DeviceSpec>, probes: seq<ProbeRecord>, source: InventorySource, d: InventoryDevice, i: nat)
    requires DistinctSpecs(specs) && i < |specs|
    requires d in Build(specs, probes, source).supported && d.address == specs[i].address
    ensures FollowsSpec(d, specs[i]) && Faithful(d)
  {
    var p := BuildEntry(specs, probes, source, d);
    assert FindSpec(specs, d.address) == Some(i);
  }

  lemma EntrySendsNoLoop(
    specs: seq<DeviceSpec>, probes: seq<ProbeRecord>, source: InventorySource, policy: OutputsPolicy,
    d: InventoryDevice, functionId: nat, args: Args, i: nat, f: Frame)
    requires DistinctSpecs(specs) && i < |specs| && specs[i].deviceType.Dcmt? && !specs[i].encoders
    requires d in Build(specs, probes, source).supported
    requires (specs[i].address, f) in AutoSends(d, policy) || (specs[i].address, f) in CallSends(d, functionId, args)
    ensures !NeedsLoop(f)
  {
    if (specs[i].address, f) in AutoSends(d, policy) {
      AutoSendsNeverClear(d, policy, specs[i].address, f);
      EntryFollowsSpec(specs, probes, source, d, i);
      AutoSendsNoLoop(d, policy, specs[i].address, f);
    } else {
      CallSendsClear(d, functionId, args, specs[i].address, f);
      EntryFollowsSpec(specs, probes, source, d, i);
      CallSendsNoLoop(d, functionId, args, specs[i].address, f);
    }
  }

  /** Nothing sent to address `a` between the two is a closed-loop frame. */
  ghost predicate NoLoopBetween(w: World, w': World, a: byte) {
    w.log <= w'.log && forall f | SentBetween(w, w', a, f) :: !NeedsLoop(f)
  }

  lemma StepSendsNoLoop(
    specs: seq<DeviceSpec>, probes: seq<ProbeRecord>, source: InventorySource,
    r: Runtime, r': Runtime, e: Event, i: nat)
    requires DistinctSpecs(specs) && i < |specs| && specs[i].deviceType.Dcmt? && !specs[i].encoders
    requires Advances(r, r', e) && r.devices == Build(specs, probes, source).supported
    ensures NoLoopBetween(r.world, r'.world, specs[i].address)
  {
    if !e.TripEvent? {
      forall f | SentBetween(r.world, r'.world, specs[i].address, f) ensures !NeedsLoop(f) {
        SentIsPermitted(r.world, r'.world, EventSends(r, e), specs[i].address, f);
        var functionId, args := if e.CallEvent? then e.functionId else 0, if e.CallEvent? then e.args else map[];
        EntrySendsNoLoop(specs, probes, source, r.policy, Subject(r, e).value, functionId, args, i, f);
      }
    }
  }

  lemma StartupSendsNoLoop(
    env: Env, w: World, specs: seq<DeviceSpec>, probes: seq<ProbeRecord>, source: InventorySource,
    policy: OutputsPolicy, armedAt: Time, i: nat)
    requires DistinctSpecs(specs) && i < |specs| && specs[i].deviceType.Dcmt? && !specs[i].encoders
    ensures var ds := Build(specs, probes, source).supported;
            NoLoopBetween(w, Launch(env, w, ds, policy, armedAt).world, specs[i].address)
  {
    var ds := Build(specs, probes, source).supported;
    var w' := Launch(env, w, ds, policy, armedAt).world;
    LaunchMoves(env, w, ds, policy, armedAt);
    forall f | SentBetween(w, w', specs[i].address, f) ensures !NeedsLoop(f) {
      SentIsPermitted(w, w', StartupSends(ds, policy), specs[i].address, f);
      var d :| d in ds && (specs[i].address, f) in AutoSends(d, policy);
      EntrySendsNoLoop(specs, probes, source, policy, d, 0, map[], i, f);
    }
  }

  lemma NoLoopTrans(w: World, w1: World, w2: World, a: byte)
    requires NoLoopBetween(w, w1, a) && NoLoopBetween(w1, w2, a)
    ensures NoLoopBetween(w, w2, a)
  {
    forall f | SentBetween(w, w2, a, f) ensures !NeedsLoop(f) {
      var n :| |w.log| <= n < |w2.log| && w2.log[n] == Attempt(a, SendFrame(f));
      if n < |w1.log| {
        assert w1.log[n] == w2.log[n];
        assert SentBetween(w, w1, a, f);
      } else {
        assert SentBetween(w1, w2, a, f);
      }
    }
  }

  lemma {:induction false} TraceSendsNoLoop(
    w: World, specs: seq<DeviceSpec>, probes: seq<ProbeRecord>, source: InventorySource,
    rs: seq<Runtime>, es: seq<Event>, j: nat, i: nat)
    requires DistinctSpecs(specs) && i < |specs| && specs[i].deviceType.Dcmt? && !specs[i].encoders
    requires Trace(rs, es) && j <= |es| && rs[0].devices == Build(specs, probes, source).supported
    requires NoLoopBetween(w, rs[0].world, specs[i].address)
    ensures NoLoopBetween(w, rs[j].world, specs[i].address)
  {
    if j > 0 {
      TraceSendsNoLoop(w, specs, probes, source, rs, es, j - 1, i);
      TraceKeepsInventory(rs, es, j - 1);
      assert Advances(rs[j - 1], rs[j], es[j - 1]);
      StepSendsNoLoop(specs, probes, source, rs[j - 1], rs[j], es[j - 1], i);
      NoLoopTrans(w, rs[j - 1].world, rs[j].world, specs[i].address);
    }
  }

  /**
   A motor module configured without encoders, in every run of a provider whose inventory was built
   from that configuration, whatever the bus answered to its probes: nothing that was ever sent to
   its address, from startup on, is a SET_SETPOINT, a SET_PID or a SET_MODE other than open loop.
   */
  lemma NoClosedLoopAsConfigured(
    env: Env, w: World, specs: seq<DeviceSpec>, probes: seq<ProbeRecord>, source: InventorySource,
    policy: OutputsPolicy, armedAt: Time, rs: seq<Runtime>, es: seq<Event>, j: nat, i: nat, f: Frame)
    requires DistinctSpecs(specs) && i < |specs| && specs[i].deviceType.Dcmt? && !specs[i].encoders
    requires IsRun(env, rs, es) && j <= |es|
    requires rs[0] == Launch(env, w, Build(specs, probes, source).supported, policy, armedAt)
    requires SentBetween(w, rs[j].world, specs[i].address, f)
    ensures !NeedsLoop(f)
  {
    RunIsTrace(env, rs, es);
    LaunchInventory(env, w, Build(specs, probes, source).supported, policy, armedAt);
    StartupSendsNoLoop(env, w, specs, probes, source, policy, armedAt, i);
    TraceSendsNoLoop(w, specs, probes, source, rs, es, j, i);
  }

  // ----- Contact ends the feeding ------------------------------------------------------------

  /** A read or a call of this device. */
  predicate Contacts(e: Event, id: string) {
    (e.ReadEvent? || e.CallEvent?) && e.id == id
  }

  lemma DoneStaysDone(r: Runtime, r': Runtime, e: Event, id: string)
    requires Advances(r, r', e) && KeepaliveRuns.AllDone(r.keep, id)
    ensures KeepaliveRuns.AllDone(r'.keep, id)
  {
  }

  lemma {:induction false} TraceStaysDone(rs: seq<Runtime>, es: seq<Event>, n: nat, m: nat, id: string)
    requires Trace(rs, es) && n < m <= |es| && Contacts(es[n], id) && FindDevice(rs[n].devices, id).Some?
    ensures KeepaliveRuns.AllDone(rs[m].keep, id)
  {
    assert Advances(rs[m - 1], rs[m], es[m - 1]);
    if n < m - 1 {
      TraceStaysDone(rs, es, n, m - 1, id);
      DoneStaysDone(rs[m - 1], rs[m], es[m - 1], id);
    }
  }

  /** In every run, once a device of the inventory has been read or called, no later tick queries it. */
  lemma ContactEndsFeeding(env: Env, rs: seq<Runtime>, es: seq<Event>, n: nat, m: nat, now: Time, d: InventoryDevice)
    requires IsRun(env, rs, es) && n < m <= |es| && Contacts(es[n], d.id) && FindDevice(rs[n].devices, d.id).Some?
    ensures d !in Tick(rs[m].keep, now).queried
  {
    RunIsTrace(env, rs, es);
    TraceStaysDone(rs, es, n, m, d.id);
    KeepaliveRuns.DoneIsNotQueried(rs[m].keep, KeepaliveRuns.TickAt(now), d);
  }
}
