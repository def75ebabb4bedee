/** What a health read says about the watchdog is what the device holds, and a tripped device is left alone. */
module WatchdogHealth {
  import opened Bytes
  import opened Protocol
  import opened CannedDevice
  import opened SessionModel
  import opened Capabilities
  import opened Footprint
  import opened ReadBack
  import opened Watchdog
  import opened RuntimeModel

  function StatusOf(o: Outputs): WatchdogStatus {
    WatchdogStatus(o.wdTimeout != 0, o.wdTimeout, o.wdTripped, o.wdTrips)
  }

  lemma ParsesStatus(typeId: byte, o: Outputs)
    ensures ParseStatus(Frame(typeId, OP_GET_WATCHDOG, WatchdogPayload(o))) == Some(StatusOf(o))
  {
    var p := WatchdogPayload(o);
    assert p[1..3] == U16Le(o.wdTimeout);
  }

  /** The reply parses to what the device at `a` holds. */
  predicate Truthful(reply: Option<Frame>, b: Bus, a: byte) {
    reply.Some? && ParseStatus(reply.value).Some? ==>
      a in b.devices && ParseStatus(reply.value).value == StatusOf(b.devices[a].out)
  }

  lemma TriedStatus(tape: seq<Link>, b: Bus, a: byte)
    ensures Truthful(TryOnce(tape, b, a, QueryFor(OP_GET_WATCHDOG)).reply, b, a)
  {
    if a in b.devices {
      var staged := SendOnce(tape, b, a, QueryFrame(OP_GET_WATCHDOG)).bus;
      ParsesStatus(staged.devices[a].typeId, b.devices[a].out);
    }
  }

  lemma {:induction false} QueriedStatus(tape: seq<Link>, b: Bus, log: seq<Attempt>, a: byte, n: nat, max: nat)
    requires 1 <= n <= max
    ensures Truthful(Attempts(tape, b, log, a, QueryFor(OP_GET_WATCHDOG), n, max).reply, b, a)
    decreases max - n
  {
    var op := QueryFor(OP_GET_WATCHDOG);
    var tried := TryOnce(tape, b, a, op);
    TriedStatus(tape, b, a);
    if !Final(tried, n, max) {
      QueriedStatus(tape, tried.bus, log + [Attempt(a, op)], a, n + 1, max);
      if a in b.devices {
        TriedQuietly(tape, b, a, OP_GET_WATCHDOG);
      }
    }
  }

  /** A status that was read, after any retries, is the device's own. */
  lemma StatusIsTrue(env: Env, w: World, d: InventoryDevice)
    ensures var status := QueryStatus(env, w, d).1;
            status.Some? ==>
              d.address in w.bus.devices && status.value == StatusOf(w.bus.devices[d.address].out)
  {
    QueriedStatus(env.tape, w.bus, w.log, d.address, 1, MaxAttempts(env.retry));
  }

  /** A reply that is no watchdog status, of another opcode or too short, is rejected once; a failed query is not. */
  lemma UnusableStatusIsRejected(env: Env, w: World, d: InventoryDevice)
    ensures var p := Perform(env, w, d.address, QueryFor(OP_GET_WATCHDOG));
            var (w', status) := QueryStatus(env, w, d);
            if p.status.Ok() && p.reply.Some? then
              var usable := p.reply.value.opcode == OP_GET_WATCHDOG && |p.reply.value.payload| >= 5;
              && (status.Some? <==> usable)
              && StatsOf(w'.book, d.address).rejected
                 == StatsOf(p.world.book, d.address).rejected + if usable then 0 else 1
            else
              status.None? && w' == p.world
  {
  }

  /** The device a health read is about. */
  predicate Holds(r: Runtime, d: InventoryDevice) {
    FindDevice(r.devices, d.id) == Some(d) && d.address in r.world.bus.devices
  }

  /** Health reports the watchdog of the device as it is. */
  lemma HealthIsTrue(env: Env, r: Runtime, d: InventoryDevice)
    requires Holds(r, d)
    ensures var report := Health(env, r, d.id).1;
            report.watchdog.Some? ==> report.watchdog.value == StatusOf(r.world.bus.devices[d.address].out)
  {
    StatusIsTrue(env, r.world, d);
  }

  /**
   A health read sends the arming frame only to a device that reads disarmed and not tripped; a
   tripped device, an armed one and one whose last operation failed are sent nothing.
   */
  lemma HealthRearmsOnlyDisarmed(env: Env, r: Runtime, d: InventoryDevice)
    requires Holds(r, d)
    ensures var o := r.world.bus.devices[d.address].out;
            o.wdTripped || o.wdTimeout != 0 || d.address in r.world.book.failed || !Armable(d) ==>
              Moves(r.world, Health(env, r, d.id).0.world, iset{})
  {
    MovesRefl(r.world, iset{});
    QueryStatusMoves(env, r.world, d, iset{});
    StatusIsTrue(env, r.world, d);
  }
}
