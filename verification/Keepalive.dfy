/**
 The watchdog keepalive: from arming until the runtime's first call, each armed device is
 queried every quarter of its timeout, until a cap. Times are integer nanoseconds.
 */
module Keepalive {
  import opened Bytes
  import opened SessionModel
  import opened SessionObjects
  import opened Capabilities
  import opened Footprint
  import opened Watchdog

  type Time = int

  const MILLISECOND: nat := 1_000_000
  const KEEPALIVE_CAP: nat := 30_000 * MILLISECOND

  datatype Fed = Fed(device: InventoryDevice, interval: nat, nextDue: Time, done: bool)

  datatype FeedState = FeedState(fed: seq<Fed>, capped: bool, deadline: Time)

  /** A quarter of the timeout in whole milliseconds, at least one. */
  function Interval(watchdogMs: uint16): (i: nat)
    ensures i > 0
    ensures watchdogMs >= 4 ==> 4 * i <= watchdogMs * MILLISECOND < 4 * i + 4 * MILLISECOND
    ensures watchdogMs < 4 ==> i == MILLISECOND
  {
    if watchdogMs / 4 > 1 then watchdogMs / 4 * MILLISECOND else MILLISECOND
  }

  function FeedList(ds: seq<InventoryDevice>, armedAt: Time): seq<Fed> {
    if ds == [] then []
    else
      var d := ds[|ds| - 1];
      FeedList(ds[..|ds| - 1], armedAt)
      + if Armable(d) then [Fed(d, Interval(d.watchdogMs), armedAt + Interval(d.watchdogMs), false)] else []
  }

  function Started(ds: seq<InventoryDevice>, cap: nat, armedAt: Time): FeedState {
    FeedState(FeedList(ds, armedAt), false, armedAt + cap)
  }

  function Contact(f: Fed, id: string): Fed {
    if f.device.id == id then f.(done := true) else f
  }

  /** `contacted` */
  function Contacted(k: FeedState, id: string): (k': FeedState)
    ensures |k'.fed| == |k.fed| && k'.capped == k.capped && k'.deadline == k.deadline
    ensures forall i | 0 <= i < |k.fed| :: k'.fed[i] == Contact(k.fed[i], id)
  {
    k.(fed := seq(|k.fed|, i requires 0 <= i < |k.fed| => Contact(k.fed[i], id)))
  }

  predicate Due(f: Fed, now: Time) {
    !f.done && f.nextDue <= now
  }

  function Feed(f: Fed, now: Time): Fed {
    if Due(f, now) then f.(nextDue := now + f.interval) else f
  }

  /** The devices of the first `n` entries that are due, in order. */
  function DueDevices(fed: seq<Fed>, now: Time, n: nat): seq<InventoryDevice>
    requires n <= |fed|
  {
    if n == 0 then []
    else DueDevices(fed, now, n - 1) + if Due(fed[n - 1], now) then [fed[n - 1].device] else []
  }

  function Sooner(a: Option<Time>, b: Time): Option<Time> {
    if a.Some? && a.value <= b then a else Some(b)
  }

  /** When the first of the first `n` entries still fed is due. */
  function Earliest(fed: seq<Fed>, n: nat): (r: Option<Time>)
    requires n <= |fed|
    ensures r.None? <==> forall i | 0 <= i < n :: fed[i].done
    ensures r.Some? ==> forall i | 0 <= i < n && !fed[i].done :: r.value <= fed[i].nextDue
    ensures r.Some? ==> exists i :: 0 <= i < n && !fed[i].done && r.value == fed[i].nextDue
  {
    if n == 0 then None
    else if fed[n - 1].done then Earliest(fed, n - 1)
    else Sooner(Earliest(fed, n - 1), fed[n - 1].nextDue)
  }

  /** What one tick leaves, returns and queries. */
  datatype Ticked = Ticked(state: FeedState, next: Option<Time>, queried: seq<InventoryDevice>)

  function Feedings(fed: seq<Fed>, now: Time): (r: seq<Fed>)
    ensures |r| == |fed|
    ensures forall i | 0 <= i < |fed| :: r[i] == Feed(fed[i], now)
  {
    seq(|fed|, i requires 0 <= i < |fed| => Feed(fed[i], now))
  }

  /** `tick_locked` */
  function Tick(k: FeedState, now: Time): Ticked {
    if k.capped then Ticked(k, None, [])
    else if now >= k.deadline then Ticked(k.(capped := true), None, [])
    else
      var fed := Feedings(k.fed, now);
      var next := Earliest(fed, |fed|);
      Ticked(k.(fed := fed), if next.Some? then Sooner(next, k.deadline) else None, DueDevices(k.fed, now, |k.fed|))
  }

  /** The queries of a tick, on the bus. */
  function FeedAll(env: Env, w: World, ds: seq<InventoryDevice>): World {
    if ds == [] then w else QueryStatus(env, FeedAll(env, w, ds[..|ds| - 1]), ds[|ds| - 1]).0
  }

  lemma {:induction false} FeedAllMoves(env: Env, w: World, ds: seq<InventoryDevice>, s: Sends)
    ensures Moves(w, FeedAll(env, w, ds), s)
  {
    MovesRefl(w, s);
    if ds != [] {
      var w1 := FeedAll(env, w, ds[..|ds| - 1]);
      FeedAllMoves(env, w, ds[..|ds| - 1], s);
      QueryStatusMoves(env, w1, ds[|ds| - 1], s);
      MovesTrans(w, w1, FeedAll(env, w, ds), s);
    }
  }

  lemma FeedAllOneMore(env: Env, w: World, ds: seq<InventoryDevice>, d: InventoryDevice)
    ensures FeedAll(env, w, ds + [d]) == QueryStatus(env, FeedAll(env, w, ds), d).0
  {
    assert (ds + [d])[..|ds|] == ds;
  }

  lemma FeedAllStep(env: Env, w: World, fed: seq<Fed>, now: Time, n: nat)
    requires n < |fed|
    ensures var w' := FeedAll(env, w, DueDevices(fed, now, n));
            FeedAll(env, w, DueDevices(fed, now, n + 1))
            == if Due(fed[n], now) then QueryStatus(env, w', fed[n].device).0 else w'
  {
    var ds := DueDevices(fed, now, n);
    FeedAllOneMore(env, w, ds, fed[n].device);
    assert ds + [] == ds;
  }

  // ----- The feeder object -------------------------------------------------------------------

  class Feeder {
    const session: Session
    const deadline: Time
    var fed: seq<Fed>
    var capped: bool

    ghost function State(): FeedState
      reads this
    {
      FeedState(fed, capped, deadline)
    }

    constructor (session: Session, ds: seq<InventoryDevice>, cap: nat, armedAt: Time)
      ensures this.session == session && State() == Started(ds, cap, armedAt)
    {
      this.session, deadline, capped := session, armedAt + cap, false;
      var list: seq<Fed> := [];
      for n := 0 to |ds|
        invariant list == FeedList(ds[..n], armedAt)
      {
        assert ds[..n + 1][..n] == ds[..n];
        if ds[n].watchdogMs > 0 && CapabilitySupported(ds[n]) {
          var interval := Interval(ds[n].watchdogMs);
          list := list + [Fed(ds[n], interval, armedAt + interval, false)];
        }
      }
      assert ds[..|ds|] == ds;
      fed := list;
    }

    method NoteContact(id: string)
      modifies this`fed
      ensures State() == Contacted(old(State()), id)
    {
      ghost var before := fed;
      for n := 0 to |fed|
        invariant |fed| == |before|
        invariant forall i | 0 <= i < n :: fed[i] == Contact(before[i], id)
        invariant forall i | n <= i < |before| :: fed[i] == before[i]
      {
        if !fed[n].done && fed[n].device.id == id {
          fed := fed[n := fed[n].(done := true)];
        }
      }
      assert fed == Contacted(old(State()), id).fed;
    }

    /** Query one device if it is due. */
    method FeedOne(n: nat, now: Time)
      requires session.retry < 0x7FFF_FFFF && n < |fed|
      modifies this`fed, session, session.transport`tick, session.transport.bus
      ensures fed == old(fed)[n := Feed(old(fed[n]), now)]
      ensures session.State() == if Due(old(fed[n]), now)
                                 then QueryStatus(session.Environment(), old(session.State()), old(fed[n].device)).0
                                 else old(session.State())
    {
      if Due(fed[n], now) {
        var _ := Query(session, fed[n].device);
        fed := fed[n := fed[n].(nextDue := now + fed[n].interval)];
      }
    }

    /** The part of a tick that concerns one device: entry `n` of `before`, after the entries ahead of it. */
    method FeedNext(n: nat, now: Time, next: Option<Time>, ghost before: seq<Fed>, ghost w: World)
      returns (next': Option<Time>)
      requires session.retry < 0x7FFF_FFFF && n < |fed| && n < |before| && fed[n] == before[n]
      requires session.State() == FeedAll(session.Environment(), w, DueDevices(before, now, n))
      modifies this`fed, session, session.transport`tick, session.transport.bus
      ensures fed == old(fed)[n := Feed(before[n], now)]
      ensures next' == if fed[n].done then next else Sooner(next, fed[n].nextDue)
      ensures session.State() == FeedAll(session.Environment(), w, DueDevices(before, now, n + 1))
    {
      FeedAllStep(session.Environment(), w, before, now, n);
      FeedOne(n, now);
      next' := if fed[n].done then next else Sooner(next, fed[n].nextDue);
    }

    method FeedDue(now: Time) returns (next: Option<Time>)
      requires session.retry < 0x7FFF_FFFF
      modifies this`fed, session, session.transport`tick, session.transport.bus
      ensures fed == Feedings(old(fed), now) && next == Earliest(fed, |fed|)
      ensures session.State()
              == FeedAll(session.Environment(), old(session.State()), DueDevices(old(fed), now, |old(fed)|))
    {
      ghost var before, after := fed, Feedings(fed, now);
      next := None;
      for n := 0 to |fed|
        invariant |fed| == |before|
        invariant forall i | n <= i < |before| :: fed[i] == before[i]
        invariant forall i | 0 <= i < n :: fed[i] == after[i]
        invariant next == Earliest(after, n)
        invariant session.State()
                  == FeedAll(session.Environment(), old(session.State()), DueDevices(before, now, n))
      {
        next := FeedNext(n, now, next, before, old(session.State()));
        assert fed[n] == after[n];
      }
      assert fed == after;
    }

    method DoTick(now: Time) returns (next: Option<Time>)
      requires session.retry < 0x7FFF_FFFF
      modifies this`fed, this`capped, session, session.transport`tick, session.transport.bus
      ensures var t := Tick(old(State()), now);
              && State() == t.state && next == t.next
              && session.State() == FeedAll(session.Environment(), old(session.State()), t.queried)
    {
      if capped {
        return None;
      }
      if now >= deadline {
        capped := true;
        return None;
      }
      next := FeedDue(now);
      if next.Some? {
        next := Sooner(next, deadline);
      }
    }
  }
}
