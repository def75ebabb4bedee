/** What feeding does on the bus: a watchdog query of each device a tick names, and nothing else. */
module FeedTraffic {
  import opened Bytes
  import opened Protocol
  import opened SessionModel
  import opened Capabilities
  import opened Watchdog
  import opened Keepalive

  /** The watchdog of the device at `a` was queried on the way. */
  ghost predicate QueriedBetween(w: World, w': World, a: byte) {
    exists n :: |w.log| <= n < |w'.log| && w'.log[n] == Attempt(a, QueryFor(OP_GET_WATCHDOG))
  }

  predicate OnlyQueries(w: World, w': World, ds: seq<InventoryDevice>) {
    && w.log <= w'.log
    && forall n | |w.log| <= n < |w'.log| ::
         w'.log[n].op == QueryFor(OP_GET_WATCHDOG) && exists d :: d in ds && d.address == w'.log[n].address
  }

  lemma {:induction false} QueryAttempts(tape: seq<Link>, b: Bus, log: seq<Attempt>, a: byte, op: Op, n: nat, max: nat)
    requires n <= max
    ensures var log' := Attempts(tape, b, log, a, op, n, max).log;
            log < log' && forall i | |log| <= i < |log'| :: log'[i] == Attempt(a, op)
    decreases max - n
  {
    var t := TryOnce(tape, b, a, op);
    if !Final(t, n, max) {
      QueryAttempts(tape, t.bus, log + [Attempt(a, op)], a, op, n + 1, max);
    }
  }

  lemma StatusQueries(env: Env, w: World, d: InventoryDevice)
    ensures var w' := QueryStatus(env, w, d).0;
            && w'.open == w.open && OnlyQueries(w, w', [d])
            && (w.open && ValidAddress(d.address) ==> QueriedBetween(w, w', d.address))
  {
    QueryStatusMoves(env, w, d, iset{});
    if Refusal(w, d.address, QueryFor(OP_GET_WATCHDOG)).None? {
      QueryAttempts(env.tape, w.bus, w.log, d.address, QueryFor(OP_GET_WATCHDOG), 1, MaxAttempts(env.retry));
      assert QueryStatus(env, w, d).0.log[|w.log|] == Attempt(d.address, QueryFor(OP_GET_WATCHDOG));
    }
    assert d in [d];
  }

  /** Feeding queries every device it is given, each by its own watchdog query, and makes no other attempt. */
  lemma {:induction false} FeedQueries(env: Env, w: World, ds: seq<InventoryDevice>)
    ensures var w' := FeedAll(env, w, ds);
            && w'.open == w.open && OnlyQueries(w, w', ds)
            && forall d | d in ds && w.open && ValidAddress(d.address) :: QueriedBetween(w, w', d.address)
  {
    if ds != [] {
      var rest, last := ds[..|ds| - 1], ds[|ds| - 1];
      var w1, w' := FeedAll(env, w, rest), FeedAll(env, w, ds);
      FeedQueries(env, w, rest);
      StatusQueries(env, w1, last);
      OnlyQueriesTrans(w, w1, w', rest, last, ds);
      forall d | d in ds && w.open && ValidAddress(d.address) ensures QueriedBetween(w, w', d.address) {
        if d in rest {
          var n :| |w.log| <= n < |w1.log| && w1.log[n] == Attempt(d.address, QueryFor(OP_GET_WATCHDOG));
          assert w'.log[n] == w1.log[n];
        }
      }
    }
  }

  lemma OnlyQueriesTrans(
    w: World, w1: World, w2: World, rest: seq<InventoryDevice>, last: InventoryDevice, ds: seq<InventoryDevice>)
    requires OnlyQueries(w, w1, rest) && OnlyQueries(w1, w2, [last])
    requires last in ds && forall d | d in rest :: d in ds
    ensures OnlyQueries(w, w2, ds)
  {
    forall n | |w.log| <= n < |w2.log|
      ensures w2.log[n].op == QueryFor(OP_GET_WATCHDOG) && exists d :: d in ds && d.address == w2.log[n].address
    {
      if n < |w1.log| {
        assert w2.log[n] == w1.log[n];
        var d :| d in rest && d.address == w1.log[n].address;
        assert d in ds;
      } else {
        assert last in ds && last.address == w2.log[n].address;
      }
    }
  }
}
