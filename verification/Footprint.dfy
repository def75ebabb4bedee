/**
 The footprint of provider traffic. `Moves(w, w', sends)` says that on the way from `w` to `w'`
 every frame sent is in `sends`, every device only counted such frames and holds the outputs
 they make, and the statistics still add up. It is reflexive, transitive and kept by every
 session operation, so every provider operation has one.
 */
module Footprint {
  import opened Bytes
  import opened Protocol
  import opened CannedDevice
  import opened SessionModel

  type Sends = iset<(byte, Frame)>

  ghost function FramesTo(s: Sends, a: byte): iset<Frame> {
    iset f | (a, f) in s
  }

  /** Attempts made at `a`. */
  function Tally(log: seq<Attempt>, a: byte): nat {
    if log == [] then 0
    else Tally(log[..|log| - 1], a) + if log[|log| - 1].address == a then 1 else 0
  }

  predicate Balanced(w: World, a: byte) {
    var st := StatsOf(w.book, a);
    && Tally(w.log, a) == st.ok + st.failed + st.retried
    && (st.hasSuccess <==> st.ok > 0)
    && st.rejected <= st.ok
  }

  /** Per address: attempts = ok + failed + retried, a success is on record iff ok > 0, rejected <= ok. */
  ghost predicate Conserved(w: World) {
    forall a: byte :: Balanced(w, a)
  }

  predicate Permitted(at: Attempt, s: Sends) {
    at.op.SendFrame? ==> (at.address, at.op.frame) in s
  }

  ghost predicate DevicesGrow(m: map<byte, Device>, m': map<byte, Device>, s: Sends) {
    && m'.Keys == m.Keys
    && forall a | a in m :: Grows(m[a], m'[a], FramesTo(s, a))
  }

  ghost predicate LogGrows(log: seq<Attempt>, log': seq<Attempt>, s: Sends) {
    && log <= log'
    && forall i | |log| <= i < |log'| :: Permitted(log'[i], s)
  }

  ghost predicate Moves(w: World, w': World, s: Sends) {
    && w'.open == w.open
    && LogGrows(w.log, w'.log, s)
    && DevicesGrow(w.bus.devices, w'.bus.devices, s)
    && (Conserved(w) ==> Conserved(w'))
  }

  /** The frame was sent on the way from `w` to `w'`. */
  predicate SentBetween(w: World, w': World, a: byte, f: Frame) {
    exists n :: |w.log| <= n < |w'.log| && w'.log[n] == Attempt(a, SendFrame(f))
  }

  lemma MovesRefl(w: World, s: Sends)
    ensures Moves(w, w, s)
  {
    forall a | a in w.bus.devices ensures Grows(w.bus.devices[a], w.bus.devices[a], FramesTo(s, a)) {
      GrowsRefl(w.bus.devices[a], FramesTo(s, a));
    }
  }

  lemma DevicesGrowTrans(m: map<byte, Device>, m1: map<byte, Device>, m2: map<byte, Device>, s: Sends)
    requires DevicesGrow(m, m1, s) && DevicesGrow(m1, m2, s)
    ensures DevicesGrow(m, m2, s)
  {
    forall a | a in m ensures Grows(m[a], m2[a], FramesTo(s, a)) {
      GrowsTrans(m[a], m1[a], m2[a], FramesTo(s, a), FramesTo(s, a));
      assert FramesTo(s, a) + FramesTo(s, a) == FramesTo(s, a);
    }
  }

  lemma MovesTrans(w: World, w1: World, w2: World, s: Sends)
    requires Moves(w, w1, s) && Moves(w1, w2, s)
    ensures Moves(w, w2, s)
  {
    DevicesGrowTrans(w.bus.devices, w1.bus.devices, w2.bus.devices, s);
  }

  /** The sends of one session operation. */
  ghost function SendsOf(a: byte, op: Op): Sends {
    if op.SendFrame? then iset{(a, op.frame)} else iset{}
  }

  lemma SendOnceGrows(tape: seq<Link>, b: Bus, a: byte, f: Frame, s: Sends)
    requires IsCommand(f) ==> (a, f) in s
    ensures DevicesGrow(b.devices, SendOnce(tape, b, a, f).bus.devices, s)
  {
    var m, m' := b.devices, SendOnce(tape, b, a, f).bus.devices;
    forall c | c in m ensures Grows(m[c], m'[c], FramesTo(s, c)) {
      GrowsRefl(m[c], FramesTo(s, c));
      ReceiveGrows(m[c], f);
    }
  }

  lemma ReadOnceGrows(tape: seq<Link>, b: Bus, a: byte, s: Sends)
    ensures DevicesGrow(b.devices, ReadOnce(tape, b, a).bus.devices, s)
  {
    var m, m' := b.devices, ReadOnce(tape, b, a).bus.devices;
    forall c | c in m ensures Grows(m[c], m'[c], FramesTo(s, c)) {
      GrowsRefl(m[c], FramesTo(s, c));
      EmitGrows(m[c]);
    }
  }

  lemma TryOnceGrows(tape: seq<Link>, b: Bus, a: byte, op: Op, s: Sends)
    requires SendsOf(a, op) <= s
    ensures DevicesGrow(b.devices, TryOnce(tape, b, a, op).bus.devices, s)
  {
    match op {
      case SendFrame(f) =>
        assert (a, f) in SendsOf(a, op);
        SendOnceGrows(tape, b, a, f, s);
      case ReadReply => ReadOnceGrows(tape, b, a, s);
      case QueryFor(r) =>
        SendOnceGrows(tape, b, a, QueryFrame(r), s);
        var b1 := SendOnce(tape, b, a, QueryFrame(r)).bus;
        ReadOnceGrows(tape, b1, a, s);
        if SendOnce(tape, b, a, QueryFrame(r)).code.CodeOk? {
          DevicesGrowTrans(b.devices, b1.devices, ReadOnce(tape, b1, a).bus.devices, s);
        }
    }
  }

  /** The retry engine makes exactly the attempts it reports, all at one address. */
  lemma {:induction false} AttemptsMove(
    tape: seq<Link>, b: Bus, log: seq<Attempt>, a: byte, op: Op, n: nat, max: nat, s: Sends)
    requires 1 <= n <= max && SendsOf(a, op) <= s
    ensures var r := Attempts(tape, b, log, a, op, n, max);
            && DevicesGrow(b.devices, r.bus.devices, s)
            && LogGrows(log, r.log, s)
            && n <= r.status.attempts <= max
            && forall c: byte :: Tally(r.log, c) == Tally(log, c) + if c == a then r.status.attempts - n + 1 else 0
    decreases max - n
  {
    var t := TryOnce(tape, b, a, op);
    var log1 := log + [Attempt(a, op)];
    TryOnceGrows(tape, b, a, op, s);
    assert log1[..|log1| - 1] == log;
    if !Final(t, n, max) {
      AttemptsMove(tape, t.bus, log1, a, op, n + 1, max, s);
      DevicesGrowTrans(b.devices, t.bus.devices, Attempts(tape, t.bus, log1, a, op, n + 1, max).bus.devices, s);
    }
  }

  /** Recording an operation's outcome accounts for each attempt it made. */
  lemma OutcomeBalances(w: World, w': World, a: byte, status: SessionStatus, c: byte)
    requires Balanced(w, c) && status.attempts >= 1
    requires w'.book == RecordOutcome(w.book, a, status)
    requires Tally(w'.log, c) == Tally(w.log, c) + if c == a then status.attempts else 0
    ensures Balanced(w', c)
    ensures c == a && status.Ok() ==> StatsOf(w'.book, a).rejected < StatsOf(w'.book, a).ok
  {
  }

  lemma PerformMoves(env: Env, w: World, a: byte, op: Op, s: Sends)
    requires SendsOf(a, op) <= s
    ensures var p := Perform(env, w, a, op);
            && Moves(w, p.world, s)
            && (Conserved(w) && p.status.Ok() ==>
                  StatsOf(p.world.book, a).rejected < StatsOf(p.world.book, a).ok)
  {
    MovesRefl(w, s);
    if Refusal(w, a, op).None? {
      AttemptsMove(env.tape, w.bus, w.log, a, op, 1, MaxAttempts(env.retry), s);
      var p := Perform(env, w, a, op);
      if Conserved(w) {
        forall c: byte
          ensures Balanced(p.world, c)
          ensures c == a && p.status.Ok() ==> StatsOf(p.world.book, a).rejected < StatsOf(p.world.book, a).ok
        {
          OutcomeBalances(w, p.world, a, p.status, c);
        }
        assert Balanced(p.world, a);
      }
    }
  }

  /** A reply may be rejected once per successful query. */
  lemma RejectionMoves(env: Env, w: World, a: byte, op: Op, s: Sends)
    requires SendsOf(a, op) <= s && Perform(env, w, a, op).status.Ok()
    ensures Moves(w, Rejected(Perform(env, w, a, op).world, a), s)
  {
    PerformMoves(env, w, a, op, s);
    var w1 := Perform(env, w, a, op).world;
    if Conserved(w) {
      forall c: byte ensures Balanced(Rejected(w1, a), c) {
        assert Balanced(w1, c);
      }
    }
  }

  lemma TakeMoves(w: World, a: byte, s: Sends)
    ensures Moves(w, w.(book := TakeRecovery(w.book, a)), s)
  {
    MovesRefl(w, s);
    var w' := w.(book := TakeRecovery(w.book, a));
    if Conserved(w) {
      forall c: byte ensures Balanced(w', c) {
        assert Balanced(w, c);
      }
    }
  }
}
