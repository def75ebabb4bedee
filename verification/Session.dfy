/**
 The CRUMBS session: validation, the retry engine and the per-address bookkeeping, over a
 transport that may lose a frame, deliver it and report failure, or fail a read.

 A fault pattern is a `tape`: what the transport does at its first use, its second, and so on.
 Past the end of the tape the link is clean, so quantifying over tapes quantifies over every
 pattern a finite run can meet.
 */
module SessionModel {
  import opened Bytes
  import opened Protocol
  import opened CannedDevice

  /** One use of the transport: does the device see it, and what is reported. */
  datatype Link = Link(delivered: bool, code: SessionCode, native: int)

  const CLEAN: Link := Link(true, CodeOk, 0)

  datatype Env = Env(tape: seq<Link>, retry: int)

  function At(tape: seq<Link>, tick: nat): Link {
    if tick < |tape| then tape[tick] else CLEAN
  }

  datatype Op = SendFrame(frame: Frame) | ReadReply | QueryFor(reply: byte)

  /** One attempt made on the transport. */
  datatype Attempt = Attempt(address: byte, op: Op)

  datatype Bus = Bus(devices: map<byte, Device>, tick: nat)

  datatype AddressStats = AddressStats(ok: nat, failed: nat, retried: nat, rejected: nat, hasSuccess: bool)

  datatype Book = Book(stats: map<byte, AddressStats>, failed: set<byte>, recovery: set<byte>)

  const EMPTY_BOOK: Book := Book(map[], {}, {})

  datatype World = World(bus: Bus, log: seq<Attempt>, book: Book, open: bool)

  // ----- Transport ---------------------------------------------------------------------------

  datatype Tried = Tried(bus: Bus, code: SessionCode, native: int, reply: Option<Frame>)

  function SendOnce(tape: seq<Link>, b: Bus, a: byte, f: Frame): Tried {
    var link := At(tape, b.tick);
    var devices := if link.delivered && a in b.devices then b.devices[a := Receive(b.devices[a], f)] else b.devices;
    Tried(Bus(devices, b.tick + 1), link.code, link.native, None)
  }

  function ReadOnce(tape: seq<Link>, b: Bus, a: byte): Tried {
    var link := At(tape, b.tick);
    if !link.delivered || a !in b.devices then
      Tried(b.(tick := b.tick + 1), if link.code.CodeOk? then ReadFailed else link.code, link.native, None)
    else
      var (d, reply) := Emit(b.devices[a]);
      var b' := Bus(b.devices[a := d], b.tick + 1);
      if !link.code.CodeOk? then Tried(b', link.code, link.native, None)
      else if reply.None? then Tried(b', ReadFailed, 0, None)
      else Tried(b', CodeOk, 0, reply)
  }

  function QueryFrame(reply: byte): Frame {
    Frame(0, OP_SET_REPLY, [reply])
  }

  function TryOnce(tape: seq<Link>, b: Bus, a: byte, op: Op): Tried {
    match op
    case SendFrame(f) => SendOnce(tape, b, a, f)
    case ReadReply => ReadOnce(tape, b, a)
    case QueryFor(r) =>
      var staged := SendOnce(tape, b, a, QueryFrame(r));
      if !staged.code.CodeOk? then staged else ReadOnce(tape, staged.bus, a)
  }

  // ----- Retry engine ------------------------------------------------------------------------

  predicate IsRetryable(c: SessionCode) {
    c in {ScanFailed, WriteFailed, ReadFailed, Timeout, DecodeFailed, TransportError}
  }

  function MaxAttempts(retry: int): (n: nat)
    ensures n >= 1
  {
    if retry + 1 > 1 then retry + 1 else 1
  }

  predicate Final(t: Tried, attempt: nat, max: nat) {
    t.code.CodeOk? || !IsRetryable(t.code) || t.native == ETIMEDOUT || attempt == max
  }

  datatype Ran = Ran(bus: Bus, log: seq<Attempt>, status: SessionStatus, reply: Option<Frame>)

  /** Attempts number `attempt` and after, up to the first that is final. */
  function Attempts(tape: seq<Link>, b: Bus, log: seq<Attempt>, a: byte, op: Op, attempt: nat, max: nat): Ran
    requires attempt <= max
    decreases max - attempt
  {
    var t := TryOnce(tape, b, a, op);
    var log' := log + [Attempt(a, op)];
    if Final(t, attempt, max) then Ran(t.bus, log', SessionStatus(t.code, t.native, attempt), t.reply)
    else Attempts(tape, t.bus, log', a, op, attempt + 1, max)
  }

  // ----- Bookkeeping -------------------------------------------------------------------------

  function StatsOf(k: Book, a: byte): AddressStats {
    if a in k.stats then k.stats[a] else AddressStats(0, 0, 0, 0, false)
  }

  function RecordOutcome(k: Book, a: byte, s: SessionStatus): Book {
    var st := StatsOf(k, a);
    var st := if s.attempts > 1 then st.(retried := st.retried + (s.attempts - 1)) else st;
    if s.Ok() then
      var k := k.(stats := k.stats[a := st.(ok := st.ok + 1, hasSuccess := true)]);
      if a in k.failed then k.(failed := k.failed - {a}, recovery := k.recovery + {a}) else k
    else
      k.(stats := k.stats[a := st.(failed := st.failed + 1)], failed := k.failed + {a})
  }

  function RecordRejection(k: Book, a: byte): Book {
    var st := StatsOf(k, a);
    k.(stats := k.stats[a := st.(rejected := st.rejected + 1)])
  }

  function TakeRecovery(k: Book, a: byte): Book {
    k.(recovery := k.recovery - {a})
  }

  function Rejected(w: World, a: byte): World {
    w.(book := RecordRejection(w.book, a))
  }

  // ----- One session operation ---------------------------------------------------------------

  predicate ValidAddress(a: byte) {
    MIN_ADDRESS <= a <= MAX_ADDRESS
  }

  /** The checks made before the transport is touched; their failures are not I/O. */
  function Refusal(w: World, a: byte, op: Op): Option<SessionCode> {
    if !ValidAddress(a) then Some(InvalidArgument)
    else if op.SendFrame? && |op.frame.payload| > MAX_PAYLOAD then Some(InvalidArgument)
    else if !w.open then Some(NotOpen)
    else None
  }

  datatype Performed = Performed(world: World, status: SessionStatus, reply: Option<Frame>)

  /** `Session::send`, `Session::read` and `Session::query_read`. */
  function Perform(env: Env, w: World, a: byte, op: Op): Performed {
    match Refusal(w, a, op)
    case Some(code) => Performed(w, SessionStatus(code, 0, 0), None)
    case None =>
      var r := Attempts(env.tape, w.bus, w.log, a, op, 1, MaxAttempts(env.retry));
      Performed(World(r.bus, r.log, RecordOutcome(w.book, a, r.status), w.open), r.status, r.reply)
  }
}

/** The session and its transport as objects, each operation refining `Perform`. */
module SessionObjects {
  import opened Bytes
  import opened Protocol
  import opened CannedDevice
  import opened SessionModel

  class Transport {
    const bus: CannedBus
    const tape: seq<Link>
    var tick: nat
    var open: bool

    constructor (bus: CannedBus, tape: seq<Link>)
      ensures this.bus == bus && this.tape == tape && tick == 0 && !open
    {
      this.bus, this.tape, tick, open := bus, tape, 0, false;
    }

    ghost function State(): Bus
      reads this, bus
    {
      Bus(bus.devices, tick)
    }

    method Send(a: byte, f: Frame) returns (t: Tried)
      modifies this`tick, bus
      ensures t == SendOnce(tape, old(State()), a, f) && State() == t.bus
    {
      var link := At(tape, tick);
      tick := tick + 1;
      if link.delivered {
        bus.ApplyWrite(a, f);
      }
      t := Tried(Bus(bus.devices, tick), link.code, link.native, None);
    }

    method Read(a: byte) returns (t: Tried)
      modifies this`tick, bus
      ensures t == ReadOnce(tape, old(State()), a) && State() == t.bus
    {
      var link := At(tape, tick);
      tick := tick + 1;
      var code := if link.code.CodeOk? then ReadFailed else link.code;
      if !link.delivered || a !in bus.devices {
        return Tried(Bus(bus.devices, tick), code, link.native, None);
      }
      var reply := bus.EmitReply(a);
      if link.code.CodeOk? && reply.Some? {
        t := Tried(Bus(bus.devices, tick), CodeOk, 0, reply);
      } else {
        t := Tried(Bus(bus.devices, tick), code, if link.code.CodeOk? then 0 else link.native, None);
      }
    }
  }

  class Session {
    const transport: Transport
    const retry: int
    var stats: map<byte, AddressStats>
    var lastOpFailed: set<byte>
    var recoveryPending: set<byte>
    var log: seq<Attempt>

    constructor (transport: Transport, retry: int)
      ensures this.transport == transport && this.retry == retry
      ensures stats == map[] && lastOpFailed == {} && recoveryPending == {} && log == []
    {
      this.transport, this.retry := transport, retry;
      stats, lastOpFailed, recoveryPending, log := map[], {}, {}, [];
    }

    function Environment(): Env {
      Env(transport.tape, retry)
    }

    ghost function State(): World
      reads this, transport, transport.bus
    {
      World(transport.State(), log, Book(stats, lastOpFailed, recoveryPending), transport.open)
    }

    /**
     The retry loop. `retry + 1` must not overflow a 32-bit int, which the source does not
     check: its configuration schema admits the maximum.
     */
    method ExecuteWithRetry(a: byte, op: Op) returns (status: SessionStatus, reply: Option<Frame>)
      requires retry < 0x7FFF_FFFF
      modifies this`log, transport`tick, transport.bus
      ensures var r := Attempts(transport.tape, old(transport.State()), old(log), a, op, 1, MaxAttempts(retry));
              transport.State() == r.bus && log == r.log && status == r.status && reply == r.reply
    {
      var max := MaxAttempts(retry);
      ghost var goal := Attempts(transport.tape, transport.State(), log, a, op, 1, max);
      var attempt := 1;
      while true
        invariant 1 <= attempt <= max
        invariant goal == Attempts(transport.tape, transport.State(), log, a, op, attempt, max)
        decreases max - attempt
      {
        var t: Tried;
        match op {
          case SendFrame(f) => t := transport.Send(a, f);
          case ReadReply => t := transport.Read(a);
          case QueryFor(r) =>
            t := transport.Send(a, QueryFrame(r));
            if t.code.CodeOk? {
              t := transport.Read(a);
            }
        }
        log := log + [Attempt(a, op)];
        if t.code.CodeOk? || !IsRetryable(t.code) || t.native == ETIMEDOUT || attempt == max {
          return SessionStatus(t.code, t.native, attempt), t.reply;
        }
        attempt := attempt + 1;
      }
    }

    method RecordOutcome(a: byte, status: SessionStatus)
      modifies this`stats, this`lastOpFailed, this`recoveryPending
      ensures Book(stats, lastOpFailed, recoveryPending)
              == SessionModel.RecordOutcome(old(Book(stats, lastOpFailed, recoveryPending)), a, status)
    {
      var st := if a in stats then stats[a] else AddressStats(0, 0, 0, 0, false);
      if status.attempts > 1 {
        st := st.(retried := st.retried + (status.attempts - 1));
      }
      if status.Ok() {
        st := st.(ok := st.ok + 1, hasSuccess := true);
        if a in lastOpFailed {
          lastOpFailed := lastOpFailed - {a};
          recoveryPending := recoveryPending + {a};
        }
      } else {
        st := st.(failed := st.failed + 1);
        lastOpFailed := lastOpFailed + {a};
      }
      stats := stats[a := st];
    }

    method Send(a: byte, f: Frame) returns (status: SessionStatus)
      requires retry < 0x7FFF_FFFF
      modifies this, transport`tick, transport.bus
      ensures var p := Perform(Environment(), old(State()), a, SendFrame(f)); State() == p.world && status == p.status
    {
      if !ValidAddress(a) || |f.payload| > MAX_PAYLOAD {
        return SessionStatus(InvalidArgument, 0, 0);
      }
      if !transport.open {
        return SessionStatus(NotOpen, 0, 0);
      }
      var reply;
      status, reply := ExecuteWithRetry(a, SendFrame(f));
      RecordOutcome(a, status);
    }

    method QueryRead(a: byte, replyOpcode: byte) returns (status: SessionStatus, reply: Option<Frame>)
      requires retry < 0x7FFF_FFFF
      modifies this, transport`tick, transport.bus
      ensures var p := Perform(Environment(), old(State()), a, QueryFor(replyOpcode));
              State() == p.world && status == p.status && reply == p.reply
    {
      if !ValidAddress(a) {
        return SessionStatus(InvalidArgument, 0, 0), None;
      }
      if !transport.open {
        return SessionStatus(NotOpen, 0, 0), None;
      }
      status, reply := ExecuteWithRetry(a, QueryFor(replyOpcode));
      RecordOutcome(a, status);
    }

    method Read(a: byte) returns (status: SessionStatus, reply: Option<Frame>)
      requires retry < 0x7FFF_FFFF
      modifies this, transport`tick, transport.bus
      ensures var p := Perform(Environment(), old(State()), a, ReadReply);
              State() == p.world && status == p.status && reply == p.reply
    {
      if !ValidAddress(a) {
        return SessionStatus(InvalidArgument, 0, 0), None;
      }
      if !transport.open {
        return SessionStatus(NotOpen, 0, 0), None;
      }
      status, reply := ExecuteWithRetry(a, ReadReply);
      RecordOutcome(a, status);
    }

    method RecordRejection(a: byte)
      modifies this`stats
      ensures State() == Rejected(old(State()), a)
    {
      var st := if a in stats then stats[a] else AddressStats(0, 0, 0, 0, false);
      stats := stats[a := st.(rejected := st.rejected + 1)];
    }

    method TakeRecovery(a: byte) returns (taken: bool)
      modifies this`recoveryPending
      ensures taken <==> a in old(recoveryPending)
      ensures State() == old(State()).(book := SessionModel.TakeRecovery(old(State()).book, a))
    {
      taken := a in recoveryPending;
      recoveryPending := recoveryPending - {a};
    }
  }
}
