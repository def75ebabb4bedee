/** The status codes callers see, by what happened. */
module Answers {
  import opened Bytes
  import opened Protocol
  import opened CannedDevice
  import opened SessionModel
  import opened Capabilities
  import opened Footprint
  import opened SetConfirm
  import opened AdapterHelpers
  import opened DeviceAdapter
  import opened RetryBound

  // ----- The session's own refusals ----------------------------------------------------------

  /** An operation on a bad address, with too long a frame, or on a closed session touches nothing. */
  lemma RefusalMeaning(env: Env, w: World, a: byte, op: Op)
    ensures var p := Perform(env, w, a, op);
            var bad := a < 0x08 || a > 0x77 || (op.SendFrame? && |op.frame.payload| > 27);
            && (bad || !w.open ==> p.world == w && p.reply == None && p.status.attempts == 0)
            && (bad ==> p.status.code == InvalidArgument)
            && (!bad && !w.open ==> p.status.code == NotOpen)
            && (!bad && w.open ==> p.status.attempts >= 1 && |p.world.log| > |w.log|)
  {
    if Refusal(w, a, op).None? {
      AttemptsMove(env.tape, w.bus, w.log, a, op, 1, MaxAttempts(env.retry), SendsOf(a, op));
      GrowingLog(env.tape, w.bus, w.log, a, op, 1, MaxAttempts(env.retry));
    }
  }

  lemma {:induction false} GrowingLog(tape: seq<Link>, b: Bus, log: seq<Attempt>, a: byte, op: Op, n: nat, max: nat)
    requires n <= max
    ensures |Attempts(tape, b, log, a, op, n, max).log| > |log|
    decreases max - n
  {
    var t := TryOnce(tape, b, a, op);
    if !Final(t, n, max) {
      GrowingLog(tape, t.bus, log + [Attempt(a, op)], a, op, n + 1, max);
    }
  }

  // ----- Confirmed SETs ----------------------------------------------------------------------

  /** The code an answer carries for what it says. */
  predicate CodeFits(r: CallResult) {
    match r.note
    case Applied => r.ok && r.code == AdppOk
    case RefusedFor(reason) =>
      && !r.ok
      && r.code == (if reason == REFUSE_MALFORMED || reason == REFUSE_UNDEFINED_VALUE || reason == REFUSE_UNKNOWN_OP
                    then AdppInvalidArgument
                    else if reason == REFUSE_NOT_BUILT then AdppUnimplemented
                    else AdppFailedPrecondition)
    case RejectedFor(_) => !r.ok && r.code == AdppInternal
    case NotSent => !r.ok && r.code == AdppUnavailable
    case AckLost => !r.ok && r.code == AdppUnavailable
    case NotCounted => !r.ok && r.code == AdppUnavailable
    case CountedAnother => !r.ok && r.code == AdppUnavailable
    case CannotSay => !r.ok && r.code == AdppUnavailable
    case _ => false
  }

  lemma AnswerFits(r: Round)
    ensures CodeFits(Answer(r))
  {
  }

  lemma {:induction false} RepeatFits(round: World -> (World, Round), w: World, sent: nat)
    ensures CodeFits(Repeat(round, w, sent).1)
    decreases CONFIRMED_SENDS - sent
  {
    var (w', r) := round(w);
    if Resends(r) && sent < CONFIRMED_SENDS {
      RepeatFits(round, w', sent + 1);
    } else {
      AnswerFits(r);
    }
  }

  /** Every answer of a confirmed SET carries the code of what it says; a refusal's depends on its reason. */
  lemma ConfirmedCodes(env: Env, w: World, d: InventoryDevice, f: Frame)
    requires !Confirmation(d).Unconfirmed?
    ensures CodeFits(TransmitConfirmed(env, w, d, f).1)
  {
    var (w1, before) := ReadAck(env, w, d.address, 0);
    if before.Some? {
      RepeatFits(RoundOf(env, d.address, f, before.value), w1, 1);
    }
  }

  // ----- Acknowledgements that do not decode -------------------------------------------------

  /** A device whose acknowledgement record has a status no decoder knows. */
  predicate Garbled(w: World, a: byte) {
    && w.open && ValidAddress(a) && a in w.bus.devices
    && w.bus.devices[a].ackSkip == 0 && w.bus.devices[a].ackFailures == 0
    && w.bus.devices[a].ack.status > ACK_REJECTED
  }

  lemma GarbledQuery(env: Env, w: World, a: byte)
    requires Garbled(w, a) && CleanFrom(env, w.bus.tick)
    ensures var p := Perform(env, w, a, QueryFor(OP_GET_ACK));
            && p.status.Ok() && p.reply.Some? && AckDecode(p.reply.value).None?
            && p.world.log == w.log + [Attempt(a, QueryFor(OP_GET_ACK))]
            && Garbled(p.world, a) && CleanFrom(env, p.world.bus.tick)
            && StatsOf(p.world.book, a).rejected == StatsOf(w.book, a).rejected
  {
    var d := w.bus.devices[a];
    var b1 := SendOnce(env.tape, w.bus, a, QueryFrame(OP_GET_ACK)).bus;
    assert b1.devices[a] == d.(pending := Some(OP_GET_ACK));
    var t := ReadOnce(env.tape, b1, a);
    assert t.code.CodeOk? && t.reply.Some?;
    assert TryOnce(env.tape, w.bus, a, QueryFor(OP_GET_ACK)) == t;
    assert Final(t, 1, MaxAttempts(env.retry));
  }

  lemma {:induction false} GarbledReads(env: Env, w: World, a: byte, n: nat)
    requires Garbled(w, a) && CleanFrom(env, w.bus.tick) && n <= 3
    ensures var (w', r) := ReadAck(env, w, a, n);
            && r.None? && |w'.log| == |w.log| + (3 - n)
            && StatsOf(w'.book, a).rejected == StatsOf(w.book, a).rejected + (3 - n)
    decreases 3 - n
  {
    if n < 3 {
      GarbledQuery(env, w, a);
      GarbledReads(env, Rejected(Perform(env, w, a, QueryFor(OP_GET_ACK)).world, a), a, n + 1);
    }
  }

  /** An acknowledgement that does not decode is rejected and read again, three times in all, and then given up. */
  lemma GarbledAckIsReadThrice(env: Env, w: World, a: byte)
    requires Garbled(w, a) && CleanFrom(env, w.bus.tick)
    ensures var (w', r) := ReadAck(env, w, a, 0);
            && r.None? && |w'.log| == |w.log| + 3
            && StatsOf(w'.book, a).rejected == StatsOf(w.book, a).rejected + 3
  {
    GarbledReads(env, w, a, 0);
  }

  /** A read of the acknowledgement that fails on the bus is not tried again. */
  lemma FailedAckIsGivenUp(env: Env, w: World, a: byte)
    requires !Perform(env, w, a, QueryFor(OP_GET_ACK)).status.Ok()
    ensures ReadAck(env, w, a, 0) == (Perform(env, w, a, QueryFor(OP_GET_ACK)).world, None)
  {
  }

  // ----- Reads and offline calls -------------------------------------------------------------

  /** A failed read names what failed: the bus, or a reply the adapter cannot use, which is rejected. */
  lemma ReadFailures(env: Env, w: World, d: InventoryDevice, ids: seq<SignalId>)
    ensures var p := Perform(env, w, d.address, QueryFor(StateOpcode(d.deviceType)));
            var (w', r) := ReadSignals(env, w, d, ids);
            && (!p.status.Ok() ==>
                  && !r.ok && w' == p.world
                  && (p.status.code.Timeout? ==> r.code == AdppDeadlineExceeded)
                  && (p.status.code.DecodeFailed? ==> r.code == AdppInternal)
                  && (!p.status.code.Timeout? && !p.status.code.DecodeFailed? ==> r.code == AdppUnavailable))
            && (p.status.Ok() && !r.ok && p.reply.Some? ==>
                  r.code == AdppInternal
                  && StatsOf(w'.book, d.address).rejected == StatsOf(p.world.book, d.address).rejected + 1)
  {
  }

  /** Without a session a call with good arguments is unavailable, and with bad ones an argument error. */
  lemma OfflineCalls(env: Env, w: World, d: InventoryDevice, functionId: nat, args: Args)
    requires 1 <= functionId <= 7
    ensures var (w', r) := DeviceAdapter.Call(env, w, false, d, functionId, args);
            && w' == w && !r.ok
            && (Encode(d.deviceType, functionId, args).Encoded? ==> r.code == AdppUnavailable)
            && (!Encode(d.deviceType, functionId, args).Encoded? ==> r.code in {AdppInvalidArgument, AdppOutOfRange})
  {
    InvalidCodes(d.deviceType, functionId, args);
  }
}
