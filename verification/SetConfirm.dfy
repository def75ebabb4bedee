/**
 Confirmed SETs: read the acknowledgement, send, read it again, and send again only while the
 device has counted nothing.

 `AckDecode` and `AckClassify` stand for the two CRUMBS functions the provider calls. Their code
 is outside the repository; this is the one assumption of the model, stated as the header of the
 provider documents them.
 */
module SetConfirm {
  import opened Bytes
  import opened Protocol
  import opened CannedDevice
  import opened SessionModel
  import opened Capabilities
  import opened Footprint

  const ACK_MIN_VERSION: nat := 1600
  const ACK_READ_ATTEMPTS: nat := 3
  const CONFIRMED_SENDS: nat := 3

  datatype SetConfirmation = Acknowledged | DeliveryOnly | Unconfirmed

  function RefusesFlag(t: DeviceType): nat {
    match t
    case Rlht => RLHT_CAP_REFUSES
    case Dcmt => DCMT_CAP_REFUSES
  }

  function Confirmation(d: InventoryDevice): SetConfirmation {
    if d.version.crumbs < ACK_MIN_VERSION then Unconfirmed
    else if RefusesFlag(d.deviceType) in d.profile.flags then Acknowledged
    else DeliveryOnly
  }

  function AckDecode(f: Frame): Option<AckRecord> {
    if f.opcode == OP_GET_ACK && |f.payload| == 4 && f.payload[2] <= ACK_REJECTED
    then Some(AckRecord(f.payload[0], f.payload[1], f.payload[2], f.payload[3]))
    else None
  }

  datatype AckOutcome = SetApplied | SetRefused | SetRejected | NotAdvanced | Mismatch | Unknown

  function AckClassify(before: AckRecord, after: AckRecord, opcode: byte): AckOutcome {
    if after.status == ACK_NONE then Unknown
    else if after == before then NotAdvanced
    else if after.counter != (before.counter + 1) % 0x100 then Unknown
    else if after.opcode != opcode then Mismatch
    else if after.status == ACK_APPLIED then SetApplied
    else if after.status == ACK_REFUSED then SetRefused
    else SetRejected
  }

  /** The refusal reasons that are not a failed precondition. */
  const REFUSE_MALFORMED: byte := 4
  const REFUSE_UNDEFINED_VALUE: byte := 5
  const REFUSE_UNKNOWN_OP: byte := 6
  const REFUSE_NOT_BUILT: byte := 7

  function RefusalCode(reason: byte): AdppCode {
    if reason in {REFUSE_MALFORMED, REFUSE_UNDEFINED_VALUE, REFUSE_UNKNOWN_OP} then AdppInvalidArgument
    else if reason == REFUSE_NOT_BUILT then AdppUnimplemented
    else AdppFailedPrecondition
  }

  function CallError(code: SessionCode): CallResult {
    CallResult(false, match code
                      case Timeout => AdppDeadlineExceeded
                      case DecodeFailed => AdppInternal
                      case _ => AdppUnavailable, WriteError)
  }

  // ----- Specification -----------------------------------------------------------------------

  /** `read_ack`, from attempt `n` on. */
  function ReadAck(env: Env, w: World, a: byte, n: nat): (World, Option<AckRecord>)
    decreases ACK_READ_ATTEMPTS - n
  {
    if n >= ACK_READ_ATTEMPTS then (w, None)
    else
      var p := Perform(env, w, a, QueryFor(OP_GET_ACK));
      if !p.status.Ok() || p.reply.None? then (p.world, None)
      else
        match AckDecode(p.reply.value)
        case Some(record) => (p.world, Some(record))
        case None => ReadAck(env, Rejected(p.world, a), a, n + 1)
  }

  /** What one round, a send and the acknowledgement read after it, concludes. */
  datatype Round = Lost | Concluded(outcome: AckOutcome, reason: byte)

  function RunRound(env: Env, w: World, a: byte, f: Frame, before: AckRecord): (World, Round) {
    var sent := Perform(env, w, a, SendFrame(f)).world;
    var (w', after) := ReadAck(env, sent, a, 0);
    match after
    case None => (w', Lost)
    case Some(record) => (w', Concluded(AckClassify(before, record, f.opcode), record.reason))
  }

  predicate Resends(r: Round) { r.Concluded? && r.outcome.NotAdvanced? }

  /** The answer to a round that is not sent again, or to the last one. */
  function Answer(r: Round): CallResult {
    match r
    case Lost => CallResult(false, AdppUnavailable, AckLost)
    case Concluded(outcome, reason) =>
      match outcome
      case SetApplied => CallResult(true, AdppOk, Applied)
      case SetRefused => CallResult(false, RefusalCode(reason), RefusedFor(reason))
      case SetRejected => CallResult(false, AdppInternal, RejectedFor(reason))
      case NotAdvanced => CallResult(false, AdppUnavailable, NotCounted)
      case Mismatch => CallResult(false, AdppUnavailable, CountedAnother)
      case Unknown => CallResult(false, AdppUnavailable, CannotSay)
  }

  /** Rounds number `sent` and after, where `round` runs one. */
  function Repeat(round: World -> (World, Round), w: World, sent: nat): (World, CallResult)
    decreases CONFIRMED_SENDS - sent
  {
    var (w', r) := round(w);
    if Resends(r) && sent < CONFIRMED_SENDS then Repeat(round, w', sent + 1) else (w', Answer(r))
  }

  function RoundOf(env: Env, a: byte, f: Frame, before: AckRecord): World -> (World, Round) {
    w => RunRound(env, w, a, f, before)
  }

  function Rounds(env: Env, w: World, a: byte, f: Frame, before: AckRecord, sent: nat): (World, CallResult) {
    Repeat(RoundOf(env, a, f, before), w, sent)
  }

  function TransmitConfirmed(env: Env, w: World, d: InventoryDevice, f: Frame): (World, CallResult) {
    if Confirmation(d).Unconfirmed? then
      var p := Perform(env, w, d.address, SendFrame(f));
      (p.world, if p.status.Ok() then CallResult(true, AdppOk, AppliedUnconfirmed) else CallError(p.status.code))
    else
      var (w', before) := ReadAck(env, w, d.address, 0);
      match before
      case None => (w', CallResult(false, AdppUnavailable, NotSent))
      case Some(record) => Rounds(env, w', d.address, f, record, 1)
  }

  // ----- Every operation has a footprint -----------------------------------------------------

  lemma {:induction false} ReadAckMoves(env: Env, w: World, a: byte, n: nat, s: Sends)
    ensures Moves(w, ReadAck(env, w, a, n).0, s)
    decreases ACK_READ_ATTEMPTS - n
  {
    MovesRefl(w, s);
    if n < ACK_READ_ATTEMPTS {
      var p := Perform(env, w, a, QueryFor(OP_GET_ACK));
      PerformMoves(env, w, a, QueryFor(OP_GET_ACK), s);
      if p.status.Ok() && p.reply.Some? && AckDecode(p.reply.value).None? {
        RejectionMoves(env, w, a, QueryFor(OP_GET_ACK), s);
        ReadAckMoves(env, Rejected(p.world, a), a, n + 1, s);
        MovesTrans(w, Rejected(p.world, a), ReadAck(env, Rejected(p.world, a), a, n + 1).0, s);
      }
    }
  }

  lemma RoundMoves(env: Env, w: World, a: byte, f: Frame, before: AckRecord, s: Sends)
    requires (a, f) in s
    ensures Moves(w, RunRound(env, w, a, f, before).0, s)
  {
    var sent := Perform(env, w, a, SendFrame(f)).world;
    PerformMoves(env, w, a, SendFrame(f), s);
    ReadAckMoves(env, sent, a, 0, s);
    MovesTrans(w, sent, ReadAck(env, sent, a, 0).0, s);
  }

  lemma {:induction false} RepeatMoves(round: World -> (World, Round), w: World, sent: nat, s: Sends)
    requires forall x: World :: Moves(x, round(x).0, s)
    ensures Moves(w, Repeat(round, w, sent).0, s)
    decreases CONFIRMED_SENDS - sent
  {
    var (w', r) := round(w);
    assert Moves(w, w', s);
    if Resends(r) && sent < CONFIRMED_SENDS {
      RepeatMoves(round, w', sent + 1, s);
      MovesTrans(w, w', Repeat(round, w', sent + 1).0, s);
    }
  }

  lemma RoundsMove(env: Env, w: World, a: byte, f: Frame, before: AckRecord, sent: nat, s: Sends)
    requires (a, f) in s
    ensures Moves(w, Rounds(env, w, a, f, before, sent).0, s)
  {
    var round := RoundOf(env, a, f, before);
    forall x: World ensures Moves(x, round(x).0, s) {
      RoundMoves(env, x, a, f, before, s);
    }
    RepeatMoves(round, w, sent, s);
  }

  lemma TransmitMoves(env: Env, w: World, d: InventoryDevice, f: Frame, s: Sends)
    requires (d.address, f) in s
    ensures Moves(w, TransmitConfirmed(env, w, d, f).0, s)
  {
    if Confirmation(d).Unconfirmed? {
      PerformMoves(env, w, d.address, SendFrame(f), s);
    } else {
      var (w', before) := ReadAck(env, w, d.address, 0);
      ReadAckMoves(env, w, d.address, 0, s);
      if before.Some? {
        RoundsMove(env, w', d.address, f, before.value, 1, s);
        MovesTrans(w, w', Rounds(env, w', d.address, f, before.value, 1).0, s);
      }
    }
  }
}
