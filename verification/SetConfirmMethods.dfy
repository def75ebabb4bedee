/** The confirm loop as it runs on a session, refining the functions of `SetConfirm`. */
module SetConfirmMethods {
  import opened Bytes
  import opened Protocol
  import opened CannedDevice
  import opened SessionModel
  import opened SessionObjects
  import opened Capabilities
  import opened SetConfirm

  method ReadAcknowledgement(session: Session, a: byte) returns (record: Option<AckRecord>)
    requires session.retry < 0x7FFF_FFFF
    modifies session, session.transport`tick, session.transport.bus
    ensures (session.State(), record) == ReadAck(session.Environment(), old(session.State()), a, 0)
  {
    ghost var goal := ReadAck(session.Environment(), session.State(), a, 0);
    for attempt := 0 to ACK_READ_ATTEMPTS
      invariant goal == ReadAck(session.Environment(), session.State(), a, attempt)
    {
      var status, reply := session.QueryRead(a, OP_GET_ACK);
      if !status.Ok() || reply.None? {
        return None;
      }
      record := AckDecode(reply.value);
      if record.Some? {
        return;
      }
      session.RecordRejection(a);
    }
    record := None;
  }

  /** One send and the acknowledgement read that decides about it, whatever the send reported. */
  method SendAndRead(session: Session, a: byte, f: Frame, before: AckRecord) returns (round: Round)
    requires session.retry < 0x7FFF_FFFF
    modifies session, session.transport`tick, session.transport.bus
    ensures (session.State(), round) == RunRound(session.Environment(), old(session.State()), a, f, before)
  {
    var _ := session.Send(a, f);
    var after := ReadAcknowledgement(session, a);
    if after.None? {
      return Lost;
    }
    round := Concluded(AckClassify(before, after.value, f.opcode), after.value.reason);
  }

  /** The loop takes one round, and stops there or goes on from where it left. */
  lemma RoundsStep(env: Env, w: World, a: byte, f: Frame, before: AckRecord, sent: nat, w': World, r: Round)
    requires (w', r) == RunRound(env, w, a, f, before)
    ensures Rounds(env, w, a, f, before, sent)
            == if Resends(r) && sent < CONFIRMED_SENDS then Rounds(env, w', a, f, before, sent + 1) else (w', Answer(r))
  {
  }

  /** Send again while nothing has been counted. */
  method ConfirmLoop(session: Session, a: byte, f: Frame, before: AckRecord) returns (result: CallResult)
    requires session.retry < 0x7FFF_FFFF
    modifies session, session.transport`tick, session.transport.bus
    ensures (session.State(), result) == Rounds(session.Environment(), old(session.State()), a, f, before, 1)
  {
    ghost var env, w := session.Environment(), session.State();
    ghost var goal := Rounds(env, w, a, f, before, 1);
    var round := Lost;
    for sent := 1 to CONFIRMED_SENDS + 1
      invariant w == session.State()
      invariant sent <= CONFIRMED_SENDS ==> goal == Rounds(env, w, a, f, before, sent)
      invariant sent > CONFIRMED_SENDS ==> goal == (w, Answer(round)) && Resends(round)
    {
      round := SendAndRead(session, a, f, before);
      RoundsStep(env, w, a, f, before, sent, session.State(), round);
      w := session.State();
      if !Resends(round) {
        return Answer(round);
      }
    }
    result := CallResult(false, AdppUnavailable, NotCounted);
  }

  /** `transmit_confirmed` */
  method Transmit(session: Session, d: InventoryDevice, f: Frame) returns (result: CallResult)
    requires session.retry < 0x7FFF_FFFF
    modifies session, session.transport`tick, session.transport.bus
    ensures (session.State(), result) == TransmitConfirmed(session.Environment(), old(session.State()), d, f)
  {
    if Confirmation(d).Unconfirmed? {
      var status := session.Send(d.address, f);
      return if status.Ok() then CallResult(true, AdppOk, AppliedUnconfirmed) else CallError(status.code);
    }
    var before := ReadAcknowledgement(session, d.address);
    if before.None? {
      return CallResult(false, AdppUnavailable, NotSent);
    }
    result := ConfirmLoop(session, d.address, f, before.value);
  }
}
