/**
 Firmware without acknowledgements: CRUMBS before 1600. A SET is one send, answered with what the
 link reported of it.
 */
module UnconfirmedSet {
  import opened Bytes
  import opened Protocol
  import opened SessionModel
  import opened Capabilities
  import opened SetConfirm

  /** How a SET is confirmed, by version number and refusal flag. */
  lemma ConfirmationByVersion(d: InventoryDevice)
    ensures Confirmation(d) ==
              if d.version.crumbs < 1600 then Unconfirmed
              else if (if d.deviceType.Rlht? then RLHT_CAP_REFUSES else DCMT_CAP_REFUSES) in d.profile.flags
              then Acknowledged
              else DeliveryOnly
  {
  }

  /** The attempts of a send are sends of that frame, one per use of the link; the last use decides. */
  lemma {:induction false} SendLog(
    tape: seq<Link>, b: Bus, log: seq<Attempt>, a: byte, f: Frame, n: nat, max: nat)
    requires 1 <= n <= max
    ensures var r := Attempts(tape, b, log, a, SendFrame(f), n, max);
            && n <= r.status.attempts <= max
            && r.log == log + seq(r.status.attempts - n + 1, _ => Attempt(a, SendFrame(f)))
            && r.bus.tick == b.tick + (r.status.attempts - n + 1)
            && r.status.code == At(tape, r.bus.tick - 1).code
    decreases max - n
  {
    var t := TryOnce(tape, b, a, SendFrame(f));
    if !Final(t, n, max) {
      SendLog(tape, t.bus, log + [Attempt(a, SendFrame(f))], a, f, n + 1, max);
    }
  }

  /** The answer to a send that failed with this code. */
  predicate AnswersFailure(r: CallResult, code: SessionCode) {
    && !r.ok && r.note == WriteError
    && (code.Timeout? ==> r.code == AdppDeadlineExceeded)
    && (code.DecodeFailed? ==> r.code == AdppInternal)
    && (!code.Timeout? && !code.DecodeFailed? ==> r.code == AdppUnavailable)
  }

  /** The session refuses the send before any I/O: closed, no such address, or too long a payload. */
  predicate Refused(w: World, d: InventoryDevice, f: Frame) {
    !w.open || d.address < 0x08 || d.address > 0x77 || |f.payload| > 27
  }

  /**
   A SET to firmware before CRUMBS 1600, under every fault pattern: one session operation, a send of
   the frame, which makes between one and `retry_count + 1` attempts. The answer is OK if and only if
   the last attempt reported success, and otherwise names its failure. A send refused before any I/O
   changes nothing and is unavailable.
   */
  lemma UnconfirmedMeaning(env: Env, w: World, d: InventoryDevice, f: Frame)
    requires d.version.crumbs < 1600
    ensures var (w', r) := TransmitConfirmed(env, w, d, f);
            if Refused(w, d, f) then
              w' == w && AnswersFailure(r, NotOpen)
            else
              var n := w'.bus.tick - w.bus.tick;
              && 1 <= n <= (if env.retry < 0 then 1 else env.retry + 1)
              && var last := At(env.tape, w'.bus.tick - 1).code;
              && w'.log == w.log + seq(n, _ => Attempt(d.address, SendFrame(f)))
              && w'.book == RecordOutcome(w.book, d.address, Perform(env, w, d.address, SendFrame(f)).status)
              && (last.CodeOk? ==> r == CallResult(true, AdppOk, AppliedUnconfirmed))
              && (!last.CodeOk? ==> AnswersFailure(r, last))
  {
    if !Refused(w, d, f) {
      SendLog(env.tape, w.bus, w.log, d.address, f, 1, MaxAttempts(env.retry));
    }
  }
}
