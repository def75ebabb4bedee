/**
 What a confirmed SET means, for every fault pattern and with the session's own retries:
 the answer says exactly what the device counted, and OK means applied exactly once. The
 command counter is 8 bits wide, so this holds if and only if one send makes at most 255
 attempts, that is, if and only if `retry_count <= 254`.
 */
module ExactlyOnce {
  import opened Bytes
  import opened Protocol
  import opened CannedDevice
  import opened SessionModel
  import opened Capabilities
  import opened Footprint
  import opened SetConfirm

  const MAX_SAFE_RETRIES: int := 254

  /** From `w` to `w'` the device at `a` counted exactly the commands `k`, all of them `f`. */
  predicate Counted(w: World, w': World, a: byte, f: Frame, k: seq<Entry>) {
    && a in w.bus.devices && a in w'.bus.devices
    && Consistent(w'.bus.devices[a])
    && w'.bus.devices[a].journal == w.bus.devices[a].journal + k
    && forall i | 0 <= i < |k| :: k[i].frame == f
  }

  /** Those commands were counted, and nothing else was sent to any device. */
  ghost predicate Accounts(w: World, w': World, a: byte, f: Frame, k: seq<Entry>) {
    Moves(w, w', iset{(a, f)}) && Counted(w, w', a, f, k)
  }

  lemma AccountsOutputs(w: World, w': World, a: byte, f: Frame, k: seq<Entry>)
    requires Accounts(w, w', a, f, k)
    ensures w'.bus.devices[a].typeId == w.bus.devices[a].typeId
    ensures w'.bus.devices[a].out == Replay(w.bus.devices[a].typeId, w.bus.devices[a].out, k)
  {
    var j := w.bus.devices[a].journal;
    assert Grows(w.bus.devices[a], w'.bus.devices[a], FramesTo(iset{(a, f)}, a));
    assert (j + k)[|j|..] == k;
  }

  /** Something in the log after position `n` is a send. */
  ghost predicate SendsAfter(log: seq<Attempt>, n: nat) {
    exists i :: n <= i < |log| && log[i].op.SendFrame?
  }

  // ----- Reading the acknowledgement ---------------------------------------------------------

  lemma EmittedAck(d: Device)
    ensures var (d', r) := Emit(d);
            && d'.ack == d.ack
            && (r.Some? && r.value.opcode == OP_GET_ACK ==>
                  r.value.payload == [d.ack.counter, d.ack.opcode, d.ack.status, d.ack.reason])
  {
  }

  lemma {:induction false} QueriedAck(tape: seq<Link>, b: Bus, log: seq<Attempt>, a: byte, n: nat, max: nat)
    requires n <= max
    ensures var r := Attempts(tape, b, log, a, QueryFor(OP_GET_ACK), n, max);
            r.status.Ok() && r.reply.Some? && AckDecode(r.reply.value).Some? ==>
              a in r.bus.devices && AckDecode(r.reply.value).value == r.bus.devices[a].ack
    decreases max - n
  {
    var op := QueryFor(OP_GET_ACK);
    var t := TryOnce(tape, b, a, op);
    if Final(t, n, max) {
      var staged := SendOnce(tape, b, a, QueryFrame(OP_GET_ACK)).bus;
      if a in staged.devices {
        EmittedAck(staged.devices[a]);
      }
    } else {
      QueriedAck(tape, t.bus, log + [Attempt(a, op)], a, n + 1, max);
    }
  }

  lemma PerformedAck(env: Env, w: World, a: byte)
    ensures var p := Perform(env, w, a, QueryFor(OP_GET_ACK));
            p.status.Ok() && p.reply.Some? && AckDecode(p.reply.value).Some? ==>
              a in p.world.bus.devices && AckDecode(p.reply.value).value == p.world.bus.devices[a].ack
  {
    QueriedAck(env.tape, w.bus, w.log, a, 1, MaxAttempts(env.retry));
  }

  /** An acknowledgement that was read is the device's own, as it stands after the read. */
  lemma {:induction false} ReadAckTruth(env: Env, w: World, a: byte, n: nat)
    ensures var (w', r) := ReadAck(env, w, a, n);
            r.Some? ==> a in w'.bus.devices && r.value == w'.bus.devices[a].ack
    decreases ACK_READ_ATTEMPTS - n
  {
    if n < ACK_READ_ATTEMPTS {
      PerformedAck(env, w, a);
      var p := Perform(env, w, a, QueryFor(OP_GET_ACK));
      if p.status.Ok() && p.reply.Some? && AckDecode(p.reply.value).None? {
        ReadAckTruth(env, Rejected(p.world, a), a, n + 1);
      }
    }
  }

  /** Reading an acknowledgement sends no command, so the device counts nothing. */
  lemma ReadAckQuiet(env: Env, w: World, a: byte)
    requires a in w.bus.devices
    ensures var w' := ReadAck(env, w, a, 0).0;
            && a in w'.bus.devices
            && w'.bus.devices[a].journal == w.bus.devices[a].journal
            && (Consistent(w.bus.devices[a]) ==> Consistent(w'.bus.devices[a]))
            && w.log <= w'.log && !SendsAfter(w'.log, |w.log|)
  {
    var w' := ReadAck(env, w, a, 0).0;
    ReadAckMoves(env, w, a, 0, iset{});
  }

  // ----- Sending -----------------------------------------------------------------------------

  lemma {:induction false} SendCounts(
    tape: seq<Link>, b: Bus, log: seq<Attempt>, a: byte, f: Frame, n: nat, max: nat)
    requires n <= max && a in b.devices
    ensures var r := Attempts(tape, b, log, a, SendFrame(f), n, max);
            && a in r.bus.devices
            && |r.bus.devices[a].journal| <= |b.devices[a].journal| + (max - n + 1)
    decreases max - n
  {
    var t := TryOnce(tape, b, a, SendFrame(f));
    ReceiveGrows(b.devices[a], f);
    if !Final(t, n, max) {
      SendCounts(tape, t.bus, log + [Attempt(a, SendFrame(f))], a, f, n + 1, max);
    }
  }

  // ----- One round ---------------------------------------------------------------------------

  /** An 8-bit record tells apart zero, one and more commands, up to 255 of them. */
  lemma RecordTellsCount(j: seq<Entry>, k: seq<Entry>, f: Frame)
    requires forall i | 0 <= i < |k| :: k[i].frame == f
    requires |k| <= 255
    ensures var outcome := AckClassify(RecordOf(j), RecordOf(j + k), f.opcode);
            && (outcome.NotAdvanced? <==> k == [] && j != [])
            && (outcome.SetApplied? <==> k == [Entry(f, Apply)])
            && (outcome.SetRefused? <==> |k| == 1 && k[0].verdict.Refuse?)
            && (outcome.SetRejected? <==> |k| == 1 && k[0].verdict.Reject?)
            && (outcome.Unknown? <==> |k| >= 2 || (k == [] && j == []))
            && !outcome.Mismatch?
            && (|k| == 1 ==> RecordOf(j + k).reason == ReasonByte(k[0].verdict))
  {
    if k == [] {
      assert j + k == j;
    } else {
      var last := (j + k)[|j + k| - 1];
      assert last == k[|k| - 1] && last.frame == f;
      if |k| == 1 {
        assert k == [Entry(f, last.verdict)];
      }
    }
  }

  /** One send counts its own frame and nothing else, at most once per attempt. */
  lemma SendCounted(env: Env, w: World, a: byte, f: Frame) returns (k: seq<Entry>)
    requires a in w.bus.devices && Consistent(w.bus.devices[a])
    ensures Counted(w, Perform(env, w, a, SendFrame(f)).world, a, f, k) && |k| <= MaxAttempts(env.retry)
  {
    var s := iset{(a, f)};
    var w' := Perform(env, w, a, SendFrame(f)).world;
    PerformMoves(env, w, a, SendFrame(f), s);
    SendCounts(env.tape, w.bus, w.log, a, f, 1, MaxAttempts(env.retry));
    var d, d' := w.bus.devices[a], w'.bus.devices[a];
    assert Grows(d, d', FramesTo(s, a));
    k := d'.journal[|d.journal|..];
    forall i | 0 <= i < |k| ensures k[i].frame == f {
      assert d'.journal[|d.journal| + i].frame in FramesTo(s, a);
    }
  }

  /**
   A round concludes "not advanced", the one conclusion after which the frame is sent again,
   exactly when the device counted nothing; every other conclusion names what it counted.
   */
  lemma RoundMeaning(env: Env, w: World, a: byte, f: Frame) returns (k: seq<Entry>)
    requires a in w.bus.devices && Consistent(w.bus.devices[a])
    requires env.retry <= MAX_SAFE_RETRIES
    ensures var j := w.bus.devices[a].journal;
            var (w', r) := RunRound(env, w, a, f, RecordOf(j));
            && Counted(w, w', a, f, k)
            && |k| <= MaxAttempts(env.retry)
            && (r.Concluded? ==>
                  && r == Concluded(AckClassify(RecordOf(j), RecordOf(j + k), f.opcode), RecordOf(j + k).reason)
                  && (Resends(r) <==> k == [] && j != []))
  {
    var sent := Perform(env, w, a, SendFrame(f)).world;
    k := SendCounted(env, w, a, f);
    ReadAckQuiet(env, sent, a);
    ReadAckTruth(env, sent, a, 0);
    RecordTellsCount(w.bus.devices[a].journal, k, f);
  }

  // ----- All rounds --------------------------------------------------------------------------

  /** What the answer says about the commands `k` counted since the baseline journal `j`. */
  predicate Explains(note: Note, j: seq<Entry>, k: seq<Entry>, f: Frame) {
    match note
    case Applied => k == [Entry(f, Apply)]
    case RefusedFor(reason) => k == [Entry(f, Refuse(reason))]
    case RejectedFor(reason) => k == [Entry(f, Reject(reason))]
    case NotCounted => k == [] && j != []
    case NotSent => k == []
    case CannotSay => |k| >= 2 || (k == [] && j == [])
    case AckLost => true
    case _ => false
  }

  /** `out` is how the loop ended: what was counted since `w`, and an answer that says so. */
  predicate Settles(w: World, out: (World, CallResult), a: byte, f: Frame, k: seq<Entry>, max: nat) {
    && Counted(w, out.0, a, f, k) && |k| <= max
    && (out.1.ok <==> out.1.note.Applied?) && !out.1.note.NotSent?
    && Explains(out.1.note, w.bus.devices[a].journal, k, f)
  }

  lemma AnswerSettles(w: World, w': World, r: Round, a: byte, f: Frame, k: seq<Entry>, max: nat)
    requires Counted(w, w', a, f, k) && |k| <= max <= 255
    requires var j := w.bus.devices[a].journal;
             r.Concluded? ==> r == Concluded(AckClassify(RecordOf(j), RecordOf(j + k), f.opcode), RecordOf(j + k).reason)
    ensures Settles(w, (w', Answer(r)), a, f, k, max)
  {
    RecordTellsCount(w.bus.devices[a].journal, k, f);
    if |k| == 1 {
      assert k == [Entry(f, k[0].verdict)];
    }
  }

  lemma SettlesLater(w: World, w': World, out: (World, CallResult), a: byte, f: Frame, k: seq<Entry>, max: nat)
    requires Counted(w, w', a, f, []) && Settles(w', out, a, f, k, max)
    ensures Settles(w, out, a, f, k, max)
  {
    assert w.bus.devices[a].journal + [] == w.bus.devices[a].journal;
  }

  /** A round from `w`, in terms of what the device counted in it. */
  ghost predicate Tells(w: World, out: (World, Round), a: byte, f: Frame, max: nat) {
    exists k ::
      && Counted(w, out.0, a, f, k) && |k| <= max
      && (Resends(out.1) ==> k == [])
      && var j := w.bus.devices[a].journal;
         out.1.Concluded? ==>
           out.1 == Concluded(AckClassify(RecordOf(j), RecordOf(j + k), f.opcode), RecordOf(j + k).reason)
  }

  /** Rounds from the baseline `before` tell what was counted. */
  ghost predicate Truthful(round: World -> (World, Round), a: byte, f: Frame, before: AckRecord, max: nat) {
    forall w: World | a in w.bus.devices && Consistent(w.bus.devices[a]) && w.bus.devices[a].ack == before ::
      Tells(w, round(w), a, f, max)
  }

  lemma {:induction false} RepeatMeaning(
    round: World -> (World, Round), w: World, a: byte, f: Frame, sent: nat, max: nat) returns (k: seq<Entry>)
    requires a in w.bus.devices && Consistent(w.bus.devices[a]) && max <= 255
    requires Truthful(round, a, f, w.bus.devices[a].ack, max)
    ensures Settles(w, Repeat(round, w, sent), a, f, k, max)
    decreases CONFIRMED_SENDS - sent
  {
    var (w', r) := round(w);
    var j := w.bus.devices[a].journal;
    assert Tells(w, (w', r), a, f, max);
    k :| && Counted(w, w', a, f, k) && |k| <= max
         && (Resends(r) ==> k == [])
         && (r.Concluded? ==>
               r == Concluded(AckClassify(RecordOf(j), RecordOf(j + k), f.opcode), RecordOf(j + k).reason));
    if Resends(r) && sent < CONFIRMED_SENDS {
      assert j + [] == j;
      k := RepeatMeaning(round, w', a, f, sent + 1, max);
      SettlesLater(w, w', Repeat(round, w', sent + 1), a, f, k, max);
    } else {
      AnswerSettles(w, w', r, a, f, k, max);
    }
  }

  lemma RoundsMeaning(env: Env, w: World, a: byte, f: Frame) returns (k: seq<Entry>)
    requires a in w.bus.devices && Consistent(w.bus.devices[a])
    requires env.retry <= MAX_SAFE_RETRIES
    ensures Settles(w, Rounds(env, w, a, f, w.bus.devices[a].ack, 1), a, f, k, MaxAttempts(env.retry))
  {
    var before, max := w.bus.devices[a].ack, MaxAttempts(env.retry);
    var round := RoundOf(env, a, f, before);
    forall x: World | a in x.bus.devices && Consistent(x.bus.devices[a]) && x.bus.devices[a].ack == before
      ensures Tells(x, round(x), a, f, max)
    {
      var _ := RoundMeaning(env, x, a, f);
    }
    k := RepeatMeaning(round, w, a, f, 1, max);
  }

  /**
   The meaning of a confirmed SET. Whatever the answer, only this frame was counted, at most one
   send's worth of it, so a frame is sent again only while the device has counted none. OK means
   applied exactly once; a refusal or rejection means counted once and not acted on; "not counted"
   means nothing was; "not sent" means no frame was even tried.
   */
  lemma ConfirmedSetMeaning(env: Env, w: World, d: InventoryDevice, f: Frame) returns (k: seq<Entry>)
    requires d.address in w.bus.devices && Consistent(w.bus.devices[d.address])
    requires env.retry <= MAX_SAFE_RETRIES
    requires !Confirmation(d).Unconfirmed?
    ensures var (w', r) := TransmitConfirmed(env, w, d, f);
            && Accounts(w, w', d.address, f, k)
            && |k| <= MaxAttempts(env.retry)
            && (r.ok <==> r.note.Applied?)
            && Explains(r.note, w.bus.devices[d.address].journal, k, f)
            && (r.note.NotSent? ==> !SendsAfter(w'.log, |w.log|))
  {
    var a := d.address;
    var (w1, before) := ReadAck(env, w, a, 0);
    SetConfirm.TransmitMoves(env, w, d, f, iset{(a, f)});
    ReadAckQuiet(env, w, a);
    ReadAckTruth(env, w, a, 0);
    k := [];
    assert w.bus.devices[a].journal + [] == w.bus.devices[a].journal;
    if before.Some? {
      k := RoundsMeaning(env, w1, a, f);
    }
  }

  /** With no device at the address the baseline fails and no frame is sent, by any attempt. */
  lemma NoDeviceNothingSent(env: Env, w: World, d: InventoryDevice, f: Frame)
    requires d.address !in w.bus.devices && !Confirmation(d).Unconfirmed?
    ensures var (w', r) := TransmitConfirmed(env, w, d, f);
            r == CallResult(false, AdppUnavailable, NotSent) && !SendsAfter(w'.log, |w.log|)
  {
    ReadAckTruth(env, w, d.address, 0);
    ReadAckMoves(env, w, d.address, 0, iset{});
  }
}
