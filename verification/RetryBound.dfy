/**
 The other half of exactly-once. With 255 or more session retries the 8-bit counter can come
 back to its baseline inside one send, and an OK can stand for 257 applications. And on a clean
 link the confirm loop reports what the device did, after at most three sends.
 */
module RetryBound {
  import opened Bytes
  import opened Protocol
  import opened CannedDevice
  import opened SessionModel
  import opened Capabilities
  import opened SetConfirm
  import opened ExactlyOnce
  import opened AdapterHelpers
  import RlhtAdapter

  /** If this confirmed SET answers OK, the device counted the frame once more, applied. */
  predicate OkIsOnce(env: Env, w: World, d: InventoryDevice, f: Frame) {
    var (w', r) := TransmitConfirmed(env, w, d, f);
    var a := d.address;
    r.ok && !Confirmation(d).Unconfirmed? && a in w.bus.devices && Consistent(w.bus.devices[a]) ==>
      a in w'.bus.devices && w'.bus.devices[a].journal == w.bus.devices[a].journal + [Entry(f, Apply)]
  }

  ghost predicate OkMeansOnce(retry: int) {
    forall tape: seq<Link>, w: World, d: InventoryDevice, f: Frame :: OkIsOnce(Env(tape, retry), w, d, f)
  }

  // ----- A clean stretch of link -------------------------------------------------------------

  /** A device with no failing acknowledgement reads queued. */
  predicate Readable(d: Device) {
    d.ackSkip == 0 && d.ackFailures == 0 && Consistent(d)
  }

  /** A device that acts on the next command frame. */
  predicate Obedient(d: Device) {
    d.drops == 0 && d.outcomes == [] && Readable(d)
  }

  predicate Online(w: World, a: byte) {
    w.open && ValidAddress(a) && a in w.bus.devices && Readable(w.bus.devices[a])
  }

  ghost predicate CleanFrom(env: Env, tick: nat) {
    forall t: nat | t >= tick :: At(env.tape, t) == CLEAN
  }

  lemma CleanReadAck(env: Env, w: World, a: byte)
    requires Online(w, a)
    requires At(env.tape, w.bus.tick) == CLEAN && At(env.tape, w.bus.tick + 1) == CLEAN
    ensures var (w', r) := ReadAck(env, w, a, 0);
            var d := w.bus.devices[a];
            && r == Some(d.ack)
            && Online(w', a)
            && w'.bus.tick == w.bus.tick + 2
            && w'.bus.devices[a] == d.(pending := Some(OP_GET_ACK))
  {
    var d := w.bus.devices[a];
    var b1 := SendOnce(env.tape, w.bus, a, QueryFrame(OP_GET_ACK)).bus;
    assert b1.devices[a] == d.(pending := Some(OP_GET_ACK));
    var t := ReadOnce(env.tape, b1, a);
    assert t.code.CodeOk? && AckDecode(t.reply.value) == Some(d.ack);
    assert TryOnce(env.tape, w.bus, a, QueryFor(OP_GET_ACK)) == t;
    assert Final(t, 1, MaxAttempts(env.retry));
  }

  lemma CleanSend(env: Env, w: World, a: byte, f: Frame)
    requires Online(w, a) && |f.payload| <= MAX_PAYLOAD
    requires At(env.tape, w.bus.tick) == CLEAN
    ensures var w' := Perform(env, w, a, SendFrame(f)).world;
            && Online(w', a)
            && w'.bus == Bus(w.bus.devices[a := Receive(w.bus.devices[a], f)], w.bus.tick + 1)
  {
    ReceiveGrows(w.bus.devices[a], f);
    var t := TryOnce(env.tape, w.bus, a, SendFrame(f));
    assert Final(t, 1, MaxAttempts(env.retry));
  }

  lemma CleanRound(env: Env, w: World, a: byte, f: Frame, before: AckRecord)
    requires Online(w, a) && |f.payload| <= MAX_PAYLOAD
    requires CleanFrom(env, w.bus.tick)
    ensures var (w', r) := RunRound(env, w, a, f, before);
            var d := Receive(w.bus.devices[a], f);
            && Online(w', a)
            && w'.bus.tick == w.bus.tick + 3
            && w'.bus.devices[a] == d.(pending := Some(OP_GET_ACK))
            && r == Concluded(AckClassify(before, d.ack, f.opcode), d.ack.reason)
  {
    CleanSend(env, w, a, f);
    CleanReadAck(env, Perform(env, w, a, SendFrame(f)).world, a);
  }

  // ----- Answers on a clean link -------------------------------------------------------------

  /** What the device does with its next command frame, behind the frames it will lose. */
  function NextVerdict(d: Device): Verdict {
    if d.outcomes == [] then Apply else d.outcomes[0]
  }

  function VerdictAnswer(v: Verdict): CallResult {
    match v
    case Apply => CallResult(true, AdppOk, Applied)
    case Refuse(reason) => CallResult(false, RefusalCode(reason), RefusedFor(reason))
    case Reject(reason) => CallResult(false, AdppInternal, RejectedFor(reason))
  }

  /** A round whose frame the device loses. */
  lemma LostRound(env: Env, w: World, a: byte, f: Frame)
    requires Online(w, a) && IsCommand(f) && |f.payload| <= MAX_PAYLOAD && CleanFrom(env, w.bus.tick)
    requires w.bus.devices[a].journal != [] && w.bus.devices[a].drops > 0
    ensures var d := w.bus.devices[a];
            var (w', r) := RunRound(env, w, a, f, RecordOf(d.journal));
            && Online(w', a) && w'.bus.tick >= w.bus.tick
            && Resends(r) && Answer(r) == CallResult(false, AdppUnavailable, NotCounted)
            && var d' := w'.bus.devices[a];
               d'.journal == d.journal && d'.drops == d.drops - 1 && d'.outcomes == d.outcomes
  {
    CleanRound(env, w, a, f, RecordOf(w.bus.devices[a].journal));
    assert Receive(w.bus.devices[a], f).ack == RecordOf(w.bus.devices[a].journal);
  }

  /** A device that has counted nothing has no record to compare: a lost frame cannot be told. */
  lemma LostFirstRound(env: Env, w: World, a: byte, f: Frame)
    requires Online(w, a) && IsCommand(f) && |f.payload| <= MAX_PAYLOAD && CleanFrom(env, w.bus.tick)
    requires w.bus.devices[a].journal == [] && w.bus.devices[a].drops > 0
    ensures var (w', r) := RunRound(env, w, a, f, RecordOf([]));
            && Online(w', a) && w'.bus.tick >= w.bus.tick
            && !Resends(r) && Answer(r) == CallResult(false, AdppUnavailable, CannotSay)
            && w'.bus.devices[a].journal == []
  {
    CleanRound(env, w, a, f, RecordOf([]));
    assert Receive(w.bus.devices[a], f).ack == RecordOf([]);
  }

  /** A round whose frame the device counts. */
  lemma CountedRound(env: Env, w: World, a: byte, f: Frame)
    requires Online(w, a) && IsCommand(f) && |f.payload| <= MAX_PAYLOAD && CleanFrom(env, w.bus.tick)
    requires w.bus.devices[a].drops == 0
    ensures var d := w.bus.devices[a];
            var (w', r) := RunRound(env, w, a, f, RecordOf(d.journal));
            && Online(w', a) && w'.bus.tick >= w.bus.tick
            && !Resends(r) && Answer(r) == VerdictAnswer(NextVerdict(d))
            && w'.bus.devices[a].journal == d.journal + [Entry(f, NextVerdict(d))]
            && (Obedient(d) ==> Obedient(w'.bus.devices[a]))
  {
    var d := w.bus.devices[a];
    var k := [Entry(f, NextVerdict(d))];
    CleanRound(env, w, a, f, RecordOf(d.journal));
    ReceiveGrows(d, f);
    assert Receive(d, f).ack == RecordOf(d.journal + k);
    RecordTellsCount(d.journal, k, f);
  }

  /** A world in which the rounds of one confirmed SET are clean. */
  ghost predicate Clean(env: Env, w: World, a: byte, before: AckRecord) {
    Online(w, a) && CleanFrom(env, w.bus.tick) && w.bus.devices[a].ack == before
  }

  const NOT_COUNTED: CallResult := CallResult(false, AdppUnavailable, NotCounted)
  const CANNOT_SAY: CallResult := CallResult(false, AdppUnavailable, CannotSay)

  /** The device holds a record, or the next frame reaches it. */
  predicate Tellable(d: Device) {
    d.journal != [] || d.drops == 0
  }

  /** One round on a clean link: lost frames are sent again where that can be told, a counted one is answered. */
  ghost predicate Plain(env: Env, w: World, out: (World, Round), a: byte, f: Frame, before: AckRecord) {
    && Online(w, a) && Online(out.0, a) && CleanFrom(env, out.0.bus.tick)
    && (Obedient(w.bus.devices[a]) ==> Obedient(out.0.bus.devices[a]))
    && var d, d' := w.bus.devices[a], out.0.bus.devices[a];
       if d.drops == 0 then
         && !Resends(out.1) && Answer(out.1) == VerdictAnswer(NextVerdict(d))
         && d'.journal == d.journal + [Entry(f, NextVerdict(d))]
       else if d.journal == [] then
         !Resends(out.1) && Answer(out.1) == CANNOT_SAY && d'.journal == []
       else
         && d'.ack == before && Resends(out.1) && Answer(out.1) == NOT_COUNTED
         && d'.journal == d.journal && d'.drops == d.drops - 1 && d'.outcomes == d.outcomes
  }

  /** What the confirm loop concludes on a clean link. */
  predicate Concludes(d: Device, d': Device, r: CallResult, f: Frame, sent: nat) {
    && (Obedient(d) ==> Obedient(d'))
    && if !Tellable(d) then r == CANNOT_SAY && d'.journal == []
       else if d.drops + sent > 3 then r == NOT_COUNTED && d'.journal == d.journal
       else r == VerdictAnswer(NextVerdict(d)) && d'.journal == d.journal + [Entry(f, NextVerdict(d))]
  }

  lemma {:induction false} RepeatClean(
    env: Env, round: World -> (World, Round), w: World, a: byte, f: Frame, before: AckRecord, sent: nat)
    requires Clean(env, w, a, before) && 1 <= sent <= CONFIRMED_SENDS
    requires forall x: World | Clean(env, x, a, before) :: Plain(env, x, round(x), a, f, before)
    ensures var (w', r) := Repeat(round, w, sent);
            && Online(w', a) && CleanFrom(env, w'.bus.tick)
            && Concludes(w.bus.devices[a], w'.bus.devices[a], r, f, sent)
    decreases CONFIRMED_SENDS - sent
  {
    var (w', r) := round(w);
    assert Plain(env, w, (w', r), a, f, before);
    if w.bus.devices[a].drops > 0 && w.bus.devices[a].journal != [] && sent < CONFIRMED_SENDS {
      RepeatClean(env, round, w', a, f, before, sent + 1);
    }
  }

  lemma CleanRoundIsPlain(env: Env, w: World, a: byte, f: Frame)
    requires a in w.bus.devices && Clean(env, w, a, w.bus.devices[a].ack)
    requires IsCommand(f) && |f.payload| <= MAX_PAYLOAD
    ensures var before := w.bus.devices[a].ack;
            Plain(env, w, RunRound(env, w, a, f, before), a, f, before)
  {
    if w.bus.devices[a].drops == 0 {
      CountedRound(env, w, a, f);
    } else if w.bus.devices[a].journal == [] {
      LostFirstRound(env, w, a, f);
    } else {
      LostRound(env, w, a, f);
    }
  }

  lemma CleanRounds(env: Env, w: World, a: byte, f: Frame, sent: nat)
    requires a in w.bus.devices && Clean(env, w, a, w.bus.devices[a].ack) && 1 <= sent <= CONFIRMED_SENDS
    requires IsCommand(f) && |f.payload| <= MAX_PAYLOAD
    ensures var d := w.bus.devices[a];
            var (w', r) := Rounds(env, w, a, f, d.ack, sent);
            && Online(w', a) && CleanFrom(env, w'.bus.tick)
            && Concludes(d, w'.bus.devices[a], r, f, sent)
  {
    var before := w.bus.devices[a].ack;
    var round := RoundOf(env, a, f, before);
    forall x: World | Clean(env, x, a, before) ensures Plain(env, x, round(x), a, f, before) {
      CleanRoundIsPlain(env, x, a, f);
    }
    RepeatClean(env, round, w, a, f, before, sent);
  }

  /**
   On a clean link a confirmed SET is answered with what the device does with the frame, as long as
   it loses at most two frames first; from three on, "not counted". A device that has counted no
   command yet has no record to compare: if it loses the first frame the answer is "cannot say" and
   the frame is not sent again.
   */
  lemma CleanLinkAnswer(env: Env, w: World, d: InventoryDevice, f: Frame)
    requires Online(w, d.address) && IsCommand(f) && |f.payload| <= MAX_PAYLOAD
    requires CleanFrom(env, w.bus.tick) && !Confirmation(d).Unconfirmed?
    ensures var a := d.address;
            var (w', r) := TransmitConfirmed(env, w, d, f);
            && Online(w', a) && CleanFrom(env, w'.bus.tick)
            && Concludes(w.bus.devices[a], w'.bus.devices[a], r, f, 1)
  {
    CleanReadAck(env, w, d.address);
    CleanRounds(env, ReadAck(env, w, d.address, 0).0, d.address, f, 1);
  }

  // ----- The counter wraps -------------------------------------------------------------------

  const UNLUCKY: Link := Link(true, WriteFailed, 0)
  const HUNG: Link := Link(true, WriteFailed, ETIMEDOUT)

  /** A clean baseline, then 256 writes that arrive and report failure, the last as a bus timeout. */
  predicate Floods(tape: seq<Link>) {
    && |tape| == 258 && tape[0] == tape[1] == CLEAN && tape[257] == HUNG
    && forall i | 2 <= i < 257 :: tape[i] == UNLUCKY
  }

  lemma ObedientReceives(d: Device, f: Frame)
    requires Obedient(d) && IsCommand(f)
    ensures Obedient(Receive(d, f)) && Receive(d, f).journal == d.journal + [Entry(f, Apply)]
  {
    ReceiveGrows(d, f);
  }

  lemma {:induction false} FloodedSend(tape: seq<Link>, b: Bus, log: seq<Attempt>, a: byte, f: Frame, n: nat, max: nat)
    requires Floods(tape) && 1 <= n <= 256 <= max && b.tick == n + 1
    requires a in b.devices && Obedient(b.devices[a]) && IsCommand(f)
    ensures var r := Attempts(tape, b, log, a, SendFrame(f), n, max);
            && r.bus.tick == 258
            && a in r.bus.devices && Obedient(r.bus.devices[a])
            && var j := r.bus.devices[a].journal;
               |j| == |b.devices[a].journal| + 257 - n && j[|j| - 1] == Entry(f, Apply)
    decreases max - n
  {
    ObedientReceives(b.devices[a], f);
    var t := TryOnce(tape, b, a, SendFrame(f));
    if n < 256 {
      assert At(tape, b.tick) == UNLUCKY;
      FloodedSend(tape, t.bus, log + [Attempt(a, SendFrame(f))], a, f, n + 1, max);
    }
  }

  lemma RecordWraps(j: seq<Entry>, j': seq<Entry>)
    requires j != [] && |j'| == |j| + 256 && j'[|j'| - 1] == j[|j| - 1]
    ensures RecordOf(j') == RecordOf(j)
  {
  }

  /** The first send counts 256 commands. */
  lemma FloodedPerform(env: Env, w: World, a: byte, f: Frame)
    requires Floods(env.tape) && env.retry > MAX_SAFE_RETRIES
    requires Online(w, a) && w.bus.tick == 2 && Obedient(w.bus.devices[a])
    requires IsCommand(f) && |f.payload| <= MAX_PAYLOAD
    requires var j := w.bus.devices[a].journal; j != [] && j[|j| - 1] == Entry(f, Apply)
    ensures var w' := Perform(env, w, a, SendFrame(f)).world;
            && Online(w', a) && w'.bus.tick == 258 && Obedient(w'.bus.devices[a])
            && |w'.bus.devices[a].journal| == |w.bus.devices[a].journal| + 256
            && w'.bus.devices[a].ack == w.bus.devices[a].ack
  {
    FloodedSend(env.tape, w.bus, w.log, a, f, 1, MaxAttempts(env.retry));
    RecordWraps(w.bus.devices[a].journal, Perform(env, w, a, SendFrame(f)).world.bus.devices[a].journal);
  }

  /** Read back, those 256 commands look like none. */
  lemma FloodedRound(env: Env, w: World, a: byte, f: Frame)
    requires Floods(env.tape) && env.retry > MAX_SAFE_RETRIES
    requires Online(w, a) && w.bus.tick == 2 && Obedient(w.bus.devices[a])
    requires IsCommand(f) && |f.payload| <= MAX_PAYLOAD
    requires var j := w.bus.devices[a].journal; j != [] && j[|j| - 1] == Entry(f, Apply)
    ensures var (w', r) := RunRound(env, w, a, f, RecordOf(w.bus.devices[a].journal));
            && Resends(r)
            && Online(w', a) && w'.bus.tick == 260 && Obedient(w'.bus.devices[a])
            && w'.bus.devices[a].ack == w.bus.devices[a].ack
            && |w'.bus.devices[a].journal| == |w.bus.devices[a].journal| + 256
  {
    FloodedPerform(env, w, a, f);
    CleanReadAck(env, Perform(env, w, a, SendFrame(f)).world, a);
  }

  /** The second send is applied and answers OK: 257 applications in all. */
  lemma FloodedRounds(env: Env, w: World, a: byte, f: Frame)
    requires Floods(env.tape) && env.retry > MAX_SAFE_RETRIES
    requires Online(w, a) && w.bus.tick == 2 && Obedient(w.bus.devices[a])
    requires IsCommand(f) && |f.payload| <= MAX_PAYLOAD
    requires var j := w.bus.devices[a].journal; j != [] && j[|j| - 1] == Entry(f, Apply)
    ensures var (w', r) := Rounds(env, w, a, f, RecordOf(w.bus.devices[a].journal), 1);
            && r == CallResult(true, AdppOk, Applied)
            && Online(w', a)
            && |w'.bus.devices[a].journal| == |w.bus.devices[a].journal| + 257
  {
    var before := RecordOf(w.bus.devices[a].journal);
    FloodedRound(env, w, a, f);
    var (w', r) := RunRound(env, w, a, f, before);
    assert w'.bus.devices[a].ack == before;
    CleanRounds(env, w', a, f, 2);
  }

  lemma FloodedTransmit(env: Env, w: World, d: InventoryDevice, f: Frame)
    requires Floods(env.tape) && env.retry > MAX_SAFE_RETRIES && !Confirmation(d).Unconfirmed?
    requires Online(w, d.address) && w.bus.tick == 0 && Obedient(w.bus.devices[d.address])
    requires IsCommand(f) && |f.payload| <= MAX_PAYLOAD
    requires var j := w.bus.devices[d.address].journal; j != [] && j[|j| - 1] == Entry(f, Apply)
    ensures var (w', r) := TransmitConfirmed(env, w, d, f);
            && r == CallResult(true, AdppOk, Applied)
            && Online(w', d.address)
            && |w'.bus.devices[d.address].journal| == |w.bus.devices[d.address].journal| + 257
  {
    CleanReadAck(env, w, d.address);
    FloodedRounds(env, ReadAck(env, w, d.address, 0).0, d.address, f);
  }

  /** With 255 or more retries there is a fault pattern under which an ordinary call is applied 257 times. */
  lemma FloodedExample(retry: int) returns (tape: seq<Link>, w: World, d: InventoryDevice, args: Args, f: Frame)
    requires retry > MAX_SAFE_RETRIES
    ensures RlhtAdapter.Encode(1, args) == Encoded(f)
    ensures d.address in w.bus.devices && Consistent(w.bus.devices[d.address]) && !Confirmation(d).Unconfirmed?
    ensures var (w', r) := TransmitConfirmed(Env(tape, retry), w, d, f);
            && r == CallResult(true, AdppOk, Applied)
            && d.address in w'.bus.devices
            && |w'.bus.devices[d.address].journal| == |w.bus.devices[d.address].journal| + 257
  {
    tape := [CLEAN, CLEAN] + seq(255, _ => UNLUCKY) + [HUNG];
    var a: byte := MIN_ADDRESS;
    args := map["mode" := StringV("open_loop")];
    f := Frame(RLHT_TYPE_ID, RLHT_OP_SET_MODE, [RLHT_MODE_OPEN_LOOP]);
    var j := [Entry(f, Apply)];
    w := World(Bus(map[a := CannedDevice.Seeded(RLHT_TYPE_ID).(journal := j, ack := RecordOf(j))], 0),
               [], EMPTY_BOOK, true);
    d := InventoryDevice("rlht0", "", Rlht, a, Discovered, false, ModuleVersion(ACK_MIN_VERSION, 1, 0, 0),
                         Profile(1, 1, {}, Queried), {}, 0, true);
    FloodedTransmit(Env(tape, retry), w, d, f);
  }

  /** OK means applied exactly once, under every fault pattern, if and only if `retry_count <= 254`. */
  lemma OkMeansOnceIff(retry: int)
    ensures OkMeansOnce(retry) <==> retry <= MAX_SAFE_RETRIES
  {
    if retry <= MAX_SAFE_RETRIES {
      forall tape: seq<Link>, w: World, d: InventoryDevice, f: Frame
        ensures OkIsOnce(Env(tape, retry), w, d, f)
      {
        if !Confirmation(d).Unconfirmed? && d.address in w.bus.devices && Consistent(w.bus.devices[d.address]) {
          var k := ConfirmedSetMeaning(Env(tape, retry), w, d, f);
        }
      }
    } else {
      var tape, w, d, args, f := FloodedExample(retry);
      assert !OkIsOnce(Env(tape, retry), w, d, f);
    }
  }
}
