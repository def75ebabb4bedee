/**
 The canned CRUMBS device: a command counter that wraps at 256, an acknowledgement record,
 injected faults, and the outputs that applied commands change.

 `journal` is an observation of the model: every command frame the device counted, with what
 the device did with it. The acknowledgement record is a function of the journal
 (`Consistent`), and so are the outputs (`Replay`).
 */
module CannedDevice {
  import opened Bytes
  import opened Protocol

  /** What the device does with a command frame that arrives. */
  datatype Verdict = Apply | Refuse(reason: byte) | Reject(reason: byte)

  const ACK_NONE: byte := 0
  const ACK_APPLIED: byte := 1
  const ACK_REFUSED: byte := 2
  const ACK_REJECTED: byte := 3

  datatype AckRecord = AckRecord(counter: byte, opcode: byte, status: byte, reason: byte)

  datatype Entry = Entry(frame: Frame, verdict: Verdict)

  /** What GET_STATE and GET_WATCHDOG report. The canned device never changes `brakes`. */
  datatype Outputs = Outputs(
    dcmtMode: byte, pwm1: int16, pwm2: int16, brakes: byte,
    rlhtMode: byte, sp1: int16, sp2: int16,
    on1: uint16, on2: uint16, period1: uint16, period2: uint16, tc1: byte, tc2: byte,
    wdTimeout: uint16, wdTripped: bool, wdTrips: byte)

  datatype Device = Device(
    typeId: byte,
    pending: Option<byte>,
    ack: AckRecord,
    outcomes: seq<Verdict>,
    drops: nat,
    ackSkip: nat,
    ackFailures: nat,
    writes: map<byte, nat>,
    out: Outputs,
    journal: seq<Entry>)

  /** A seeded device: outputs on, no acknowledgement record, no injected fault. */
  function Seeded(typeId: byte): (d: Device)
    ensures Consistent(d)
  {
    Device(typeId, None, AckRecord(0, 0, ACK_NONE, 0), [], 0, 0, 0, map[],
           Outputs(DCMT_MODE_OPEN_LOOP, 100, -100, 0,
                   RLHT_MODE_OPEN_LOOP, 300, 300, 500, 0, 1000, 1000, 1, 2, 0, false, 0), [])
  }

  function StatusByte(v: Verdict): byte {
    match v
    case Apply => ACK_APPLIED
    case Refuse(_) => ACK_REFUSED
    case Reject(_) => ACK_REJECTED
  }

  function ReasonByte(v: Verdict): byte {
    match v
    case Apply => 0
    case Refuse(r) => r
    case Reject(r) => r
  }

  /** The acknowledgement record after the commands in `j`. */
  function RecordOf(j: seq<Entry>): AckRecord {
    if j == [] then AckRecord(0, 0, ACK_NONE, 0)
    else
      var last := j[|j| - 1];
      AckRecord(|j| % 0x100, last.frame.opcode, StatusByte(last.verdict), ReasonByte(last.verdict))
  }

  predicate Consistent(d: Device) {
    d.ack == RecordOf(d.journal)
  }

  /** What an applied command does to the outputs. Commands not listed are accepted only. */
  function Act(typeId: byte, o: Outputs, f: Frame): Outputs {
    var p := f.payload;
    if typeId == DCMT_TYPE_ID && f.opcode == DCMT_OP_SET_OPEN_LOOP && |p| >= 4 then
      o.(pwm1 := ReadI16(p, 0).value, pwm2 := ReadI16(p, 2).value)
    else if typeId == DCMT_TYPE_ID && f.opcode == DCMT_OP_SET_MODE && |p| >= 1 then
      o.(dcmtMode := p[0])
    else if typeId == RLHT_TYPE_ID && f.opcode == RLHT_OP_SET_MODE && |p| >= 1 then
      o.(rlhtMode := p[0])
    else if typeId == RLHT_TYPE_ID && f.opcode == RLHT_OP_SET_SETPOINTS && |p| >= 4 then
      o.(sp1 := ReadI16(p, 0).value, sp2 := ReadI16(p, 2).value)
    else if typeId == RLHT_TYPE_ID && f.opcode == RLHT_OP_SET_OPEN_DUTY && |p| >= 2 then
      o.(on1 := o.period1 * p[0] / 100 % 0x1_0000, on2 := o.period2 * p[1] / 100 % 0x1_0000)
    else if typeId == RLHT_TYPE_ID && f.opcode == RLHT_OP_SET_TC_SELECT && |p| >= 2 then
      o.(tc1 := p[0], tc2 := p[1])
    else if f.opcode == OP_SET_WATCHDOG && |p| >= 2 then
      o.(wdTimeout := ReadU16(p, 0).value)
    else if f.opcode == OP_CLEAR_WATCHDOG_TRIP && |p| == 0 then
      o.(wdTripped := false)
    else
      o
  }

  /** The outputs after the applied commands of `j`, in order. */
  function Replay(typeId: byte, o: Outputs, j: seq<Entry>): Outputs {
    if j == [] then o
    else
      var last := j[|j| - 1];
      var before := Replay(typeId, o, j[..|j| - 1]);
      if last.verdict.Apply? then Act(typeId, before, last.frame) else before
  }

  lemma {:induction false} ReplayConcat(typeId: byte, o: Outputs, i: seq<Entry>, j: seq<Entry>)
    ensures Replay(typeId, o, i + j) == Replay(typeId, Replay(typeId, o, i), j)
  {
    if j == [] {
      assert i + j == i;
    } else {
      ReplayConcat(typeId, o, i, j[..|j| - 1]);
      assert (i + j)[..|i + j| - 1] == i + j[..|j| - 1];
    }
  }

  /** Count a command frame for GET_ACK; the counter moves last. */
  function Count(d: Device, f: Frame, v: Verdict): Device {
    d.(ack := AckRecord((d.ack.counter + 1) % 0x100, f.opcode, StatusByte(v), ReasonByte(v)),
       outcomes := if d.outcomes == [] then [] else d.outcomes[1..],
       journal := d.journal + [Entry(f, v)])
  }

  /** One write that reaches the device. */
  function Receive(d: Device, f: Frame): Device {
    if !IsCommand(f) then
      d.(pending := Some(f.payload[0]))
    else
      var d := d.(writes := d.writes[f.opcode := 1 + if f.opcode in d.writes then d.writes[f.opcode] else 0]);
      if d.drops > 0 then
        d.(drops := d.drops - 1)
      else
        var v := if d.outcomes == [] then Apply else d.outcomes[0];
        var c := Count(d, f, v);
        if v.Apply? then c.(out := Act(d.typeId, d.out, f)) else c
  }

  function Flag(b: bool, weight: nat): nat { if b then weight else 0 }

  function RlhtStatePayload(o: Outputs): seq<byte> {
    [o.rlhtMode, Flag(o.on1 > 0, 1) + Flag(o.on2 > 0, 2)]
    + I16Le(250) + I16Le(255) + I16Le(o.sp1) + I16Le(o.sp2)
    + U16Le(o.on1) + U16Le(o.on2) + U16Le(o.period1) + U16Le(o.period2)
    + [o.tc1 % 4 + 4 * (o.tc2 % 4)]
  }

  function DcmtStatePayload(o: Outputs): seq<byte> {
    [o.dcmtMode] + I16Le(o.pwm1) + I16Le(o.pwm2) + I16Le(INVALID_I16) + I16Le(INVALID_I16)
    + I16Le(0) + I16Le(0) + I16Le(INVALID_I16) + I16Le(INVALID_I16) + [o.brakes, 0, 0]
  }

  function WatchdogPayload(o: Outputs): seq<byte> {
    [Flag(o.wdTimeout != 0, 1)] + U16Le(o.wdTimeout) + [Flag(o.wdTripped, 1), o.wdTrips]
  }

  /** One read of the device: the reply to the staged query, built from the state it holds now. */
  function Emit(d: Device): (Device, Option<Frame>) {
    match d.pending
    case None => (d, None)
    case Some(op) =>
      if d.typeId == RLHT_TYPE_ID && op == RLHT_OP_GET_STATE then
        (d, Some(Frame(d.typeId, op, RlhtStatePayload(d.out))))
      else if d.typeId == DCMT_TYPE_ID && op == DCMT_OP_GET_STATE then
        (d, Some(Frame(d.typeId, op, DcmtStatePayload(d.out))))
      else if op == OP_GET_WATCHDOG then
        (d, Some(Frame(d.typeId, op, WatchdogPayload(d.out))))
      else if op == OP_GET_ACK then
        var reply := Some(Frame(d.typeId, op, [d.ack.counter, d.ack.opcode, d.ack.status, d.ack.reason]));
        if d.ackSkip > 0 then (d.(ackSkip := d.ackSkip - 1), reply)
        else if d.ackFailures > 0 then (d.(ackFailures := d.ackFailures - 1), None)
        else (d, reply)
      else
        (d, None)
  }

  /** The watchdog of a device expires: the trip latches. */
  function Tripped(d: Device): Device {
    d.(out := d.out.(wdTripped := true, wdTrips := (d.out.wdTrips + 1) % 0x100))
  }

  /**
   What a stretch of bus traffic may do to a device: its journal grows by commands drawn from
   `frames`, its outputs are what those commands make of them, and the record stays true.
   */
  ghost predicate Grows(d: Device, d': Device, frames: iset<Frame>) {
    && d'.typeId == d.typeId
    && d.journal <= d'.journal
    && (forall i | |d.journal| <= i < |d'.journal| :: d'.journal[i].frame in frames)
    && d'.out == Replay(d.typeId, d.out, d'.journal[|d.journal|..])
    && (Consistent(d) ==> Consistent(d'))
  }

  lemma GrowsRefl(d: Device, frames: iset<Frame>)
    ensures Grows(d, d, frames)
  {
    assert d.journal[|d.journal|..] == [];
  }

  lemma GrowsTrans(d: Device, d1: Device, d2: Device, f1: iset<Frame>, f2: iset<Frame>)
    requires Grows(d, d1, f1) && Grows(d1, d2, f2)
    ensures Grows(d, d2, f1 + f2)
  {
    var i, j := d1.journal[|d.journal|..], d2.journal[|d1.journal|..];
    ReplayConcat(d.typeId, d.out, i, j);
    assert d2.journal[|d.journal|..] == i + j;
  }

  /** Every write keeps the record true; a query changes nothing a reader can see. */
  lemma ReceiveGrows(d: Device, f: Frame)
    ensures Grows(d, Receive(d, f), iset{f})
    ensures !IsCommand(f) ==> Receive(d, f).journal == d.journal && Receive(d, f).out == d.out
    ensures |Receive(d, f).journal| <= |d.journal| + 1
  {
    GrowsRefl(d, iset{f});
    var d' := Receive(d, f);
    if |d'.journal| > |d.journal| {
      var e := d'.journal[|d.journal|];
      assert d'.journal[|d.journal|..] == [e];
      assert Replay(d.typeId, d.out, [e][..0]) == d.out;
    } else {
      assert d'.journal[|d.journal|..] == [];
    }
  }

  function WritesOf(d: Device, opcode: byte): nat {
    if opcode in d.writes then d.writes[opcode] else 0
  }

  /** Every command frame that arrives is counted under its opcode, lost or not; a staged query is not. */
  lemma ReceiveCountsWrites(d: Device, f: Frame, opcode: byte)
    ensures WritesOf(Receive(d, f), opcode)
            == WritesOf(d, opcode) + if IsCommand(f) && f.opcode == opcode then 1 else 0
  {
  }

  lemma EmitGrows(d: Device)
    ensures Grows(d, Emit(d).0, iset{})
    ensures Emit(d).0 == d.(ackSkip := Emit(d).0.ackSkip, ackFailures := Emit(d).0.ackFailures)
  {
    GrowsRefl(d, iset{});
  }

  /** A query the device answers: its own state, its watchdog, or the acknowledgement. */
  predicate Answers(d: Device, op: byte) {
    || op == OP_GET_WATCHDOG || op == OP_GET_ACK
    || (d.typeId == RLHT_TYPE_ID && op == RLHT_OP_GET_STATE)
    || (d.typeId == DCMT_TYPE_ID && op == DCMT_OP_GET_STATE)
  }

  /**
   A read is answered if and only if a query the device answers is staged, unless it is one of the
   acknowledgement reads set to fail: the next `ackSkip` succeed, the `ackFailures` after them fail.
   */
  lemma WhenRepliesCome(d: Device)
    ensures var (d', r) := Emit(d);
            var asksAck := d.pending == Some(OP_GET_ACK);
            var fails := asksAck && d.ackSkip == 0 && d.ackFailures > 0;
            && (r.Some? <==> d.pending.Some? && Answers(d, d.pending.value) && !fails)
            && (r.Some? ==> r.value.typeId == d.typeId && Some(r.value.opcode) == d.pending)
            && d'.ackSkip == d.ackSkip - (if asksAck && d.ackSkip > 0 then 1 else 0)
            && d'.ackFailures == d.ackFailures - (if fails then 1 else 0)
  {
  }

  /** The bus: devices by address, changed in place by the writes and reads that reach it. */
  class CannedBus {
    var devices: map<byte, Device>

    constructor ()
      ensures devices == map[]
    {
      devices := map[];
    }

    method AddDevice(address: byte, typeId: byte)
      modifies this
      ensures devices == old(devices)[address :=
        if address in old(devices) then old(devices)[address].(typeId := typeId) else Seeded(typeId)]
    {
      var d := if address in devices then devices[address].(typeId := typeId) else Seeded(typeId);
      devices := devices[address := d];
    }

    method TripWatchdog(address: byte)
      modifies this
      ensures devices == if address in old(devices)
                         then old(devices)[address := Tripped(old(devices)[address])] else old(devices)
    {
      if address in devices {
        var d := devices[address];
        devices := devices[address := d.(out := d.out.(wdTripped := true, wdTrips := (d.out.wdTrips + 1) % 0x100))];
      }
    }

    /** Every injected outcome, lost frame or failing GET_ACK read waits in the device's state. */
    method ApplyWrite(address: byte, f: Frame)
      modifies this
      ensures devices == if address in old(devices)
                         then old(devices)[address := Receive(old(devices)[address], f)] else old(devices)
    {
      if address !in devices {
        return;
      }
      var d := devices[address];
      if f.opcode == OP_SET_REPLY && |f.payload| >= 1 {
        devices := devices[address := d.(pending := Some(f.payload[0]))];
        return;
      }
      var count := if f.opcode in d.writes then d.writes[f.opcode] else 0;
      d := d.(writes := d.writes[f.opcode := 1 + count]);
      if d.drops > 0 {
        devices := devices[address := d.(drops := d.drops - 1)];
        return;
      }
      var verdict := Apply;
      if d.outcomes != [] {
        verdict := d.outcomes[0];
        d := d.(outcomes := d.outcomes[1..]);
      }
      d := d.(ack := d.ack.(opcode := f.opcode, status := StatusByte(verdict), reason := ReasonByte(verdict)));
      d := d.(ack := d.ack.(counter := (d.ack.counter + 1) % 0x100));
      d := d.(journal := d.journal + [Entry(f, verdict)]);
      if verdict.Apply? {
        d := d.(out := Act(d.typeId, d.out, f));
      }
      devices := devices[address := d];
    }

    method EmitReply(address: byte) returns (reply: Option<Frame>)
      modifies this
      ensures address !in old(devices) ==> reply == None && devices == old(devices)
      ensures address in old(devices) ==>
                && devices == old(devices)[address := Emit(old(devices)[address]).0]
                && reply == Emit(old(devices)[address]).1
    {
      if address !in devices {
        return None;
      }
      var (d, r) := Emit(devices[address]);
      devices := devices[address := d];
      reply := r;
    }
  }
}
