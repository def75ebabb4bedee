/** Traffic to one address leaves the devices at every other address exactly as they are. */
module Elsewhere {
  import opened Bytes
  import opened Protocol
  import opened CannedDevice
  import opened SessionModel
  import opened Capabilities
  import opened SetConfirm
  import opened SafeOutputs
  import opened Watchdog

  predicate Touches(w: World, w': World, a: byte) {
    && w'.open == w.open && w'.bus.tick >= w.bus.tick
    && w'.bus.devices.Keys == w.bus.devices.Keys
    && forall c | c in w.bus.devices && c != a :: w'.bus.devices[c] == w.bus.devices[c]
  }

  lemma TouchesTrans(w: World, w1: World, w2: World, a: byte)
    requires Touches(w, w1, a) && Touches(w1, w2, a)
    ensures Touches(w, w2, a)
  {
  }

  lemma {:induction false} AttemptsTouch(tape: seq<Link>, b: Bus, log: seq<Attempt>, a: byte, op: Op, n: nat, max: nat)
    requires n <= max
    ensures var b' := Attempts(tape, b, log, a, op, n, max).bus;
            && b'.tick >= b.tick && b'.devices.Keys == b.devices.Keys
            && forall c | c in b.devices && c != a :: b'.devices[c] == b.devices[c]
    decreases max - n
  {
    var t := TryOnce(tape, b, a, op);
    if !Final(t, n, max) {
      AttemptsTouch(tape, t.bus, log + [Attempt(a, op)], a, op, n + 1, max);
    }
  }

  lemma PerformTouches(env: Env, w: World, a: byte, op: Op)
    ensures Touches(w, Perform(env, w, a, op).world, a)
  {
    if Refusal(w, a, op).None? {
      AttemptsTouch(env.tape, w.bus, w.log, a, op, 1, MaxAttempts(env.retry));
    }
  }

  lemma {:induction false} ReadAckTouches(env: Env, w: World, a: byte, n: nat)
    ensures Touches(w, ReadAck(env, w, a, n).0, a)
    decreases ACK_READ_ATTEMPTS - n
  {
    if n < ACK_READ_ATTEMPTS {
      PerformTouches(env, w, a, QueryFor(OP_GET_ACK));
      var p := Perform(env, w, a, QueryFor(OP_GET_ACK));
      if p.status.Ok() && p.reply.Some? && AckDecode(p.reply.value).None? {
        ReadAckTouches(env, Rejected(p.world, a), a, n + 1);
        TouchesTrans(w, Rejected(p.world, a), ReadAck(env, Rejected(p.world, a), a, n + 1).0, a);
      }
    }
  }

  lemma RoundTouches(env: Env, w: World, a: byte, f: Frame, before: AckRecord)
    ensures Touches(w, RunRound(env, w, a, f, before).0, a)
  {
    var sent := Perform(env, w, a, SendFrame(f)).world;
    PerformTouches(env, w, a, SendFrame(f));
    ReadAckTouches(env, sent, a, 0);
    TouchesTrans(w, sent, ReadAck(env, sent, a, 0).0, a);
  }

  lemma {:induction false} RepeatTouches(round: World -> (World, Round), w: World, sent: nat, a: byte)
    requires forall x: World :: Touches(x, round(x).0, a)
    ensures Touches(w, Repeat(round, w, sent).0, a)
    decreases CONFIRMED_SENDS - sent
  {
    var (w', r) := round(w);
    assert Touches(w, w', a);
    if Resends(r) && sent < CONFIRMED_SENDS {
      RepeatTouches(round, w', sent + 1, a);
      TouchesTrans(w, w', Repeat(round, w', sent + 1).0, a);
    }
  }

  lemma RoundsTouch(env: Env, w: World, a: byte, f: Frame, before: AckRecord)
    ensures Touches(w, Rounds(env, w, a, f, before, 1).0, a)
  {
    var round := RoundOf(env, a, f, before);
    forall x: World ensures Touches(x, round(x).0, a) {
      RoundTouches(env, x, a, f, before);
    }
    RepeatTouches(round, w, 1, a);
  }

  lemma TransmitTouches(env: Env, w: World, d: InventoryDevice, f: Frame)
    ensures Touches(w, TransmitConfirmed(env, w, d, f).0, d.address)
  {
    var a := d.address;
    if Confirmation(d).Unconfirmed? {
      PerformTouches(env, w, a, SendFrame(f));
    } else {
      var (w1, before) := ReadAck(env, w, a, 0);
      ReadAckTouches(env, w, a, 0);
      if before.Some? {
        RoundsTouch(env, w1, a, f, before.value);
        TouchesTrans(w, w1, Rounds(env, w1, a, f, before.value, 1).0, a);
      }
    }
  }

  lemma StepTouches(env: Env, w: World, d: InventoryDevice, i: nat)
    ensures Touches(w, SendStep(env, d)(w, i).0, d.address)
  {
    if i < |Steps(d.deviceType)| {
      SafeStepIsConfirmed(env, w, d, i);
      TransmitTouches(env, w, d, SafeFrame(d.deviceType, i));
    }
  }

  lemma {:induction false} DriveWithTouches(
    send: (World, nat) -> (World, bool), n: nat, w: World, i: nat, failures: seq<nat>, a: byte)
    requires i <= n && forall x: World, k: nat :: Touches(x, send(x, k).0, a)
    ensures Touches(w, DriveWith(send, n, w, i, failures).world, a)
    decreases n - i
  {
    if i < n {
      var (w', ok) := send(w, i);
      assert Touches(w, w', a);
      var failures' := if ok then failures else failures + [i];
      DriveWithTouches(send, n, w', i + 1, failures', a);
      TouchesTrans(w, w', DriveWith(send, n, w', i + 1, failures').world, a);
    }
  }

  lemma DriveTouches(env: Env, w: World, d: InventoryDevice)
    ensures Touches(w, Drive(env, w, d).world, d.address)
  {
    var send := SendStep(env, d);
    forall x: World, k: nat ensures Touches(x, send(x, k).0, d.address) {
      StepTouches(env, x, d, k);
    }
    DriveWithTouches(send, |Steps(d.deviceType)|, w, 0, [], d.address);
  }

  lemma ArmTouches(env: Env, w: World, d: InventoryDevice)
    ensures Touches(w, Arm(env, w, d), d.address)
  {
    PerformTouches(env, w, d.address, SendFrame(ArmFrame(d)));
  }
}
