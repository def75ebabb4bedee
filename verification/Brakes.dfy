/**
 When a motor command is held back by a brake, in terms of its arguments and of the brakes the device
 has engaged.
 */
module Brakes {
  import opened Bytes
  import opened Protocol
  import opened SessionModel
  import opened Capabilities
  import opened Footprint
  import opened WireFormats
  import opened SafeOutputs
  import opened CleanDrive
  import opened CleanRuns
  import DeviceAdapter
  import DcmtAdapter

  /** The two functions that command motors, and the names of their arguments. */
  predicate Commands(functionId: nat) {
    functionId == 1 || functionId == 4
  }

  function Key1(functionId: nat): string {
    if functionId == 1 then "motor1_pwm" else "motor1_target"
  }

  function Key2(functionId: nat): string {
    if functionId == 1 then "motor2_pwm" else "motor2_target"
  }

  /** What an accepted command asks of the two motors. */
  function Asked(functionId: nat, args: Args): (int, int)
    requires Commands(functionId) && Accepts(Dcmt, functionId, args)
  {
    (args[Key1(functionId)].i, args[Key2(functionId)].i)
  }

  lemma AskedOnWire(functionId: nat, args: Args)
    requires Commands(functionId) && Accepts(Dcmt, functionId, args)
    ensures var f := DeviceAdapter.Encode(Dcmt, functionId, args).frame;
            DcmtAdapter.Commands(f) == Some(Asked(functionId, args))
  {
    DcmtOpenLoop(args);
    DcmtSetpoint(args);
  }

  /** Brakes are asked about before a command with a motor to move, and before nothing else. */
  lemma WhenBrakesAreRead(functionId: nat, args: Args)
    requires Accepts(Dcmt, functionId, args)
    ensures DcmtAdapter.NeedsBrakeCheck(DeviceAdapter.Encode(Dcmt, functionId, args).frame) <==>
              Commands(functionId) && Asked(functionId, args) != (0, 0)
  {
    if Commands(functionId) {
      AskedOnWire(functionId, args);
    } else {
      DeviceAdapter.EncodedShape(Dcmt, functionId, args);
    }
  }

  /** The first motor asked to move whose brake is engaged: bit 0 for motor 1, bit 1 for motor 2. */
  function HeldMotor(asked: (int, int), brakes: byte): Option<nat> {
    if asked.0 != 0 && brakes % 2 == 1 then Some(1)
    else if asked.1 != 0 && brakes / 2 % 2 == 1 then Some(2)
    else None
  }

  lemma WhichMotorIsHeld(functionId: nat, args: Args, s: DcmtAdapter.DcmtState)
    requires Commands(functionId) && Accepts(Dcmt, functionId, args)
    ensures var f := DeviceAdapter.Encode(Dcmt, functionId, args).frame;
            && DcmtAdapter.Commands(f).Some?
            && DcmtAdapter.Braked(f, s) == HeldMotor(Asked(functionId, args), s.brakes)
  {
    AskedOnWire(functionId, args);
  }

  lemma BrakesReadBack(env: Env, w: World, d: InventoryDevice, f: Frame)
    requires d.deviceType.Dcmt? && Willing(env, w, d) && Legible(w, d)
    ensures var (w1, state) := DcmtAdapter.ReadBrakes(env, w, d, f);
            && Willing(env, w1, d) && Moves(w, w1, iset{})
            && (DcmtAdapter.NeedsBrakeCheck(f) ==> state.Some? && state.value.brakes == OutputsAt(w, d).brakes)
  {
    MovesRefl(w, iset{});
    if DcmtAdapter.NeedsBrakeCheck(f) {
      CleanQuery(env, w, d);
      DcmtAdapter.ParsesOutputs(OutputsAt(w, d));
      PerformMoves(env, w, d.address, QueryFor(DCMT_OP_GET_STATE), iset{});
    }
  }

  /**
   On a clean link a motor command is refused, naming the motor and sending nothing, if and only if a
   motor it asks to move has its brake engaged; otherwise it answers OK. A command of 0 and 0 is never
   refused.
   */
  lemma CommandsAgainstBrakes(env: Env, w: World, d: InventoryDevice, functionId: nat, args: Args)
    requires d.deviceType.Dcmt? && Willing(env, w, d) && Legible(w, d)
    requires Commands(functionId) && Accepts(Dcmt, functionId, args)
    ensures var held := HeldMotor(Asked(functionId, args), OutputsAt(w, d).brakes);
            var (w', r) := DeviceAdapter.Call(env, w, true, d, functionId, args);
            && (held.None? ==> r.ok)
            && (held.Some? ==>
                  r == CallResult(false, AdppFailedPrecondition, BrakeEngaged(held.value)) && Moves(w, w', iset{}))
  {
    var f := DeviceAdapter.Encode(Dcmt, functionId, args).frame;
    DeviceAdapter.EncodedShape(Dcmt, functionId, args);
    AskedOnWire(functionId, args);
    WhenBrakesAreRead(functionId, args);
    BrakesReadBack(env, w, d, f);
    var (w1, state) := DcmtAdapter.ReadBrakes(env, w, d, f);
    if DcmtAdapter.NeedsBrakeCheck(f) {
      WhichMotorIsHeld(functionId, args, state.value);
    }
    if HeldMotor(Asked(functionId, args), OutputsAt(w, d).brakes).None? {
      DcmtAdapter.UngatedIsConfirmed(env, w, d, f);
      WillingAnswers(env, w1, d, f);
    }
  }
}
