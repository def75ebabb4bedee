/** Adapter calls, reads and the safe-output drive as they run on a session. */
module AdapterMethods {
  import opened Protocol
  import opened SessionObjects
  import opened Capabilities
  import opened AdapterHelpers
  import opened DeviceAdapter
  import opened SafeOutputs
  import SetConfirmMethods
  import DcmtAdapter

  method TransmitDcmt(session: Session, d: InventoryDevice, f: Frame) returns (result: CallResult)
    requires session.retry < 0x7FFF_FFFF
    modifies session, session.transport`tick, session.transport.bus
    ensures (session.State(), result) == DcmtAdapter.Transmit(session.Environment(), old(session.State()), d, f)
  {
    if DcmtAdapter.NeedsBrakeCheck(f) {
      var status, reply := session.QueryRead(d.address, DCMT_OP_GET_STATE);
      if status.Ok() && reply.Some? {
        var state := DcmtAdapter.StateOf(reply.value);
        if state.Some? {
          var braked := DcmtAdapter.Braked(f, state.value);
          if braked.Some? {
            return CallResult(false, AdppFailedPrecondition, BrakeEngaged(braked.value));
          }
        }
      }
    }
    if DcmtAdapter.NeedsEncoders(d, f) {
      return CallResult(false, AdppInvalidArgument, Note.NeedsEncoders);
    }
    result := SetConfirmMethods.Transmit(session, d, f);
  }

  /** A missing session is `null`, as in the source; arguments are checked first either way. */
  method CallDevice(session: Session?, d: InventoryDevice, functionId: nat, args: Args) returns (result: CallResult)
    requires session != null ==> session.retry < 0x7FFF_FFFF
    modifies if session == null then {} else {session, session.transport, session.transport.bus}
    ensures session == null ==> result == OfflineAnswer(d, functionId, args)
    ensures session != null ==>
              (session.State(), result) == Call(session.Environment(), old(session.State()), true, d, functionId, args)
  {
    var e := Encode(d.deviceType, functionId, args);
    if e.Invalid? {
      return CallResult(false, e.code, e.note);
    }
    if session == null {
      return CallResult(false, AdppUnavailable, NoSession);
    }
    match d.deviceType {
      case Rlht => result := SetConfirmMethods.Transmit(session, d, e.frame);
      case Dcmt => result := TransmitDcmt(session, d, e.frame);
    }
  }

  method ReadDevice(session: Session, d: InventoryDevice, ids: seq<SignalId>) returns (result: ReadResult)
    requires session.retry < 0x7FFF_FFFF
    modifies session, session.transport`tick, session.transport.bus
    ensures (session.State(), result) == ReadSignals(session.Environment(), old(session.State()), d, ids)
  {
    var status, reply := session.QueryRead(d.address, StateOpcode(d.deviceType));
    if !status.Ok() || reply.None? {
      return ReadError(status.code);
    }
    var values := Decode(d, reply.value, ids);
    if values.None? {
      session.RecordRejection(d.address);
      return ReadFailure(AdppInternal);
    }
    result := ReadResult(true, AdppOk, values.value);
  }

  method DriveSafe(session: Session, d: InventoryDevice) returns (ok: bool, failures: seq<nat>)
    requires session.retry < 0x7FFF_FFFF
    modifies session, session.transport, session.transport.bus
    ensures Driven(session.State(), failures) == Drive(session.Environment(), old(session.State()), d)
    ensures ok <==> failures == []
  {
    var steps := Steps(d.deviceType);
    ok, failures := true, [];
    ghost var goal := Drive(session.Environment(), session.State(), d);
    for i := 0 to |steps|
      invariant ok <==> failures == []
      invariant goal == DriveFrom(session.Environment(), session.State(), d, i, failures)
    {
      var step := steps[i];
      var sent := CallDevice(session, d, step.functionId, step.args);
      if !sent.ok {
        ok := false;
        failures := failures + [i];
      }
    }
  }
}
