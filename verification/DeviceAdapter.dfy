/** The adapter of a device: encode first, then touch the session. */
module DeviceAdapter {
  import opened Bytes
  import opened Protocol
  import opened SessionModel
  import opened Capabilities
  import opened Footprint
  import opened SetConfirm
  import opened AdapterHelpers
  import RlhtAdapter
  import DcmtAdapter

  function Encode(t: DeviceType, functionId: nat, args: Args): Encoding {
    match t
    case Rlht => RlhtAdapter.Encode(functionId, args)
    case Dcmt => DcmtAdapter.Encode(functionId, args)
  }

  function Transmit(env: Env, w: World, d: InventoryDevice, f: Frame): (World, CallResult) {
    match d.deviceType
    case Rlht => TransmitConfirmed(env, w, d, f)
    case Dcmt => DcmtAdapter.Transmit(env, w, d, f)
  }

  /** What a call answers without hardware: the argument error, if there is one. */
  function OfflineAnswer(d: InventoryDevice, functionId: nat, args: Args): CallResult {
    match Encode(d.deviceType, functionId, args)
    case Invalid(code, note) => CallResult(false, code, note)
    case Encoded(_) => CallResult(false, AdppUnavailable, NoSession)
  }

  /** `call`: arguments are validated and encoded before the session is looked at. */
  function Call(env: Env, w: World, live: bool, d: InventoryDevice, functionId: nat, args: Args): (World, CallResult) {
    match Encode(d.deviceType, functionId, args)
    case Encoded(f) => if live then Transmit(env, w, d, f) else (w, OfflineAnswer(d, functionId, args))
    case Invalid(_, _) => (w, OfflineAnswer(d, functionId, args))
  }

  function StateOpcode(t: DeviceType): byte {
    match t
    case Rlht => RLHT_OP_GET_STATE
    case Dcmt => DCMT_OP_GET_STATE
  }

  function Decode(d: InventoryDevice, f: Frame, ids: seq<SignalId>): Option<seq<Signal>> {
    match d.deviceType
    case Rlht => RlhtAdapter.Decode(d, f, ids)
    case Dcmt => DcmtAdapter.Decode(f, ids)
  }

  /** `read_signals` */
  function ReadSignals(env: Env, w: World, d: InventoryDevice, ids: seq<SignalId>): (World, ReadResult) {
    var p := Perform(env, w, d.address, QueryFor(StateOpcode(d.deviceType)));
    if !p.status.Ok() || p.reply.None? then (p.world, ReadError(p.status.code))
    else
      match Decode(d, p.reply.value, ids)
      case None => (Rejected(p.world, d.address), ReadFailure(AdppInternal))
      case Some(values) => (p.world, ReadResult(true, AdppOk, values))
  }

  // ----- Footprints --------------------------------------------------------------------------

  /** The opcode a function id encodes to, 0 for an unknown id. */
  function OpcodeOf(t: DeviceType, functionId: nat): byte {
    match t
    case Rlht =>
      (match functionId
       case 1 => RLHT_OP_SET_MODE case 2 => RLHT_OP_SET_SETPOINTS case 3 => RLHT_OP_SET_PID
       case 4 => RLHT_OP_SET_PERIODS case 5 => RLHT_OP_SET_TC_SELECT case 6 => RLHT_OP_SET_OPEN_DUTY
       case 7 => OP_CLEAR_WATCHDOG_TRIP case _ => 0)
    case Dcmt =>
      (match functionId
       case 1 => DCMT_OP_SET_OPEN_LOOP case 2 => DCMT_OP_SET_BRAKE case 3 => DCMT_OP_SET_MODE
       case 4 => DCMT_OP_SET_SETPOINT case 5 => DCMT_OP_SET_PID case 6 => OP_CLEAR_WATCHDOG_TRIP
       case 7 => DCMT_OP_SET_PID case _ => 0)
  }

  function ClearTripId(t: DeviceType): nat {
    match t case Rlht => 7 case Dcmt => 6
  }

  /** Every frame an encoder builds is a command of its family that fits a CRUMBS payload. */
  lemma EncodedShape(t: DeviceType, functionId: nat, args: Args)
    ensures var e := Encode(t, functionId, args);
            e.Encoded? ==>
              && e.frame.typeId == TypeId(t)
              && e.frame.opcode == OpcodeOf(t, functionId)
              && IsCommand(e.frame)
              && |e.frame.payload| <= MAX_PAYLOAD
              && (e.frame.opcode == OP_CLEAR_WATCHDOG_TRIP <==> functionId == ClearTripId(t))
  {
  }

  lemma CallMoves(env: Env, w: World, live: bool, d: InventoryDevice, functionId: nat, args: Args, s: Sends)
    requires var e := Encode(d.deviceType, functionId, args);
             e.Encoded? && !(d.deviceType.Dcmt? && DcmtAdapter.NeedsEncoders(d, e.frame)) ==> (d.address, e.frame) in s
    ensures Moves(w, Call(env, w, live, d, functionId, args).0, s)
  {
    MovesRefl(w, s);
    var e := Encode(d.deviceType, functionId, args);
    if e.Encoded? && live {
      match d.deviceType {
        case Rlht => SetConfirm.TransmitMoves(env, w, d, e.frame, s);
        case Dcmt => DcmtAdapter.TransmitMoves(env, w, d, e.frame, s);
      }
    }
  }

  lemma ReadSignalsMoves(env: Env, w: World, d: InventoryDevice, ids: seq<SignalId>, s: Sends)
    ensures Moves(w, ReadSignals(env, w, d, ids).0, s)
  {
    var op := QueryFor(StateOpcode(d.deviceType));
    PerformMoves(env, w, d.address, op, s);
    if Perform(env, w, d.address, op).status.Ok() {
      RejectionMoves(env, w, d.address, op, s);
    }
  }

  // ----- The published contract --------------------------------------------------------------

  lemma MeetsEach(args: Args, f: FunctionSpec)
    requires Meets(args, f)
    ensures forall k | 0 <= k < |f.args| :: MeetsArg(args, f.args[k])
  {
  }

  lemma PublishedEncodesRlht(flags: Flags, i: nat, args: Args)
    requires i < |RlhtOffers(flags)| && Meets(args, RlhtOffers(flags)[i].spec)
    ensures Encode(Rlht, RlhtOffers(flags)[i].spec.id, args).Encoded?
  {
    var f := RlhtOffers(flags)[i].spec;
    MeetsEach(args, f);
    if i == 2 {
      assert forall k | 0 <= k < 6 :: f.args[k].name == RLHT_GAINS[k] && MeetsArg(args, f.args[k]);
    } else if 0 < |f.args| {
      assert MeetsArg(args, f.args[0]) && (1 < |f.args| ==> MeetsArg(args, f.args[1]));
    }
  }

  lemma PublishedEncodesDcmt(flags: Flags, i: nat, args: Args)
    requires i < |DcmtOffers(flags)| && Meets(args, DcmtOffers(flags)[i].spec)
    ensures Encode(Dcmt, DcmtOffers(flags)[i].spec.id, args).Encoded?
  {
    var f := DcmtOffers(flags)[i].spec;
    MeetsEach(args, f);
    if i == 4 || i == 5 {
      assert forall k | 0 <= k < 6 :: f.args[k].name == DCMT_GAINS[k] && MeetsArg(args, f.args[k]);
    } else if 0 < |f.args| {
      assert MeetsArg(args, f.args[0]) && (1 < |f.args| ==> MeetsArg(args, f.args[1]));
    }
  }

  /** Arguments that meet the published specification encode, for every flag word. */
  lemma PublishedEncodes(t: DeviceType, flags: Flags, f: FunctionSpec, args: Args)
    requires f in Published(t, flags) && Meets(args, f)
    ensures var e := Encode(t, f.id, args); e.Encoded? && |e.frame.payload| <= MAX_PAYLOAD
  {
    var os := Offers(t, flags);
    OfferedMembers(os, f);
    var i :| 0 <= i < |os| && os[i].offered && os[i].spec == f;
    match t {
      case Rlht => PublishedEncodesRlht(flags, i, args);
      case Dcmt => PublishedEncodesDcmt(flags, i, args);
    }
    EncodedShape(t, f.id, args);
  }

  lemma AcceptedMeetsRlht(flags: Flags, i: nat, args: Args)
    requires i < |RlhtOffers(flags)| && Encode(Rlht, RlhtOffers(flags)[i].spec.id, args).Encoded?
    ensures Meets(args, RlhtOffers(flags)[i].spec)
  {
    var f := RlhtOffers(flags)[i].spec;
    assert forall k | 0 <= k < |f.args| :: MeetsArg(args, f.args[k]);
  }

  lemma AcceptedMeetsDcmt(flags: Flags, i: nat, args: Args)
    requires i < |DcmtOffers(flags)| && i != 2 && Encode(Dcmt, DcmtOffers(flags)[i].spec.id, args).Encoded?
    ensures Meets(args, DcmtOffers(flags)[i].spec)
  {
    var f := DcmtOffers(flags)[i].spec;
    assert forall k | 0 <= k < |f.args| :: MeetsArg(args, f.args[k]);
  }

  /**
   Arguments an encoder accepts meet the published specification, except DCMT `set_mode`, which
   accepts the three mode names whatever the flags advertise.
   */
  lemma AcceptedMeetsSpec(t: DeviceType, flags: Flags, f: FunctionSpec, args: Args)
    requires f in Published(t, flags) && !(t.Dcmt? && f.id == 3)
    ensures Encode(t, f.id, args).Encoded? <==> Meets(args, f)
  {
    var os := Offers(t, flags);
    OfferedMembers(os, f);
    var i :| 0 <= i < |os| && os[i].offered && os[i].spec == f;
    if Meets(args, f) {
      PublishedEncodes(t, flags, f, args);
    } else if Encode(t, f.id, args).Encoded? {
      if t.Rlht? {
        AcceptedMeetsRlht(flags, i, args);
      } else {
        AcceptedMeetsDcmt(flags, i, args);
      }
    }
  }

  /** `set_mode` takes three names; the published ones are those whose loop the flags advertise. */
  lemma AcceptedModes(flags: Flags, f: FunctionSpec, args: Args)
    requires f in Published(Dcmt, flags) && f.id == 3
    ensures Encode(Dcmt, 3, args).Encoded? <==>
              GetString(args, "mode").Some?
              && GetString(args, "mode").value in {"open_loop", "closed_position", "closed_speed"}
    ensures Meets(args, f) <==>
              GetString(args, "mode").Some?
              && var m := GetString(args, "mode").value;
                 || m == "open_loop"
                 || (m == "closed_position" && DCMT_CAP_CLOSED_LOOP_POSITION in flags)
                 || (m == "closed_speed" && DCMT_CAP_CLOSED_LOOP_SPEED in flags)
  {
    OfferedMembers(DcmtOffers(flags), f);
    assert f.args == [ArgSpec("mode", OneOf(DcmtModes(flags)))];
    assert Meets(args, f) <==> MeetsArg(args, f.args[0]);
  }

  lemma PublishedIds(t: DeviceType, flags: Flags, f: FunctionSpec)
    requires f in Published(t, flags)
    ensures 1 <= f.id <= 7
  {
    OfferedMembers(Offers(t, flags), f);
  }

  lemma InvalidCodes(t: DeviceType, functionId: nat, args: Args)
    requires 1 <= functionId <= 7
    ensures var e := Encode(t, functionId, args);
            e.Invalid? ==> e.code in {AdppInvalidArgument, AdppOutOfRange}
  {
  }

  /**
   A call of a published function whose arguments break the published bounds answers with an
   argument error and leaves the session, the bus and every device as they were. The one
   exception is a DCMT mode name beyond the published ones.
   */
  lemma BadArgumentsTouchNothing(env: Env, w: World, live: bool, d: InventoryDevice, f: FunctionSpec, args: Args)
    requires f in Functions(d) && !Meets(args, f) && !(d.deviceType.Dcmt? && f.id == 3)
    ensures var (w', r) := Call(env, w, live, d, f.id, args);
            w' == w && !r.ok && r.code in {AdppInvalidArgument, AdppOutOfRange}
  {
    AcceptedMeetsSpec(d.deviceType, d.offered, f, args);
    PublishedIds(d.deviceType, d.offered, f);
    InvalidCodes(d.deviceType, f.id, args);
  }

  /**
   Without encoders, the mode names `set_mode` encodes beyond the published one are exactly those
   the transmit gate refuses.
   */
  lemma ExtraModesNeedEncoders(d: InventoryDevice, f: FunctionSpec, args: Args)
    requires d.deviceType.Dcmt? && !d.encoders && Faithful(d)
    requires f in Functions(d) && f.id == 3 && Encode(Dcmt, 3, args).Encoded?
    ensures !Meets(args, f) <==> DcmtAdapter.NeedsEncoders(d, Encode(Dcmt, 3, args).frame)
  {
    var flags := OfferedFlags(d);
    OfferedMembers(DcmtOffers(flags), f);
    assert DcmtModes(flags) == ["open_loop"];
    assert f.args == [ArgSpec("mode", OneOf(["open_loop"]))];
    assert Meets(args, f) <==> MeetsArg(args, f.args[0]);
  }
}
