/** Arming, re-arming and querying the firmware command watchdog. */
module Watchdog {
  import opened Bytes
  import opened Protocol
  import opened SessionModel
  import opened SessionObjects
  import opened Capabilities
  import opened Footprint

  function WatchdogFlag(t: DeviceType): nat {
    match t
    case Rlht => RLHT_CAP_CMD_WATCHDOG
    case Dcmt => DCMT_CAP_CMD_WATCHDOG
  }

  predicate CapabilitySupported(d: InventoryDevice) {
    WatchdogFlag(d.deviceType) in d.profile.flags
  }

  /** Configured to arm, on firmware that has a watchdog. */
  predicate Armable(d: InventoryDevice) {
    d.watchdogMs > 0 && CapabilitySupported(d)
  }

  function ArmFrame(d: InventoryDevice): Frame {
    Frame(TypeId(d.deviceType), OP_SET_WATCHDOG, U16Le(d.watchdogMs))
  }

  ghost function ArmSends(d: InventoryDevice): Sends {
    if Armable(d) then iset{(d.address, ArmFrame(d))} else iset{}
  }

  /** `arm_if_configured` */
  function Arm(env: Env, w: World, d: InventoryDevice): World {
    if Armable(d) then Perform(env, w, d.address, SendFrame(ArmFrame(d))).world else w
  }

  datatype WatchdogStatus = WatchdogStatus(armed: bool, timeoutMs: uint16, tripped: bool, tripCount: byte)

  function ParseStatus(f: Frame): Option<WatchdogStatus> {
    if f.opcode != OP_GET_WATCHDOG || |f.payload| < 5 then None
    else Some(WatchdogStatus(f.payload[0] != 0, ReadU16(f.payload, 1).value, f.payload[3] != 0, f.payload[4]))
  }

  /** `query_status` */
  function QueryStatus(env: Env, w: World, d: InventoryDevice): (World, Option<WatchdogStatus>) {
    var p := Perform(env, w, d.address, QueryFor(OP_GET_WATCHDOG));
    if !p.status.Ok() || p.reply.None? then (p.world, None)
    else
      match ParseStatus(p.reply.value)
      case None => (Rejected(p.world, d.address), None)
      case Some(s) => (p.world, Some(s))
  }

  /** `rearm_if_rebooted`: a tripped device is left alone. */
  function Rearm(env: Env, w: World, d: InventoryDevice, s: WatchdogStatus): World {
    if s.armed || s.tripped then w else Arm(env, w, d)
  }

  lemma ArmMoves(env: Env, w: World, d: InventoryDevice, s: Sends)
    requires ArmSends(d) <= s
    ensures Moves(w, Arm(env, w, d), s)
  {
    MovesRefl(w, s);
    if Armable(d) {
      assert (d.address, ArmFrame(d)) in ArmSends(d);
      PerformMoves(env, w, d.address, SendFrame(ArmFrame(d)), s);
    }
  }

  lemma QueryStatusMoves(env: Env, w: World, d: InventoryDevice, s: Sends)
    ensures Moves(w, QueryStatus(env, w, d).0, s)
  {
    PerformMoves(env, w, d.address, QueryFor(OP_GET_WATCHDOG), s);
    if Perform(env, w, d.address, QueryFor(OP_GET_WATCHDOG)).status.Ok() {
      RejectionMoves(env, w, d.address, QueryFor(OP_GET_WATCHDOG), s);
    }
  }

  // ----- On a session ------------------------------------------------------------------------

  method ArmIfConfigured(session: Session, d: InventoryDevice)
    requires session.retry < 0x7FFF_FFFF
    modifies session, session.transport`tick, session.transport.bus
    ensures session.State() == Arm(session.Environment(), old(session.State()), d)
  {
    if d.watchdogMs == 0 || !CapabilitySupported(d) {
      return;
    }
    var _ := session.Send(d.address, Frame(TypeId(d.deviceType), OP_SET_WATCHDOG,
                                           [d.watchdogMs % 0x100, d.watchdogMs / 0x100]));
  }

  method Query(session: Session, d: InventoryDevice) returns (status: Option<WatchdogStatus>)
    requires session.retry < 0x7FFF_FFFF
    modifies session, session.transport`tick, session.transport.bus
    ensures (session.State(), status) == QueryStatus(session.Environment(), old(session.State()), d)
  {
    var code, reply := session.QueryRead(d.address, OP_GET_WATCHDOG);
    if !code.Ok() || reply.None? {
      return None;
    }
    status := ParseStatus(reply.value);
    if status.None? {
      session.RecordRejection(d.address);
    }
  }
}
