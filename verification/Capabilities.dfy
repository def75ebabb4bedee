/**
 Capability flags, the functions a device publishes for them, and the inventory entry they
 belong to.

 A flag word is the set of its bit positions. The bits come from headers outside the
 repository; the proofs use only that the bits of one family differ.
 */
module Capabilities {
  import opened Bytes
  import opened Protocol

  type Flags = set<nat>

  const RLHT_CAP_MODE_CONTROL: nat := 0
  const RLHT_CAP_SETPOINT_CONTROL: nat := 1
  const RLHT_CAP_PID_TUNING: nat := 2
  const RLHT_CAP_PERIOD_CONTROL: nat := 3
  const RLHT_CAP_TC_SELECT: nat := 4
  const RLHT_CAP_OPEN_DUTY_CONTROL: nat := 5
  const RLHT_CAP_CMD_WATCHDOG: nat := 6
  const RLHT_CAP_CLEAR_WATCHDOG_TRIP: nat := 7
  const RLHT_CAP_ESTOP_COUNT: nat := 8
  const RLHT_CAP_REFUSES: nat := 9
  const RLHT_CAP_BASELINE_FLAGS: Flags := {0, 1, 2, 3, 4, 5}

  const DCMT_CAP_OPEN_LOOP_CONTROL: nat := 0
  const DCMT_CAP_BRAKE_CONTROL: nat := 1
  const DCMT_CAP_CLOSED_LOOP_POSITION: nat := 2
  const DCMT_CAP_CLOSED_LOOP_SPEED: nat := 3
  const DCMT_CAP_PID_TUNING: nat := 4
  const DCMT_CAP_CMD_WATCHDOG: nat := 6
  const DCMT_CAP_CLEAR_WATCHDOG_TRIP: nat := 7
  const DCMT_CAP_REFUSES: nat := 8
  const DCMT_CAP_BASELINE_FLAGS: Flags := {0, 1}
  const DCMT_ENCODER_CAPS: Flags :=
    {DCMT_CAP_CLOSED_LOOP_POSITION, DCMT_CAP_CLOSED_LOOP_SPEED, DCMT_CAP_PID_TUNING}

  const RLHT_PERIOD_MIN_MS: nat := 100
  const RLHT_PERIOD_MAX_MS: nat := 60000
  const THERMOCOUPLE_MIN: nat := 1
  const THERMOCOUPLE_MAX: nat := 2

  // ----- Published functions -----------------------------------------------------------------

  datatype ArgType =
    | BoolArg
    | IntArg(minInt: int, maxInt: int)
    | UintArg(minUint: nat, maxUint: nat)
    | RealArg(minReal: real, maxReal: real)
    | OneOf(allowed: seq<string>)

  datatype ArgSpec = ArgSpec(name: string, argType: ArgType)

  datatype FunctionSpec = FunctionSpec(id: nat, name: string, args: seq<ArgSpec>)

  /** A function and whether the flags offer it. */
  datatype Offer = Offer(offered: bool, spec: FunctionSpec)

  function Uints(names: seq<string>, min: nat, max: nat): (specs: seq<ArgSpec>)
    ensures |specs| == |names|
    ensures forall i | 0 <= i < |names| :: specs[i] == ArgSpec(names[i], UintArg(min, max))
  {
    seq(|names|, i requires 0 <= i < |names| => ArgSpec(names[i], UintArg(min, max)))
  }

  const RLHT_GAINS: seq<string> := ["kp1_x10", "ki1_x10", "kd1_x10", "kp2_x10", "ki2_x10", "kd2_x10"]
  const DCMT_GAINS: seq<string> := ["kp1_x1000", "ki1_x1000", "kd1_x1000", "kp2_x1000", "ki2_x1000", "kd2_x1000"]

  function RlhtOffers(flags: Flags): seq<Offer> {
    [ Offer(RLHT_CAP_MODE_CONTROL in flags,
            FunctionSpec(1, "set_mode", [ArgSpec("mode", OneOf(["closed_loop", "open_loop"]))])),
      Offer(RLHT_CAP_SETPOINT_CONTROL in flags,
            FunctionSpec(2, "set_setpoints", [ArgSpec("setpoint1_c", RealArg(-3276.8, 3276.7)),
                                              ArgSpec("setpoint2_c", RealArg(-3276.8, 3276.7))])),
      Offer(RLHT_CAP_PID_TUNING in flags, FunctionSpec(3, "set_pid_x10", Uints(RLHT_GAINS, 0, 255))),
      Offer(RLHT_CAP_PERIOD_CONTROL in flags,
            FunctionSpec(4, "set_periods_ms",
                         Uints(["period1_ms", "period2_ms"], RLHT_PERIOD_MIN_MS, RLHT_PERIOD_MAX_MS))),
      Offer(RLHT_CAP_TC_SELECT in flags,
            FunctionSpec(5, "set_tc_select", Uints(["channel1_thermocouple", "channel2_thermocouple"],
                                                   THERMOCOUPLE_MIN, THERMOCOUPLE_MAX))),
      Offer(RLHT_CAP_OPEN_DUTY_CONTROL in flags,
            FunctionSpec(6, "set_open_duty_pct", Uints(["duty1_pct", "duty2_pct"], 0, 100))),
      Offer(RLHT_CAP_CMD_WATCHDOG in flags && RLHT_CAP_CLEAR_WATCHDOG_TRIP in flags,
            FunctionSpec(7, "clear_watchdog_trip", [])) ]
  }

  function DcmtModes(flags: Flags): seq<string> {
    ["open_loop"]
    + (if DCMT_CAP_CLOSED_LOOP_POSITION in flags then ["closed_position"] else [])
    + (if DCMT_CAP_CLOSED_LOOP_SPEED in flags then ["closed_speed"] else [])
  }

  function DcmtOffers(flags: Flags): seq<Offer> {
    var position, speed := DCMT_CAP_CLOSED_LOOP_POSITION in flags, DCMT_CAP_CLOSED_LOOP_SPEED in flags;
    [ Offer(DCMT_CAP_OPEN_LOOP_CONTROL in flags,
            FunctionSpec(1, "set_open_loop", [ArgSpec("motor1_pwm", IntArg(-255, 255)),
                                              ArgSpec("motor2_pwm", IntArg(-255, 255))])),
      Offer(DCMT_CAP_BRAKE_CONTROL in flags,
            FunctionSpec(2, "set_brake", [ArgSpec("motor1_brake", BoolArg), ArgSpec("motor2_brake", BoolArg)])),
      Offer(DCMT_CAP_OPEN_LOOP_CONTROL in flags || position || speed,
            FunctionSpec(3, "set_mode", [ArgSpec("mode", OneOf(DcmtModes(flags)))])),
      Offer(position || speed,
            FunctionSpec(4, "set_setpoint", [ArgSpec("motor1_target", IntArg(-32768, 32767)),
                                             ArgSpec("motor2_target", IntArg(-32768, 32767))])),
      Offer(DCMT_CAP_PID_TUNING in flags, FunctionSpec(5, "set_pid_x1000", Uints(DCMT_GAINS, 0, 65535))),
      Offer(DCMT_CAP_PID_TUNING in flags && speed,
            FunctionSpec(7, "set_speed_pid_x1000", Uints(DCMT_GAINS, 0, 65535))),
      Offer(DCMT_CAP_CMD_WATCHDOG in flags && DCMT_CAP_CLEAR_WATCHDOG_TRIP in flags,
            FunctionSpec(6, "clear_watchdog_trip", [])) ]
  }

  function Offers(t: DeviceType, flags: Flags): seq<Offer> {
    match t
    case Rlht => RlhtOffers(flags)
    case Dcmt => DcmtOffers(flags)
  }

  function Offered(os: seq<Offer>): seq<FunctionSpec> {
    if os == [] then []
    else Offered(os[..|os| - 1]) + if os[|os| - 1].offered then [os[|os| - 1].spec] else []
  }

  /** `build_capabilities`: the functions a device of this type publishes for its flags. */
  function Published(t: DeviceType, flags: Flags): seq<FunctionSpec> {
    Offered(Offers(t, flags))
  }

  lemma {:induction false} OfferedMembers(os: seq<Offer>, f: FunctionSpec)
    ensures f in Offered(os) <==> exists i :: 0 <= i < |os| && os[i].offered && os[i].spec == f
  {
    if os != [] {
      var n := |os| - 1;
      OfferedMembers(os[..n], f);
      if f in Offered(os[..n]) {
        var i :| 0 <= i < n && os[..n][i].offered && os[..n][i].spec == f;
        assert os[i].offered;
      }
    }
  }

  lemma {:induction false} OfferedDistinct(os: seq<Offer>)
    requires forall i, j :: 0 <= i < j < |os| ==> os[i].spec.id != os[j].spec.id && os[i].spec.name != os[j].spec.name
    ensures forall i, j :: 0 <= i < j < |Offered(os)| ==>
              Offered(os)[i].id != Offered(os)[j].id && Offered(os)[i].name != Offered(os)[j].name
  {
    if os != [] {
      var n := |os| - 1;
      var fs := Offered(os[..n]);
      OfferedDistinct(os[..n]);
      forall i | 0 <= i < |fs| ensures fs[i].id != os[n].spec.id && fs[i].name != os[n].spec.name {
        OfferedMembers(os[..n], fs[i]);
      }
    }
  }

  /** For every flag word the published ids are distinct, and so are the published names. */
  lemma PublishedDistinct(t: DeviceType, flags: Flags)
    ensures var fs := Published(t, flags);
            forall i, j :: 0 <= i < j < |fs| ==> fs[i].id != fs[j].id && fs[i].name != fs[j].name
  {
    OfferedDistinct(Offers(t, flags));
  }

  // ----- Inventory entries -------------------------------------------------------------------

  datatype ModuleVersion = ModuleVersion(crumbs: uint16, major: byte, minor: byte, patch: byte)

  datatype CapabilitySource = Seeded | Queried | BaselineFallback

  datatype Profile = Profile(schema: byte, level: byte, flags: Flags, source: CapabilitySource)

  datatype InventorySource = ConfigSeeded | Manual | Discovered

  /** `offered` are the flags the entry's capability set was built from. */
  datatype InventoryDevice = InventoryDevice(
    id: string,
    labelText: string,
    deviceType: DeviceType,
    address: byte,
    source: InventorySource,
    expected: bool,
    version: ModuleVersion,
    profile: Profile,
    offered: Flags,
    watchdogMs: uint16,
    encoders: bool)

  /** The flags whose functions an inventory entry publishes (`build_device` and the encoder rule). */
  function OfferedFlags(d: InventoryDevice): Flags {
    if d.deviceType.Dcmt? && !d.encoders then d.profile.flags - DCMT_ENCODER_CAPS else d.profile.flags
  }

  /** What inventory assembly guarantees of each entry: it publishes what its flags and encoders offer. */
  predicate Faithful(d: InventoryDevice) {
    d.offered == OfferedFlags(d)
  }

  /** The functions an entry publishes. */
  function Functions(d: InventoryDevice): seq<FunctionSpec> {
    Published(d.deviceType, d.offered)
  }

  predicate FunctionExists(d: InventoryDevice, id: nat) {
    id != 0 && exists i :: 0 <= i < |Functions(d)| && Functions(d)[i].id == id
  }

  predicate DistinctIds(ds: seq<InventoryDevice>) {
    forall i, j | 0 <= i < j < |ds| :: ds[i].id != ds[j].id
  }

  /** No two entries share an id or an address. */
  predicate DistinctDevices(ds: seq<InventoryDevice>) {
    DistinctIds(ds) && forall i, j | 0 <= i < j < |ds| :: ds[i].address != ds[j].address
  }

  function FindDevice(ds: seq<InventoryDevice>, id: string): (r: Option<InventoryDevice>)
    ensures r.Some? ==> r.value in ds && r.value.id == id
    ensures r.None? ==> forall d | d in ds :: d.id != id
  {
    if ds == [] then None
    else if ds[0].id == id then Some(ds[0])
    else FindDevice(ds[1..], id)
  }
}
