/** Argument getters, encoder results and signal selection shared by the two adapters. */
module AdapterHelpers {
  import opened Bytes
  import opened Protocol
  import opened Capabilities

  /** The value under `key` when it is present with the wanted type. */
  function GetBool(args: Args, key: string): Option<bool> {
    if key in args && args[key].BoolV? then Some(args[key].b) else None
  }

  function GetInt(args: Args, key: string): Option<int> {
    if key in args && args[key].IntV? then Some(args[key].i) else None
  }

  function GetUint(args: Args, key: string): Option<nat> {
    if key in args && args[key].UintV? then Some(args[key].u) else None
  }

  function GetReal(args: Args, key: string): Option<real> {
    if key in args && args[key].RealV? then Some(args[key].r) else None
  }

  function GetString(args: Args, key: string): Option<string> {
    if key in args && args[key].StringV? then Some(args[key].s) else None
  }

  predicate AllUints(args: Args, keys: seq<string>) {
    forall i | 0 <= i < |keys| :: GetUint(args, keys[i]).Some?
  }

  predicate AllAtMost(args: Args, keys: seq<string>, max: nat)
    requires AllUints(args, keys)
  {
    forall i | 0 <= i < |keys| :: GetUint(args, keys[i]).value <= max
  }

  /** `build_frame`: a frame to send, or why there is none. */
  datatype Encoding = Encoded(frame: Frame) | Invalid(code: AdppCode, note: Note)

  const MISSING: Encoding := Invalid(AdppInvalidArgument, BadArguments)
  const OUT_OF_RANGE: Encoding := Invalid(AdppOutOfRange, BadArguments)

  /** The published bounds of one argument. */
  predicate MeetsArg(args: Args, spec: ArgSpec) {
    && spec.name in args
    && match spec.argType
       case BoolArg => args[spec.name].BoolV?
       case IntArg(lo, hi) => args[spec.name].IntV? && lo <= args[spec.name].i <= hi
       case UintArg(lo, hi) => args[spec.name].UintV? && lo <= args[spec.name].u <= hi
       case RealArg(lo, hi) => args[spec.name].RealV? && lo <= args[spec.name].r <= hi
       case OneOf(allowed) => args[spec.name].StringV? && args[spec.name].s in allowed
  }

  predicate Meets(args: Args, f: FunctionSpec) {
    forall i | 0 <= i < |f.args| :: MeetsArg(args, f.args[i])
  }

  /** `std::llround`: to the nearest integer, halves away from zero. */
  function RoundHalfAway(x: real): (n: int)
    ensures x - 0.5 <= n as real <= x + 0.5
  {
    if x >= 0.0 then (x + 0.5).Floor else -((0.5 - x).Floor)
  }

  datatype Quality = QualityOk | QualityFault

  /** Signal names; a name no device publishes is `OtherSignal`. */
  datatype SignalId =
    | Mode | Estop | EstopCount | OtherSignal(name: string)
    | T1C | T2C | Setpoint1C | Setpoint2C | Period1Ms | Period2Ms | On1Ms | On2Ms
    | Channel1Thermocouple | Channel2Thermocouple | Relay1On | Relay2On
    | Motor1Target | Motor2Target | Motor1Value | Motor2Value | Motor1Brake | Motor2Brake

  datatype Signal = Signal(id: SignalId, value: Value, quality: Quality)

  datatype ReadResult = ReadResult(ok: bool, code: AdppCode, values: seq<Signal>)

  function ReadFailure(code: AdppCode): ReadResult {
    ReadResult(false, code, [])
  }

  function ReadError(code: SessionCode): ReadResult {
    ReadFailure(match code case Timeout => AdppDeadlineExceeded case DecodeFailed => AdppInternal case _ => AdppUnavailable)
  }

  predicate ShouldInclude(ids: seq<SignalId>, defaults: seq<SignalId>, id: SignalId) {
    if ids == [] then id in defaults else id in ids
  }

  /** The decoded signals a request asks for, in their fixed order. */
  function Select(all: seq<Signal>, ids: seq<SignalId>, defaults: seq<SignalId>): (r: seq<Signal>)
    ensures forall s :: s in r <==> s in all && ShouldInclude(ids, defaults, s.id)
  {
    if all == [] then []
    else if ShouldInclude(ids, defaults, all[0].id) then [all[0]] + Select(all[1..], ids, defaults)
    else Select(all[1..], ids, defaults)
  }
}
