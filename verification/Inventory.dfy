/**
 Inventory assembly: probe records and configuration in, devices, exclusions and missing ids
 out. Each probe's fate depends only on the probe and the configuration; assembly lists the
 fates in address order.
 */
module Inventory {
  import opened Bytes
  import opened Protocol
  import opened Capabilities

  datatype DeviceSpec = DeviceSpec(
    id: string, deviceType: DeviceType, labelText: string, address: byte, watchdogMs: uint16, encoders: bool)

  datatype ProbeStatus =
    | Supported | UnsupportedType | VersionReadFailed | IncompatibleCrumbsVersion | IncompatibleModuleMajor
    | TypeMismatch

  datatype ProbeRecord = ProbeRecord(
    address: byte, typeId: byte, status: ProbeStatus, version: ModuleVersion, profile: Profile, detail: string)

  /** Why a configured device is missing, when that is known. */
  datatype MissingDetail = ProbeFailed(status: ProbeStatus, detail: string) | NotProbed

  datatype BuildResult = BuildResult(
    supported: seq<InventoryDevice>,
    unsupported: seq<ProbeRecord>,
    missing: seq<string>,
    details: map<string, MissingDetail>)

  // ----- Sorting -----------------------------------------------------------------------------

  /** Orders as the pair (address, type id) does. */
  function Key(p: ProbeRecord): nat {
    p.address * 0x100 + p.typeId
  }

  predicate Sorted(ps: seq<ProbeRecord>) {
    forall i, j | 0 <= i < j < |ps| :: Key(ps[i]) <= Key(ps[j])
  }

  predicate DistinctKeys(ps: seq<ProbeRecord>) {
    forall i, j | 0 <= i < j < |ps| :: Key(ps[i]) != Key(ps[j])
  }

  /** How many of the sorted probes stay in front of key `k`. */
  function Position(ps: seq<ProbeRecord>, k: nat): (n: nat)
    requires Sorted(ps)
    ensures n <= |ps|
    ensures forall i | 0 <= i < n :: Key(ps[i]) <= k
    ensures forall i | n <= i < |ps| :: k < Key(ps[i])
  {
    if ps == [] || Key(ps[|ps| - 1]) <= k then |ps| else Position(ps[..|ps| - 1], k)
  }

  function Insert(ps: seq<ProbeRecord>, p: ProbeRecord): (r: seq<ProbeRecord>)
    requires Sorted(ps)
    ensures Sorted(r)
  {
    var n := Position(ps, Key(p));
    ps[..n] + [p] + ps[n..]
  }

  lemma SpliceContents(a: seq<ProbeRecord>, p: ProbeRecord, b: seq<ProbeRecord>)
    ensures multiset(a + [p] + b) == multiset(a + b) + multiset{p}
  {
  }

  lemma InsertContents(ps: seq<ProbeRecord>, p: ProbeRecord)
    requires Sorted(ps)
    ensures multiset(Insert(ps, p)) == multiset(ps) + multiset{p}
  {
    var n := Position(ps, Key(p));
    SpliceContents(ps[..n], p, ps[n..]);
    assert ps == ps[..n] + ps[n..];
  }

  /** The probes in address order; with distinct keys, what any sort returns (`SortedUnique`). */
  function Sort(ps: seq<ProbeRecord>): (r: seq<ProbeRecord>)
    ensures Sorted(r)
  {
    if ps == [] then [] else Insert(Sort(ps[..|ps| - 1]), ps[|ps| - 1])
  }

  lemma {:induction false} SortContents(ps: seq<ProbeRecord>)
    ensures multiset(Sort(ps)) == multiset(ps)
  {
    if ps != [] {
      var rest, p := ps[..|ps| - 1], ps[|ps| - 1];
      SortContents(rest);
      InsertContents(Sort(rest), p);
      assert ps == rest + [p];
    }
  }

  lemma SortMembers(ps: seq<ProbeRecord>, p: ProbeRecord)
    ensures p in Sort(ps) <==> p in ps
  {
    SortContents(ps);
    assert p in multiset(Sort(ps)) <==> p in multiset(ps);
  }

  lemma InsertDistinct(ps: seq<ProbeRecord>, p: ProbeRecord)
    requires Sorted(ps) && DistinctKeys(ps) && forall i | 0 <= i < |ps| :: Key(ps[i]) != Key(p)
    ensures DistinctKeys(Insert(ps, p))
  {
  }

  lemma SortedAvoids(ps: seq<ProbeRecord>, p: ProbeRecord)
    requires forall i | 0 <= i < |ps| :: Key(ps[i]) != Key(p)
    ensures forall i | 0 <= i < |Sort(ps)| :: Key(Sort(ps)[i]) != Key(p)
  {
    forall i | 0 <= i < |Sort(ps)| ensures Key(Sort(ps)[i]) != Key(p) {
      SortMembers(ps, Sort(ps)[i]);
    }
  }

  lemma {:induction false} SortDistinct(ps: seq<ProbeRecord>)
    requires DistinctKeys(ps)
    ensures DistinctKeys(Sort(ps))
  {
    if ps != [] {
      var rest, p := ps[..|ps| - 1], ps[|ps| - 1];
      SortDistinct(rest);
      SortedAvoids(rest, p);
      InsertDistinct(Sort(rest), p);
    }
  }

  lemma TailContents(a: seq<ProbeRecord>, b: seq<ProbeRecord>)
    requires a != [] && b != [] && a[0] == b[0] && multiset(a) == multiset(b)
    ensures multiset(a[1..]) == multiset(b[1..])
  {
    assert a == [a[0]] + a[1..] && b == [b[0]] + b[1..];
    assert multiset(a[1..]) == multiset(a) - multiset{a[0]};
    assert multiset(b[1..]) == multiset(b) - multiset{b[0]};
  }

  lemma {:induction false} SortedUnique(a: seq<ProbeRecord>, b: seq<ProbeRecord>)
    requires Sorted(a) && Sorted(b) && DistinctKeys(a) && multiset(a) == multiset(b)
    ensures a == b
  {
    assert |a| == |multiset(a)| == |b|;
    if a != [] {
      assert a[0] in multiset(b) && b[0] in multiset(a);
      var i :| 0 <= i < |b| && b[i] == a[0];
      var j :| 0 <= j < |a| && a[j] == b[0];
      assert Key(a[j]) <= Key(a[0]);
      TailContents(a, b);
      SortedUnique(a[1..], b[1..]);
    }
  }

  // ----- The fate of one probe ---------------------------------------------------------------

  /** An extra device gets its id when its place in the list is known. */
  datatype Fate =
    | Excluded(record: ProbeRecord)
    | Expected(device: InventoryDevice, spec: nat)
    | Extra(device: InventoryDevice)

  /** The first configured device at an address. */
  function FindSpec(specs: seq<DeviceSpec>, address: byte): (r: Option<nat>)
    ensures r.Some? ==> r.value < |specs| && specs[r.value].address == address
    ensures r.Some? ==> forall i | 0 <= i < r.value :: specs[i].address != address
    ensures r.None? ==> forall i | 0 <= i < |specs| :: specs[i].address != address
  {
    if specs == [] then None
    else
      var n := |specs| - 1;
      match FindSpec(specs[..n], address)
      case Some(i) => Some(i)
      case None => if specs[n].address == address then Some(n) else None
  }

  // ----- Ids, labels and profiles ------------------------------------------------------------

  function Digit(d: nat): char
    requires d < 10
  {
    ('0' as int + d) as char
  }

  /** `std::to_string` of a count. */
  function Decimal(n: nat): (s: string)
    ensures |s| > 0
  {
    if n < 10 then [Digit(n)] else Decimal(n / 10) + [Digit(n % 10)]
  }

  function GeneratedId(t: DeviceType, index: nat): string {
    (match t case Rlht => "rlht" case Dcmt => "dcmt") + Decimal(index)
  }

  function GeneratedLabel(t: DeviceType, address: byte): string {
    (match t case Rlht => "RLHT " case Dcmt => "DCMT ") + Decimal(address)
  }

  function BaselineProfile(t: DeviceType): Profile {
    Profile(1, 1, match t case Rlht => RLHT_CAP_BASELINE_FLAGS case Dcmt => DCMT_CAP_BASELINE_FLAGS, BaselineFallback)
  }

  function SeededProfile(t: DeviceType): Profile {
    match t
    case Rlht => Profile(1, 1, RLHT_CAP_BASELINE_FLAGS, Seeded)
    case Dcmt =>
      Profile(1, 3, {DCMT_CAP_OPEN_LOOP_CONTROL, DCMT_CAP_BRAKE_CONTROL, DCMT_CAP_CLOSED_LOOP_POSITION,
                     DCMT_CAP_CLOSED_LOOP_SPEED, DCMT_CAP_PID_TUNING, DCMT_CAP_CMD_WATCHDOG,
                     DCMT_CAP_CLEAR_WATCHDOG_TRIP}, Seeded)
  }

  function FillFrom(p: Profile, base: Profile): Profile {
    p.(schema := if p.schema == 0 then base.schema else p.schema,
       level := if p.level == 0 then base.level else p.level,
       flags := if p.flags == {} then base.flags else p.flags)
  }

  function Normalize(t: DeviceType, p: Profile): Profile {
    match p.source
    case BaselineFallback => FillFrom(p, BaselineProfile(t))
    case Seeded => FillFrom(p, SeededProfile(t))
    case Queried => p
  }

  /** `build_device` for a probe with no configured device at its address. */
  function ExtraDevice(source: InventorySource, p: ProbeRecord, t: DeviceType): InventoryDevice {
    var profile := Normalize(t, p.profile);
    InventoryDevice("", GeneratedLabel(t, p.address), t, p.address, source, false,
                    p.version, profile, profile.flags, 0, true)
  }

  /** `build_device` for a configured device; without encoders the closed loops are not offered. */
  function ExpectedDevice(source: InventorySource, p: ProbeRecord, spec: DeviceSpec): InventoryDevice {
    var t := spec.deviceType;
    var profile := Normalize(t, p.profile);
    var encoders := !(t.Dcmt? && !spec.encoders);
    InventoryDevice(spec.id, if spec.labelText == "" then GeneratedLabel(t, p.address) else spec.labelText,
                    t, p.address, source, true, p.version, profile,
                    if encoders then profile.flags else profile.flags - DCMT_ENCODER_CAPS,
                    spec.watchdogMs, encoders)
  }

  /** The configuration does not name another type at this address. */
  predicate Agrees(specs: seq<DeviceSpec>, address: byte, t: DeviceType) {
    match FindSpec(specs, address)
    case None => true
    case Some(i) => specs[i].deviceType == t
  }

  /** A probe the inventory takes as a device of type `t`: supported, of that type, and not configured as another. */
  predicate Accepts(specs: seq<DeviceSpec>, p: ProbeRecord, t: DeviceType) {
    p.status.Supported? && ParseType(p.typeId) == Some(t) && Agrees(specs, p.address, t)
  }

  predicate Accepted(specs: seq<DeviceSpec>, p: ProbeRecord) {
    ParseType(p.typeId).Some? && Accepts(specs, p, ParseType(p.typeId).value)
  }

  /** Why a probe that is not accepted is excluded. */
  function Reason(p: ProbeRecord): ProbeStatus {
    if !p.status.Supported? then p.status else if ParseType(p.typeId).None? then UnsupportedType else TypeMismatch
  }

  /** What an entry takes from its probe: a queried or fallback profile as it is, and the version. */
  predicate TakesFrom(d: InventoryDevice, p: ProbeRecord) {
    && d.address == p.address && d.version == p.version
    && (p.profile.source.Queried? || p.profile == BaselineProfile(d.deviceType) ==> d.profile == p.profile)
  }

  /** What a configured entry takes from its configuration. */
  predicate FollowsSpec(d: InventoryDevice, spec: DeviceSpec) {
    && d.expected && d.id == spec.id && d.deviceType == spec.deviceType && d.watchdogMs == spec.watchdogMs
    && d.encoders == !(spec.deviceType.Dcmt? && !spec.encoders)
    && (spec.labelText != "" ==> d.labelText == spec.labelText)
  }

  /** What a fate may say about a probe. */
  predicate Fits(specs: seq<DeviceSpec>, p: ProbeRecord, f: Fate) {
    match f
    case Excluded(u) =>
      && !Accepted(specs, p)
      && u.address == p.address && u.typeId == p.typeId && u.status == Reason(p)
      && (!p.status.Supported? ==> u == p)
    case Expected(d, i) =>
      && Accepts(specs, p, d.deviceType) && FindSpec(specs, p.address) == Some(i)
      && TakesFrom(d, p) && FollowsSpec(d, specs[i]) && Faithful(d)
    case Extra(d) =>
      && Accepts(specs, p, d.deviceType) && FindSpec(specs, p.address) == None
      && TakesFrom(d, p) && !d.expected && d.watchdogMs == 0 && d.encoders && Faithful(d)
  }

  /** A probe is excluded, becomes the configured device at its address, or an extra device. */
  function FateOf(specs: seq<DeviceSpec>, source: InventorySource, p: ProbeRecord): (f: Fate)
    ensures Fits(specs, p, f)
    ensures !f.Excluded? ==> f.device.source == source
  {
    if !p.status.Supported? then Excluded(p)
    else
      match ParseType(p.typeId)
      case None =>
        Excluded(p.(status := UnsupportedType, detail := if p.detail == "" then "unsupported BREAD type id" else p.detail))
      case Some(t) =>
        match FindSpec(specs, p.address)
        case None => Extra(ExtraDevice(source, p, t))
        case Some(i) =>
          if specs[i].deviceType != t then Excluded(p.(status := TypeMismatch, detail := "type mismatch"))
          else Expected(ExpectedDevice(source, p, specs[i]), i)
  }

  function Fates(specs: seq<DeviceSpec>, source: InventorySource, ps: seq<ProbeRecord>): (fs: seq<Fate>)
    ensures |fs| == |ps| && forall n | 0 <= n < |ps| :: Fits(specs, ps[n], fs[n])
    ensures forall n | 0 <= n < |fs| :: !fs[n].Excluded? ==> fs[n].device.source == source
  {
    seq(|ps|, n requires 0 <= n < |ps| => FateOf(specs, source, ps[n]))
  }

  // ----- Lists of fates ----------------------------------------------------------------------

  predicate KeptAs(f: Fate, t: DeviceType) {
    !f.Excluded? && f.device.deviceType == t
  }

  /** How many of the first `n` are kept as devices of type `t`. */
  function KeptOf(fs: seq<Fate>, n: nat, t: DeviceType): nat
    requires n <= |fs|
  {
    if n == 0 then 0 else KeptOf(fs, n - 1, t) + if KeptAs(fs[n - 1], t) then 1 else 0
  }

  /** The entry a kept probe gets; `index` is how many of its type were kept before it. */
  function Placed(f: Fate, index: nat): InventoryDevice
    requires !f.Excluded?
  {
    if f.Extra? then f.device.(id := GeneratedId(f.device.deviceType, index)) else f.device
  }

  /** The devices of the first `n`. */
  function SupportedOf(fs: seq<Fate>, n: nat): seq<InventoryDevice>
    requires n <= |fs|
  {
    if n == 0 then []
    else
      var f := fs[n - 1];
      SupportedOf(fs, n - 1) + if f.Excluded? then [] else [Placed(f, KeptOf(fs, n - 1, f.device.deviceType))]
  }

  /** The exclusions of the first `n`. */
  function UnsupportedOf(fs: seq<Fate>, n: nat): seq<ProbeRecord>
    requires n <= |fs|
  {
    if n == 0 then []
    else UnsupportedOf(fs, n - 1) + if fs[n - 1].Excluded? then [fs[n - 1].record] else []
  }

  predicate MatchedBy(f: Fate, i: nat) {
    f.Expected? && f.spec == i
  }

  /** The `matched` flags of `count` configured devices after the first `n` probes. */
  function Marks(fs: seq<Fate>, n: nat, count: nat): (r: seq<bool>)
    requires n <= |fs|
    ensures |r| == count
  {
    if n == 0 then seq(count, _ => false)
    else
      var r := Marks(fs, n - 1, count);
      if fs[n - 1].Expected? && fs[n - 1].spec < count then r[fs[n - 1].spec := true] else r
  }

  lemma {:induction false} MarksMeaning(fs: seq<Fate>, n: nat, count: nat, i: nat)
    requires n <= |fs| && i < count
    ensures Marks(fs, n, count)[i] <==> exists m :: 0 <= m < n && MatchedBy(fs[m], i)
  {
    if n > 0 {
      MarksMeaning(fs, n - 1, count, i);
    }
  }

  /** Some probe is the configured device `i`. */
  predicate Matched(fs: seq<Fate>, i: nat) {
    exists n :: 0 <= n < |fs| && MatchedBy(fs[n], i)
  }

  /** The configured ids among the first `n` that no probe matched, in order. */
  function MissingOf(specs: seq<DeviceSpec>, fs: seq<Fate>, n: nat): seq<string>
    requires n <= |specs|
  {
    if n == 0 then []
    else MissingOf(specs, fs, n - 1) + if Matched(fs, n - 1) then [] else [specs[n - 1].id]
  }

  /** The first exclusion at an address. */
  function FirstAt(us: seq<ProbeRecord>, address: byte): Option<ProbeRecord> {
    if us == [] then None else if us[0].address == address then Some(us[0]) else FirstAt(us[1..], address)
  }

  function DetailsOf(specs: seq<DeviceSpec>, fs: seq<Fate>, us: seq<ProbeRecord>, n: nat): map<string, MissingDetail>
    requires n <= |specs|
  {
    if n == 0 then map[]
    else
      var rest := DetailsOf(specs, fs, us, n - 1);
      match FirstAt(us, specs[n - 1].address)
      case Some(u) => if Matched(fs, n - 1) then rest else rest[specs[n - 1].id := ProbeFailed(u.status, u.detail)]
      case None => rest
  }

  function Assemble(specs: seq<DeviceSpec>, fs: seq<Fate>): BuildResult {
    var us := UnsupportedOf(fs, |fs|);
    BuildResult(SupportedOf(fs, |fs|), us, MissingOf(specs, fs, |specs|), DetailsOf(specs, fs, us, |specs|))
  }

  /** `build_inventory_from_probes` */
  function Build(specs: seq<DeviceSpec>, probes: seq<ProbeRecord>, source: InventorySource): BuildResult {
    Assemble(specs, Fates(specs, source, Sort(probes)))
  }

  // ----- The loops ---------------------------------------------------------------------------

  method FirstExclusion(us: seq<ProbeRecord>, address: byte) returns (r: Option<ProbeRecord>)
    ensures r == FirstAt(us, address)
  {
    for n := 0 to |us|
      invariant FirstAt(us, address) == FirstAt(us[n..], address)
    {
      if us[n].address == address {
        return Some(us[n]);
      }
    }
    r := None;
  }

  /** The loop over the sorted probes, each with its fate; `count` devices are configured. */
  method PlaceProbes(fs: seq<Fate>, count: nat)
    returns (supported: seq<InventoryDevice>, unsupported: seq<ProbeRecord>, matched: seq<bool>)
    requires forall n | 0 <= n < |fs| :: fs[n].Expected? ==> fs[n].spec < count
    ensures supported == SupportedOf(fs, |fs|) && unsupported == UnsupportedOf(fs, |fs|)
    ensures matched == Marks(fs, |fs|, count)
  {
    supported, unsupported := [], [];
    matched := seq(count, _ => false);
    var rlhtIndex, dcmtIndex := 0, 0;
    for n := 0 to |fs|
      invariant supported == SupportedOf(fs, n) && unsupported == UnsupportedOf(fs, n)
      invariant rlhtIndex == KeptOf(fs, n, Rlht) && dcmtIndex == KeptOf(fs, n, Dcmt)
      invariant matched == Marks(fs, n, count)
    {
      var fate := fs[n];
      if fate.Excluded? {
        unsupported := unsupported + [fate.record];
        continue;
      }
      var index := if fate.device.deviceType.Rlht? then rlhtIndex else dcmtIndex;
      if fate.device.deviceType.Rlht? {
        rlhtIndex := rlhtIndex + 1;
      } else {
        dcmtIndex := dcmtIndex + 1;
      }
      if fate.Expected? {
        matched := matched[fate.spec := true];
      }
      supported := supported + [Placed(fate, index)];
    }
  }

  /** The loop over the configured devices. */
  method ListMissing(specs: seq<DeviceSpec>, ghost fs: seq<Fate>, us: seq<ProbeRecord>, matched: seq<bool>)
    returns (missing: seq<string>, details: map<string, MissingDetail>)
    requires matched == Marks(fs, |fs|, |specs|)
    ensures missing == MissingOf(specs, fs, |specs|) && details == DetailsOf(specs, fs, us, |specs|)
  {
    missing, details := [], map[];
    for i := 0 to |specs|
      invariant missing == MissingOf(specs, fs, i) && details == DetailsOf(specs, fs, us, i)
    {
      MarksMeaning(fs, |fs|, |specs|, i);
      if matched[i] {
        continue;
      }
      missing := missing + [specs[i].id];
      var u := FirstExclusion(us, specs[i].address);
      if u.Some? {
        details := details[specs[i].id := ProbeFailed(u.value.status, u.value.detail)];
      }
    }
  }

  method BuildInventory(specs: seq<DeviceSpec>, probes: seq<ProbeRecord>, source: InventorySource)
    returns (result: BuildResult)
    ensures result == Build(specs, probes, source)
  {
    var ps := Sort(probes);
    var fs := Fates(specs, source, ps);
    assert forall n | 0 <= n < |fs| :: Fits(specs, ps[n], fs[n]);
    var supported, unsupported, matched := PlaceProbes(fs, |specs|);
    var missing, details := ListMissing(specs, fs, unsupported, matched);
    result := BuildResult(supported, unsupported, missing, details);
  }
}
