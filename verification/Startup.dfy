/**
 Startup discovery: probing one address with tolerance for stale replies, probing a list of
 candidates under a time budget, and what is reported about the addresses left out.

 The peer answers arbitrarily: the answers of the bus, in the order the queries are made, are a
 parameter. So are the firmware-contract functions the provider links against.
 */
module Startup {
  import opened Bytes
  import opened Protocol
  import opened Capabilities
  import opened Inventory

  /** What one `query_read` ends in. */
  datatype Answer = Failed | Reply(frame: Frame)

  datatype CapsReport = CapsReport(schema: byte, level: byte, flags: Flags)

  /** The version and capability parsers and the compatibility checks of the firmware contracts. */
  datatype Contracts = Contracts(
    parseVersion: seq<byte> -> Option<ModuleVersion>,
    parseCaps: seq<byte> -> Option<CapsReport>,
    crumbsCompatible: uint16 -> bool,
    moduleCompatible: (DeviceType, ModuleVersion) -> bool)

  const STALE_REPLY_ATTEMPTS: nat := 3
  const VERSION_LEN: nat := 5

  function Nth(answers: seq<Answer>, n: nat): Answer {
    if n < |answers| then answers[n] else Failed
  }

  // ----- One probe ---------------------------------------------------------------------------

  /** `query_reply` from attempt number `attempt`: queries made so far, and the last answer. */
  function QueryReply(answers: seq<Answer>, n: nat, opcode: byte, attempt: nat): (nat, Answer)
    decreases STALE_REPLY_ATTEMPTS - attempt
  {
    var a := Nth(answers, n);
    if a.Failed? || a.frame.opcode == opcode || attempt >= STALE_REPLY_ATTEMPTS then (n + 1, a)
    else QueryReply(answers, n + 1, opcode, attempt + 1)
  }

  const NO_VERSION: ModuleVersion := ModuleVersion(0, 0, 0, 0)
  const NO_PROFILE: Profile := Profile(0, 0, {}, Seeded)

  function VersionFailure(address: byte, typeId: byte, detail: string): ProbeRecord {
    ProbeRecord(address, typeId, VersionReadFailed, NO_VERSION, NO_PROFILE, detail)
  }

  /** What the version reply decides: an excluded record, or a supported one that asks for its capabilities. */
  function Gate(c: Contracts, address: byte, a: Answer): ProbeRecord {
    if a.Failed? then VersionFailure(address, 0, "version query failed")
    else if a.frame.opcode != OP_GET_VERSION then VersionFailure(address, 0, "unexpected opcode in version reply")
    else
      var id := a.frame.typeId;
      match ParseType(id)
      case None => ProbeRecord(address, id, UnsupportedType, NO_VERSION, NO_PROFILE, "unknown BREAD type_id")
      case Some(t) =>
        if |a.frame.payload| < VERSION_LEN then VersionFailure(address, id, "version payload too short")
        else
          match c.parseVersion(a.frame.payload)
          case None => VersionFailure(address, id, "failed to parse version payload")
          case Some(v) =>
            if !c.crumbsCompatible(v.crumbs) then
              ProbeRecord(address, id, IncompatibleCrumbsVersion, v, NO_PROFILE, "crumbs version is below minimum")
            else if !c.moduleCompatible(t, v) then
              ProbeRecord(address, id, IncompatibleModuleMajor, v, NO_PROFILE, "module major mismatch")
            else
              ProbeRecord(address, id, Supported, v, NO_PROFILE, "probed")
  }

  /** What the caps reply decides: the profile alone. */
  function Refine(c: Contracts, t: DeviceType, a: Answer): Profile {
    if a.Failed? || a.frame.opcode != OP_GET_CAPS then BaselineProfile(t)
    else
      match c.parseCaps(a.frame.payload)
      case None => BaselineProfile(t)
      case Some(report) => Profile(report.schema, report.level, report.flags, Queried)
  }

  lemma GateFacts(c: Contracts, address: byte, a: Answer)
    ensures var p := Gate(c, address, a);
            p.address == address && (p.status.Supported? ==> ParseType(p.typeId).Some?)
  {
  }

  /** `probe_device`, from query number `n` of the run. */
  function Probe(c: Contracts, answers: seq<Answer>, n: nat, address: byte): (nat, ProbeRecord) {
    var (n1, version) := QueryReply(answers, n, OP_GET_VERSION, 1);
    var p := Gate(c, address, version);
    if !p.status.Supported? || ParseType(p.typeId).None? then (n1, p)
    else
      var (n2, caps) := QueryReply(answers, n1, OP_GET_CAPS, 1);
      (n2, p.(profile := Refine(c, ParseType(p.typeId).value, caps)))
  }

  // ----- Stale replies -----------------------------------------------------------------------

  predicate Stale(a: Answer, opcode: byte) {
    a.Reply? && a.frame.opcode != opcode
  }

  predicate AllStale(s: seq<Answer>, opcode: byte) {
    forall i | 0 <= i < |s| :: Stale(s[i], opcode)
  }

  lemma {:induction false} StaleSkipped(answers: seq<Answer>, n: nat, opcode: byte, attempt: nat, stale: nat)
    requires 1 <= attempt && attempt + stale <= STALE_REPLY_ATTEMPTS
    requires forall i | n <= i < n + stale :: Stale(Nth(answers, i), opcode)
    requires !Stale(Nth(answers, n + stale), opcode)
    ensures QueryReply(answers, n, opcode, attempt) == (n + stale + 1, Nth(answers, n + stale))
    decreases stale
  {
    if stale > 0 {
      assert Stale(Nth(answers, n), opcode);
      StaleSkipped(answers, n + 1, opcode, attempt + 1, stale - 1);
    }
  }

  /**
   Up to two stale replies before each real answer give the record that none would give. A real
   answer is a failure or a reply with the opcode asked for.
   */
  lemma StaleTolerance(
    c: Contracts, address: byte, s1: seq<Answer>, version: Answer, s2: seq<Answer>, caps: Answer, rest: seq<Answer>)
    requires |s1| <= 2 && AllStale(s1, OP_GET_VERSION) && !Stale(version, OP_GET_VERSION)
    requires |s2| <= 2 && AllStale(s2, OP_GET_CAPS) && !Stale(caps, OP_GET_CAPS)
    ensures Probe(c, s1 + [version] + s2 + [caps] + rest, 0, address).1 == Probe(c, [version, caps], 0, address).1
  {
    var all := s1 + [version] + s2 + [caps] + rest;
    forall i | 0 <= i < |s1| ensures Stale(Nth(all, i), OP_GET_VERSION) {
      assert all[i] == s1[i];
    }
    assert all[|s1|] == version;
    StaleSkipped(all, 0, OP_GET_VERSION, 1, |s1|);
    forall i | |s1| + 1 <= i < |s1| + 1 + |s2| ensures Stale(Nth(all, i), OP_GET_CAPS) {
      assert all[i] == s2[i - |s1| - 1];
    }
    assert all[|s1| + 1 + |s2|] == caps;
    StaleSkipped(all, |s1| + 1, OP_GET_CAPS, 1, |s2|);
    StaleSkipped([version, caps], 0, OP_GET_VERSION, 1, 0);
    StaleSkipped([version, caps], 1, OP_GET_CAPS, 1, 0);
  }

  lemma {:induction false} StaleGivesUp(answers: seq<Answer>, n: nat, opcode: byte, attempt: nat)
    requires 1 <= attempt <= STALE_REPLY_ATTEMPTS
    requires forall i | n <= i <= n + STALE_REPLY_ATTEMPTS - attempt :: Stale(Nth(answers, i), opcode)
    ensures Stale(QueryReply(answers, n, opcode, attempt).1, opcode)
    decreases STALE_REPLY_ATTEMPTS - attempt
  {
    assert Stale(Nth(answers, n), opcode);
    if attempt < STALE_REPLY_ATTEMPTS {
      StaleGivesUp(answers, n + 1, opcode, attempt + 1);
    }
  }

  /** Two is the limit: three stale version replies exclude the device, whatever follows. */
  lemma ThirdStaleExcludes(c: Contracts, address: byte, answers: seq<Answer>)
    requires |answers| >= 3 && AllStale(answers[..3], OP_GET_VERSION)
    ensures Probe(c, answers, 0, address).1.status == VersionReadFailed
  {
    forall i | 0 <= i < 3 ensures Stale(Nth(answers, i), OP_GET_VERSION) {
      assert answers[..3][i] == answers[i];
    }
    StaleGivesUp(answers, 0, OP_GET_VERSION, 1);
  }

  lemma {:induction false} QueryReplyCount(answers: seq<Answer>, n: nat, opcode: byte, attempt: nat)
    requires 1 <= attempt <= STALE_REPLY_ATTEMPTS
    ensures n < QueryReply(answers, n, opcode, attempt).0 <= n + STALE_REPLY_ATTEMPTS - attempt + 1
    decreases STALE_REPLY_ATTEMPTS - attempt
  {
    if attempt < STALE_REPLY_ATTEMPTS {
      QueryReplyCount(answers, n + 1, opcode, attempt + 1);
    }
  }

  /** A probe makes between one and six queries, at most three unless the device is supported. */
  lemma AtMostSixQueries(c: Contracts, answers: seq<Answer>, n: nat, address: byte)
    ensures var (n', p) := Probe(c, answers, n, address);
            && n < n' <= n + 6
            && (!p.status.Supported? ==> n' <= n + 3)
  {
    QueryReplyCount(answers, n, OP_GET_VERSION, 1);
    QueryReplyCount(answers, QueryReply(answers, n, OP_GET_VERSION, 1).0, OP_GET_CAPS, 1);
  }

  lemma {:induction false} QueryReplyLocal(x: seq<Answer>, y: seq<Answer>, n: nat, opcode: byte, attempt: nat)
    requires 1 <= attempt <= STALE_REPLY_ATTEMPTS
    requires forall i | n <= i < QueryReply(x, n, opcode, attempt).0 :: Nth(x, i) == Nth(y, i)
    ensures QueryReply(y, n, opcode, attempt) == QueryReply(x, n, opcode, attempt)
    decreases STALE_REPLY_ATTEMPTS - attempt
  {
    QueryReplyCount(x, n, opcode, attempt);
    assert Nth(x, n) == Nth(y, n);
    if Stale(Nth(x, n), opcode) && attempt < STALE_REPLY_ATTEMPTS {
      QueryReplyLocal(x, y, n + 1, opcode, attempt + 1);
    }
  }

  /**
   The caps query only refines: two probes that see the same version exchange give the same record
   but for its profile, and an excluded record not even that.
   */
  lemma CapsNeverGate(c: Contracts, x: seq<Answer>, y: seq<Answer>, n: nat, address: byte)
    requires forall i | n <= i < QueryReply(x, n, OP_GET_VERSION, 1).0 :: Nth(x, i) == Nth(y, i)
    ensures var p, q := Probe(c, x, n, address).1, Probe(c, y, n, address).1;
            && q == p.(profile := q.profile)
            && (!p.status.Supported? ==> q == p)
  {
    QueryReplyLocal(x, y, n, OP_GET_VERSION, 1);
  }

  // ----- On the bus --------------------------------------------------------------------------

  class Port {
    const answers: seq<Answer>
    var asked: nat

    constructor (answers: seq<Answer>)
      ensures this.answers == answers && asked == 0
    {
      this.answers, asked := answers, 0;
    }

    method QueryRead(address: byte, opcode: byte) returns (a: Answer)
      modifies this
      ensures a == Nth(answers, old(asked)) && asked == old(asked) + 1
    {
      a := Nth(answers, asked);
      asked := asked + 1;
    }

    method Query(address: byte, opcode: byte) returns (a: Answer)
      modifies this
      ensures (asked, a) == QueryReply(answers, old(asked), opcode, 1)
    {
      ghost var goal := QueryReply(answers, asked, opcode, 1);
      a := Failed;
      for attempt := 1 to STALE_REPLY_ATTEMPTS + 1
        invariant attempt <= STALE_REPLY_ATTEMPTS ==> goal == QueryReply(answers, asked, opcode, attempt)
        invariant attempt > STALE_REPLY_ATTEMPTS ==> goal == (asked, a)
      {
        a := QueryRead(address, opcode);
        if a.Failed? || a.frame.opcode == opcode {
          return;
        }
      }
    }

    method ProbeDevice(c: Contracts, address: byte) returns (p: ProbeRecord)
      modifies this
      ensures (asked, p) == Probe(c, answers, old(asked), address)
    {
      var version := Query(address, OP_GET_VERSION);
      p := Gate(c, address, version);
      GateFacts(c, address, version);
      if !p.status.Supported? {
        return;
      }
      var caps := Query(address, OP_GET_CAPS);
      p := p.(profile := Refine(c, ParseType(p.typeId).value, caps));
    }
  }
}

/** Probing the candidates until the deadline, and the report on those left out. */
module Discovery {
  import opened Bytes
  import opened Protocol
  import opened Capabilities
  import opened Inventory
  import opened InventoryTheorems
  import opened Startup

  /** The clock reading taken before candidate `i`. */
  type Clock = nat -> int

  datatype Swept = Swept(asked: nat, probes: seq<ProbeRecord>, unprobed: seq<byte>)

  predicate OutOfTime(deadline: Option<int>, now: int) {
    deadline.Some? && now >= deadline.value
  }

  /** One candidate: noted as unprobed when it is too late, else probed. */
  function Visit(c: Contracts, answers: seq<Answer>, s: Swept, address: byte, late: bool): Swept {
    if late then s.(unprobed := s.unprobed + [address])
    else
      var (asked, p) := Probe(c, answers, s.asked, address);
      Swept(asked, s.probes + [p], s.unprobed)
  }

  /** After the first `i` candidates, where `visit` deals with one. */
  function SweepWith(
    visit: (Swept, byte, bool) -> Swept, addresses: seq<byte>, clock: Clock, deadline: Option<int>, i: nat): Swept
    requires i <= |addresses|
  {
    if i == 0 then Swept(0, [], [])
    else
      visit(SweepWith(visit, addresses, clock, deadline, i - 1), addresses[i - 1], OutOfTime(deadline, clock(i - 1)))
  }

  function VisitOf(c: Contracts, answers: seq<Answer>): (Swept, byte, bool) -> Swept {
    (s: Swept, address: byte, late: bool) => Visit(c, answers, s, address, late)
  }

  function Sweep(
    c: Contracts, answers: seq<Answer>, addresses: seq<byte>, clock: Clock, deadline: Option<int>, i: nat): Swept
    requires i <= |addresses|
  {
    SweepWith(VisitOf(c, answers), addresses, clock, deadline, i)
  }

  /** The configured devices among the first `n` whose address was not probed say so. */
  function MarkUnprobed(
    specs: seq<DeviceSpec>, unprobed: seq<byte>, details: map<string, MissingDetail>, n: nat): map<string, MissingDetail>
    requires n <= |specs|
  {
    if n == 0 then details
    else
      var rest := MarkUnprobed(specs, unprobed, details, n - 1);
      if specs[n - 1].address in unprobed then rest[specs[n - 1].id := NotProbed] else rest
  }

  function Report(specs: seq<DeviceSpec>, s: Swept, source: InventorySource): BuildResult {
    var build := Build(specs, s.probes, source);
    build.(details := MarkUnprobed(specs, s.unprobed, build.details, |specs|))
  }

  datatype DiscoveryMode = Scan(found: Option<seq<byte>>) | ManualList(addresses: seq<byte>)

  /** `run_discovery`: `None` when the bus-wide scan fails. */
  function Discover(
    c: Contracts, answers: seq<Answer>, specs: seq<DeviceSpec>, mode: DiscoveryMode, clock: Clock, deadline: Option<int>)
    : Option<BuildResult>
  {
    match mode
    case Scan(None) => None
    case Scan(Some(found)) => Some(Report(specs, Sweep(c, answers, found, clock, deadline, |found|), Discovered))
    case ManualList(list) => Some(Report(specs, Sweep(c, answers, list, clock, deadline, |list|), Manual))
  }

  method SweepCandidates(port: Port, c: Contracts, addresses: seq<byte>, clock: Clock, deadline: Option<int>)
    returns (probes: seq<ProbeRecord>, unprobed: seq<byte>)
    requires port.asked == 0
    modifies port
    ensures Swept(port.asked, probes, unprobed) == Sweep(c, port.answers, addresses, clock, deadline, |addresses|)
  {
    probes, unprobed := [], [];
    for i := 0 to |addresses|
      invariant Swept(port.asked, probes, unprobed) == Sweep(c, port.answers, addresses, clock, deadline, i)
    {
      if deadline.Some? && clock(i) >= deadline.value {
        unprobed := unprobed + [addresses[i]];
        continue;
      }
      var p := port.ProbeDevice(c, addresses[i]);
      probes := probes + [p];
    }
  }

  method RunDiscovery(
    port: Port, c: Contracts, specs: seq<DeviceSpec>, mode: DiscoveryMode, clock: Clock, deadline: Option<int>)
    returns (result: Option<BuildResult>)
    requires port.asked == 0
    modifies port
    ensures result == Discover(c, port.answers, specs, mode, clock, deadline)
  {
    if mode == Scan(None) {
      return None;
    }
    var addresses := if mode.Scan? then mode.found.value else mode.addresses;
    var source := if mode.Scan? then Discovered else Manual;
    var probes, unprobed := SweepCandidates(port, c, addresses, clock, deadline);
    var build := BuildInventory(specs, probes, source);
    var details := build.details;
    for n := 0 to |specs|
      invariant details == MarkUnprobed(specs, unprobed, build.details, n)
    {
      if specs[n].address in unprobed {
        details := details[specs[n].id := NotProbed];
      }
    }
    result := Some(build.(details := details));
  }

  /** Every entry says how it was found: by a scan, or on the configured list. */
  lemma EntriesNameTheirSource(
    c: Contracts, answers: seq<Answer>, specs: seq<DeviceSpec>, mode: DiscoveryMode, clock: Clock, deadline: Option<int>,
    d: InventoryDevice)
    requires var r := Discover(c, answers, specs, mode, clock, deadline); r.Some? && d in r.value.supported
    ensures d.source == if mode.Scan? then Discovered else Manual
    ensures mode.Scan? ==> mode.found.Some?
  {
    match mode {
      case Scan(Some(found)) =>
        var s := Sweep(c, answers, found, clock, deadline, |found|);
        var p := BuildEntry(specs, s.probes, Discovered, d);
      case ManualList(list) =>
        var s := Sweep(c, answers, list, clock, deadline, |list|);
        var p := BuildEntry(specs, s.probes, Manual, d);
    }
  }

  // ----- The budget --------------------------------------------------------------------------

  predicate Monotone(clock: Clock, n: nat) {
    forall i, j | 0 <= i < j < n :: clock(i) <= clock(j)
  }

  predicate ProbesOf(probes: seq<ProbeRecord>, addresses: seq<byte>) {
    |probes| == |addresses| && forall i | 0 <= i < |probes| :: probes[i].address == addresses[i]
  }

  /**
   With a clock that does not go back, the candidates split into a probed prefix and an unprobed
   suffix: a candidate is probed exactly when the clock read before the deadline at its turn.
   */
  lemma {:induction false} PrefixProbed(
    c: Contracts, answers: seq<Answer>, addresses: seq<byte>, clock: Clock, deadline: Option<int>, n: nat)
    returns (k: nat)
    requires n <= |addresses| && Monotone(clock, n)
    ensures k <= n
    ensures forall i | 0 <= i < n :: i < k <==> deadline.None? || clock(i) < deadline.value
    ensures var s := Sweep(c, answers, addresses, clock, deadline, n);
            ProbesOf(s.probes, addresses[..k]) && s.unprobed == addresses[k..n]
  {
    if n == 0 {
      return 0;
    }
    k := PrefixProbed(c, answers, addresses, clock, deadline, n - 1);
    var s := Sweep(c, answers, addresses, clock, deadline, n - 1);
    if OutOfTime(deadline, clock(n - 1)) {
      assert addresses[k..n] == addresses[k..n - 1] + [addresses[n - 1]];
    } else {
      assert forall i | 0 <= i < n - 1 :: clock(i) <= clock(n - 1);
      assert addresses[..n] == addresses[..k] + [addresses[n - 1]];
      ProbeAddress(c, answers, s.asked, addresses[n - 1]);
      k := n;
    }
  }

  lemma ProbeAddress(c: Contracts, answers: seq<Answer>, n: nat, address: byte)
    ensures Probe(c, answers, n, address).1.address == address
  {
    GateFacts(c, address, QueryReply(answers, n, OP_GET_VERSION, 1).1);
  }

  // ----- The report --------------------------------------------------------------------------

  lemma {:induction false} BuildNeverSaysNotProbed(
    specs: seq<DeviceSpec>, fs: seq<Fate>, us: seq<ProbeRecord>, n: nat, id: string)
    requires n <= |specs|
    ensures var m := DetailsOf(specs, fs, us, n); id in m ==> m[id].ProbeFailed?
  {
    if n > 0 {
      BuildNeverSaysNotProbed(specs, fs, us, n - 1, id);
    }
  }

  lemma {:induction false} Marked(
    specs: seq<DeviceSpec>, unprobed: seq<byte>, details: map<string, MissingDetail>, n: nat, i: nat)
    requires DistinctSpecs(specs) && n <= |specs| && i < |specs|
    ensures var m := MarkUnprobed(specs, unprobed, details, n);
            if i < n && specs[i].address in unprobed then specs[i].id in m && m[specs[i].id] == NotProbed
            else (specs[i].id in m <==> specs[i].id in details)
                 && (specs[i].id in m ==> m[specs[i].id] == details[specs[i].id])
  {
    if n > 0 {
      Marked(specs, unprobed, details, n - 1, i);
      if n - 1 < i {
        assert specs[n - 1].id != specs[i].id;
      } else if i < n - 1 {
        assert specs[i].id != specs[n - 1].id;
      }
    }
  }

  /** A configured device whose address no probe has is missing. */
  lemma UnprobedIsMissing(specs: seq<DeviceSpec>, probes: seq<ProbeRecord>, source: InventorySource, i: nat)
    requires i < |specs| && forall n | 0 <= n < |probes| :: probes[n].address != specs[i].address
    ensures specs[i].id in Build(specs, probes, source).missing
  {
    var ps := Sort(probes);
    var fs := Fates(specs, source, ps);
    forall m | 0 <= m < |fs| ensures !MatchedBy(fs[m], i) {
      assert Fits(specs, ps[m], fs[m]);
      SortMembers(probes, ps[m]);
    }
    MissingMembers(specs, fs, |specs|, specs[i].id);
  }

  predicate DistinctAddresses(addresses: seq<byte>) {
    forall i, j | 0 <= i < j < |addresses| :: addresses[i] != addresses[j]
  }

  /**
   "Not probed" is the detail of exactly the configured devices whose address is in the unprobed
   suffix, and every one of them is in the missing list.
   */
  lemma NotProbedExactly(
    c: Contracts, answers: seq<Answer>, specs: seq<DeviceSpec>, addresses: seq<byte>, clock: Clock,
    deadline: Option<int>, source: InventorySource, i: nat) returns (k: nat)
    requires Monotone(clock, |addresses|) && DistinctAddresses(addresses) && DistinctSpecs(specs) && i < |specs|
    ensures k <= |addresses|
    ensures forall n | 0 <= n < |addresses| :: n < k <==> deadline.None? || clock(n) < deadline.value
    ensures var r := Report(specs, Sweep(c, answers, addresses, clock, deadline, |addresses|), source);
            var id := specs[i].id;
            && (id in r.details && r.details[id] == NotProbed <==> specs[i].address in addresses[k..])
            && (specs[i].address in addresses[k..] ==> id in r.missing)
  {
    k := PrefixProbed(c, answers, addresses, clock, deadline, |addresses|);
    var s := Sweep(c, answers, addresses, clock, deadline, |addresses|);
    var build := Build(specs, s.probes, source);
    var fs := Fates(specs, source, Sort(s.probes));
    assert addresses[k..|addresses|] == addresses[k..];
    Marked(specs, s.unprobed, build.details, |specs|, i);
    BuildNeverSaysNotProbed(specs, fs, UnsupportedOf(fs, |fs|), |specs|, specs[i].id);
    if specs[i].address in addresses[k..] {
      SuffixHasNoProbe(s.probes, addresses, k, specs[i].address);
      UnprobedIsMissing(specs, s.probes, source, i);
    }
  }

  lemma SuffixHasNoProbe(probes: seq<ProbeRecord>, addresses: seq<byte>, k: nat, a: byte)
    requires k <= |addresses| && DistinctAddresses(addresses) && ProbesOf(probes, addresses[..k])
    requires a in addresses[k..]
    ensures forall n | 0 <= n < |probes| :: probes[n].address != a
  {
    var m :| 0 <= m < |addresses[k..]| && addresses[k..][m] == a;
    assert addresses[k + m] == a;
    forall n | 0 <= n < |probes| ensures probes[n].address != a {
      assert probes[n].address == addresses[..k][n] == addresses[n];
    }
  }
}
