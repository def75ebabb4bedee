/** What inventory assembly guarantees: order does not matter, nothing is lost, ids are told apart. */
module InventoryTheorems {
  import opened Bytes
  import opened Protocol
  import opened Capabilities
  import opened Inventory

  // ----- Probe order -------------------------------------------------------------------------

  /** With distinct (address, type) probes, every permutation of them builds the same inventory. */
  lemma BuildIgnoresOrder(specs: seq<DeviceSpec>, p1: seq<ProbeRecord>, p2: seq<ProbeRecord>, source: InventorySource)
    requires DistinctKeys(p1) && multiset(p1) == multiset(p2)
    ensures Build(specs, p1, source) == Build(specs, p2, source)
  {
    SortContents(p1);
    SortContents(p2);
    SortDistinct(p1);
    SortedUnique(Sort(p1), Sort(p2));
  }

  // ----- Where fates go ----------------------------------------------------------------------

  /** Where the device of fate `n` stands: how many fates before it are kept. */
  function Place(fs: seq<Fate>, n: nat): nat
    requires n <= |fs|
  {
    KeptOf(fs, n, Rlht) + KeptOf(fs, n, Dcmt)
  }

  lemma {:induction false} Sizes(fs: seq<Fate>, n: nat)
    requires n <= |fs|
    ensures |SupportedOf(fs, n)| == Place(fs, n)
    ensures |SupportedOf(fs, n)| + |UnsupportedOf(fs, n)| == n
  {
    if n > 0 {
      Sizes(fs, n - 1);
    }
  }

  lemma {:induction false} KeptMonotone(fs: seq<Fate>, m: nat, n: nat, t: DeviceType)
    requires m < n <= |fs|
    ensures KeptOf(fs, m, t) + (if KeptAs(fs[m], t) then 1 else 0) <= KeptOf(fs, n, t)
  {
    if m < n - 1 {
      KeptMonotone(fs, m, n - 1, t);
    }
  }

  /** Devices stand in probe order. */
  lemma PlaceMonotone(fs: seq<Fate>, m: nat, n: nat)
    requires m < n <= |fs| && !fs[m].Excluded?
    ensures Place(fs, m) < Place(fs, n)
  {
    KeptMonotone(fs, m, n, Rlht);
    KeptMonotone(fs, m, n, Dcmt);
  }

  /** The device of fate `m`. */
  function DeviceAt(fs: seq<Fate>, m: nat): InventoryDevice
    requires m < |fs| && !fs[m].Excluded?
  {
    Placed(fs[m], KeptOf(fs, m, fs[m].device.deviceType))
  }

  lemma {:induction false} SupportedAt(fs: seq<Fate>, m: nat, n: nat)
    requires m < n <= |fs| && !fs[m].Excluded?
    ensures Place(fs, m) < |SupportedOf(fs, n)| && SupportedOf(fs, n)[Place(fs, m)] == DeviceAt(fs, m)
  {
    Sizes(fs, m);
    if m < n - 1 {
      SupportedAt(fs, m, n - 1);
    }
  }

  /** Every device comes from one probe. */
  lemma {:induction false} SourceProbe(fs: seq<Fate>, n: nat, k: nat) returns (m: nat)
    requires n <= |fs| && k < |SupportedOf(fs, n)|
    ensures m < n && !fs[m].Excluded? && Place(fs, m) == k && SupportedOf(fs, n)[k] == DeviceAt(fs, m)
  {
    Sizes(fs, n - 1);
    if k < |SupportedOf(fs, n - 1)| {
      m := SourceProbe(fs, n - 1, k);
    } else {
      m := n - 1;
    }
  }

  lemma {:induction false} UnsupportedHas(fs: seq<Fate>, n: nat, m: nat)
    requires m < n <= |fs| && fs[m].Excluded?
    ensures fs[m].record in UnsupportedOf(fs, n)
  {
    if m < n - 1 {
      UnsupportedHas(fs, n - 1, m);
    }
  }

  lemma {:induction false} UnsupportedFrom(fs: seq<Fate>, n: nat, u: ProbeRecord) returns (m: nat)
    requires n <= |fs| && u in UnsupportedOf(fs, n)
    ensures m < n && fs[m] == Excluded(u)
  {
    if u in UnsupportedOf(fs, n - 1) {
      m := UnsupportedFrom(fs, n - 1, u);
    } else {
      m := n - 1;
    }
  }

  // ----- Partition ---------------------------------------------------------------------------

  /** What `Fates` and `Sort` provide: a fate per probe, probes in order and distinct. */
  predicate Settled(specs: seq<DeviceSpec>, ps: seq<ProbeRecord>, fs: seq<Fate>) {
    && Sorted(ps) && DistinctKeys(ps)
    && |fs| == |ps| && forall n | 0 <= n < |ps| :: Fits(specs, ps[n], fs[n])
  }

  /** Building is assembling the fates of the sorted probes. */
  lemma Settle(specs: seq<DeviceSpec>, probes: seq<ProbeRecord>, source: InventorySource)
    requires DistinctKeys(probes)
    ensures Settled(specs, Sort(probes), Fates(specs, source, Sort(probes)))
    ensures |Sort(probes)| == |probes|
  {
    SortDistinct(probes);
    SortContents(probes);
    assert |Sort(probes)| == |multiset(Sort(probes))| == |multiset(probes)|;
  }

  predicate IsDeviceFor(d: InventoryDevice, p: ProbeRecord) {
    d.address == p.address && TypeId(d.deviceType) == p.typeId
  }

  predicate IsExclusionOf(u: ProbeRecord, p: ProbeRecord) {
    u.address == p.address && u.typeId == p.typeId && u.status == Reason(p)
  }

  lemma SameProbe(ps: seq<ProbeRecord>, m: nat, n: nat)
    requires DistinctKeys(ps) && m < |ps| && n < |ps|
    requires ps[m].address == ps[n].address && ps[m].typeId == ps[n].typeId
    ensures m == n
  {
    assert Key(ps[m]) == Key(ps[n]);
  }

  /** The probe of a device, and its fate. */
  lemma ProbedAt(specs: seq<DeviceSpec>, ps: seq<ProbeRecord>, fs: seq<Fate>, k: nat) returns (m: nat)
    requires Settled(specs, ps, fs) && k < |SupportedOf(fs, |fs|)|
    ensures m < |fs| && !fs[m].Excluded? && Place(fs, m) == k && SupportedOf(fs, |fs|)[k] == DeviceAt(fs, m)
    ensures IsDeviceFor(DeviceAt(fs, m), ps[m])
  {
    m := SourceProbe(fs, |fs|, k);
    assert Fits(specs, ps[m], fs[m]);
  }

  lemma ExcludedIsNoDevice(specs: seq<DeviceSpec>, ps: seq<ProbeRecord>, fs: seq<Fate>, n: nat, d: InventoryDevice)
    requires Settled(specs, ps, fs) && n < |ps| && fs[n].Excluded?
    requires d in SupportedOf(fs, |fs|)
    ensures !IsDeviceFor(d, ps[n])
  {
    var k :| 0 <= k < |SupportedOf(fs, |fs|)| && SupportedOf(fs, |fs|)[k] == d;
    var m := ProbedAt(specs, ps, fs, k);
    if IsDeviceFor(d, ps[n]) {
      SameProbe(ps, m, n);
    }
  }

  lemma KeptIsNotExcluded(specs: seq<DeviceSpec>, ps: seq<ProbeRecord>, fs: seq<Fate>, n: nat, u: ProbeRecord)
    requires Settled(specs, ps, fs) && n < |ps| && !fs[n].Excluded?
    requires u in UnsupportedOf(fs, |fs|)
    ensures !IsExclusionOf(u, ps[n])
  {
    var m := UnsupportedFrom(fs, |fs|, u);
    assert Fits(specs, ps[m], fs[m]);
    if IsExclusionOf(u, ps[n]) {
      SameProbe(ps, m, n);
    }
  }

  ghost predicate HasDevice(ds: seq<InventoryDevice>, p: ProbeRecord) {
    exists d :: d in ds && IsDeviceFor(d, p)
  }

  ghost predicate HasExclusion(us: seq<ProbeRecord>, p: ProbeRecord) {
    exists u :: u in us && IsExclusionOf(u, p)
  }

  lemma PlacedByFate(specs: seq<DeviceSpec>, ps: seq<ProbeRecord>, fs: seq<Fate>, n: nat)
    requires Settled(specs, ps, fs) && n < |ps|
    ensures HasDevice(SupportedOf(fs, |fs|), ps[n]) <==> !fs[n].Excluded?
    ensures HasExclusion(UnsupportedOf(fs, |fs|), ps[n]) <==> fs[n].Excluded?
  {
    assert Fits(specs, ps[n], fs[n]);
    if fs[n].Excluded? {
      UnsupportedHas(fs, |fs|, n);
      assert IsExclusionOf(fs[n].record, ps[n]);
      forall d | d in SupportedOf(fs, |fs|) ensures !IsDeviceFor(d, ps[n]) {
        ExcludedIsNoDevice(specs, ps, fs, n, d);
      }
    } else {
      SupportedAt(fs, n, |fs|);
      assert IsDeviceFor(DeviceAt(fs, n), ps[n]);
      forall u | u in UnsupportedOf(fs, |fs|) ensures !IsExclusionOf(u, ps[n]) {
        KeptIsNotExcluded(specs, ps, fs, n, u);
      }
    }
  }

  /**
   Nothing is lost and nothing invented: the entries of the result are as many as the probes. A
   probe is a device, of its address and type, if and only if it is supported, its type is known
   and the configuration names no other type at its address; and it is excluded, with the reason,
   if and only if it is not.
   */
  lemma Partition(specs: seq<DeviceSpec>, probes: seq<ProbeRecord>, source: InventorySource, p: ProbeRecord)
    requires DistinctKeys(probes) && p in probes
    ensures var r := Build(specs, probes, source);
            && |r.supported| + |r.unsupported| == |probes|
            && (HasDevice(r.supported, p) <==> Accepted(specs, p))
            && (HasExclusion(r.unsupported, p) <==> !Accepted(specs, p))
  {
    var ps := Sort(probes);
    var fs := Fates(specs, source, ps);
    Settle(specs, probes, source);
    Sizes(fs, |fs|);
    SortMembers(probes, p);
    var n :| 0 <= n < |ps| && ps[n] == p;
    assert Fits(specs, ps[n], fs[n]);
    PlacedByFate(specs, ps, fs, n);
  }

  // ----- Configured devices ------------------------------------------------------------------

  predicate DistinctSpecs(specs: seq<DeviceSpec>) {
    forall i, j | 0 <= i < j < |specs| :: specs[i].id != specs[j].id && specs[i].address != specs[j].address
  }

  lemma {:induction false} MissingMembers(specs: seq<DeviceSpec>, fs: seq<Fate>, n: nat, id: string)
    requires n <= |specs|
    ensures id in MissingOf(specs, fs, n) <==> exists i :: 0 <= i < n && specs[i].id == id && !Matched(fs, i)
  {
    if n > 0 {
      MissingMembers(specs, fs, n - 1, id);
    }
  }

  predicate IsExpectedWith(d: InventoryDevice, id: string) {
    d.expected && d.id == id
  }

  /** Devices on which a configured id stands. */
  ghost function Holders(ds: seq<InventoryDevice>, id: string): set<nat> {
    set k | 0 <= k < |ds| && IsExpectedWith(ds[k], id)
  }

  lemma HolderIsMatch(specs: seq<DeviceSpec>, ps: seq<ProbeRecord>, fs: seq<Fate>, i: nat, k: nat) returns (m: nat)
    requires Settled(specs, ps, fs) && DistinctSpecs(specs) && i < |specs|
    requires k in Holders(SupportedOf(fs, |fs|), specs[i].id)
    ensures m < |fs| && MatchedBy(fs[m], i) && Place(fs, m) == k
  {
    m := SourceProbe(fs, |fs|, k);
    assert Fits(specs, ps[m], fs[m]);
  }

  lemma MatchIsUnique(specs: seq<DeviceSpec>, ps: seq<ProbeRecord>, fs: seq<Fate>, i: nat, m: nat, n: nat)
    requires Settled(specs, ps, fs) && DistinctSpecs(specs) && i < |specs|
    requires m < |fs| && MatchedBy(fs[m], i)
    requires n < |fs| && MatchedBy(fs[n], i)
    ensures m == n
  {
    assert Fits(specs, ps[m], fs[m]) && Fits(specs, ps[n], fs[n]);
    assert Key(ps[m]) == Key(ps[n]);
  }

  lemma HolderIsPlace(specs: seq<DeviceSpec>, ps: seq<ProbeRecord>, fs: seq<Fate>, i: nat, n: nat, k: nat)
    requires Settled(specs, ps, fs) && DistinctSpecs(specs) && i < |specs|
    requires n < |fs| && MatchedBy(fs[n], i) && k in Holders(SupportedOf(fs, |fs|), specs[i].id)
    ensures k == Place(fs, n)
  {
    var m := HolderIsMatch(specs, ps, fs, i, k);
    MatchIsUnique(specs, ps, fs, i, m, n);
  }

  /** The holder of a matched id is the device of its one match. */
  lemma MatchedHolders(specs: seq<DeviceSpec>, ps: seq<ProbeRecord>, fs: seq<Fate>, i: nat, n: nat)
    requires Settled(specs, ps, fs) && DistinctSpecs(specs) && i < |specs|
    requires n < |fs| && MatchedBy(fs[n], i)
    ensures Holders(SupportedOf(fs, |fs|), specs[i].id) == {Place(fs, n)}
  {
    var holders := Holders(SupportedOf(fs, |fs|), specs[i].id);
    SupportedAt(fs, n, |fs|);
    assert Fits(specs, ps[n], fs[n]);
    forall k | k in holders ensures k == Place(fs, n) {
      HolderIsPlace(specs, ps, fs, i, n, k);
    }
  }

  /** Some accepted probe is at the address of configured device `i`. */
  predicate Found(specs: seq<DeviceSpec>, probes: seq<ProbeRecord>, i: nat)
    requires i < |specs|
  {
    exists p :: p in probes && p.address == specs[i].address && Accepted(specs, p)
  }

  lemma MatchedIsFound(specs: seq<DeviceSpec>, probes: seq<ProbeRecord>, source: InventorySource, i: nat)
    requires DistinctSpecs(specs) && i < |specs|
    ensures Matched(Fates(specs, source, Sort(probes)), i) <==> Found(specs, probes, i)
  {
    var ps := Sort(probes);
    var fs := Fates(specs, source, ps);
    if Matched(fs, i) {
      var n :| 0 <= n < |fs| && MatchedBy(fs[n], i);
      assert Fits(specs, ps[n], fs[n]);
      SortMembers(probes, ps[n]);
    }
    if Found(specs, probes, i) {
      var p :| p in probes && p.address == specs[i].address && Accepted(specs, p);
      SortMembers(probes, p);
      var n :| 0 <= n < |ps| && ps[n] == p;
      assert Fits(specs, ps[n], fs[n]);
      assert MatchedBy(fs[n], i);
    }
  }

  /**
   A configured id is missing if and only if no accepted probe is at its address; otherwise it is on
   exactly one expected device.
   */
  lemma ConfiguredOnceOrMissing(specs: seq<DeviceSpec>, probes: seq<ProbeRecord>, source: InventorySource, i: nat)
    requires DistinctKeys(probes) && DistinctSpecs(specs) && i < |specs|
    ensures var r := Build(specs, probes, source);
            && (specs[i].id in r.missing <==> !Found(specs, probes, i))
            && |Holders(r.supported, specs[i].id)| == if specs[i].id in r.missing then 0 else 1
  {
    MatchedIsFound(specs, probes, source, i);
    var ps := Sort(probes);
    var fs := Fates(specs, source, ps);
    Settle(specs, probes, source);
    MissingMembers(specs, fs, |specs|, specs[i].id);
    assert specs[i].id in MissingOf(specs, fs, |specs|) <==> !Matched(fs, i);
    if Matched(fs, i) {
      var n :| 0 <= n < |fs| && MatchedBy(fs[n], i);
      MatchedHolders(specs, ps, fs, i, n);
    } else {
      UnmatchedHolders(specs, ps, fs, i);
    }
  }

  lemma UnmatchedHolders(specs: seq<DeviceSpec>, ps: seq<ProbeRecord>, fs: seq<Fate>, i: nat)
    requires Settled(specs, ps, fs) && DistinctSpecs(specs) && i < |specs| && !Matched(fs, i)
    ensures Holders(SupportedOf(fs, |fs|), specs[i].id) == {}
  {
    var holders := Holders(SupportedOf(fs, |fs|), specs[i].id);
    forall k ensures k !in holders {
      if k in holders {
        var m := HolderIsMatch(specs, ps, fs, i, k);
      }
    }
  }

  // ----- Generated ids -----------------------------------------------------------------------

  lemma {:induction false} DecimalInjective(m: nat, n: nat)
    requires Decimal(m) == Decimal(n)
    ensures m == n
  {
    var s := Decimal(m);
    if m < 10 && n < 10 {
      assert s[0] == Digit(m) == Digit(n);
    } else if m >= 10 && n >= 10 {
      assert s[|s| - 1] == Digit(m % 10) == Digit(n % 10);
      assert Decimal(m / 10) == s[..|s| - 1] == Decimal(n / 10);
      DecimalInjective(m / 10, n / 10);
    }
  }

  lemma GeneratedIdInjective(t: DeviceType, m: nat, u: DeviceType, n: nat)
    requires GeneratedId(t, m) == GeneratedId(u, n)
    ensures t == u && m == n
  {
    assert GeneratedId(t, m)[0] == GeneratedId(u, n)[0];
    assert GeneratedId(t, m)[4..] == Decimal(m) && GeneratedId(u, n)[4..] == Decimal(n);
    DecimalInjective(m, n);
  }

  /** Generated ids of different probes differ. */
  lemma GeneratedDistinct(fs: seq<Fate>, m: nat, n: nat)
    requires m < n < |fs| && fs[m].Extra? && fs[n].Extra?
    ensures DeviceAt(fs, m).id != DeviceAt(fs, n).id
  {
    var t, u := fs[m].device.deviceType, fs[n].device.deviceType;
    KeptMonotone(fs, m, n, t);
    if GeneratedId(t, KeptOf(fs, m, t)) == GeneratedId(u, KeptOf(fs, n, u)) {
      GeneratedIdInjective(t, KeptOf(fs, m, t), u, KeptOf(fs, n, u));
    }
  }

  /** No device that a configured id stands on shares it with an extra device. The code does not check this. */
  predicate Unclashing(fs: seq<Fate>) {
    forall m, n | 0 <= m < |fs| && 0 <= n < |fs| && fs[m].Expected? && fs[n].Extra? ::
      fs[m].device.id != DeviceAt(fs, n).id
  }

  /** Probes accepted as type `t` at addresses below `address`. */
  function CountBelow(specs: seq<DeviceSpec>, probes: seq<ProbeRecord>, address: byte, t: DeviceType): nat {
    if probes == [] then 0
    else
      var p := probes[|probes| - 1];
      CountBelow(specs, probes[..|probes| - 1], address, t) + if p.address < address && Accepts(specs, p, t) then 1 else 0
  }

  /** A probe that becomes a device with a generated id. */
  predicate IsExtra(specs: seq<DeviceSpec>, p: ProbeRecord, t: DeviceType) {
    Accepts(specs, p, t) && forall i | 0 <= i < |specs| :: specs[i].address != p.address
  }

  /**
   No configured id whose device is found equals the id generated for an extra device: its type and
   the number of accepted probes of that type at lower addresses. The code does not check this.
   */
  ghost predicate NoIdClash(specs: seq<DeviceSpec>, probes: seq<ProbeRecord>) {
    forall i, p, t | 0 <= i < |specs| && p in probes && IsExtra(specs, p, t) && Found(specs, probes, i) ::
      specs[i].id != GeneratedId(t, CountBelow(specs, probes, p.address, t))
  }

  lemma {:induction false} CountBelowConcat(
    specs: seq<DeviceSpec>, a: seq<ProbeRecord>, b: seq<ProbeRecord>, address: byte, t: DeviceType)
    ensures CountBelow(specs, a + b, address, t) == CountBelow(specs, a, address, t) + CountBelow(specs, b, address, t)
  {
    if b == [] {
      assert a + b == a;
    } else {
      CountBelowConcat(specs, a, b[..|b| - 1], address, t);
      assert (a + b)[..|a + b| - 1] == a + b[..|b| - 1];
    }
  }

  lemma CountBelowSplice(
    specs: seq<DeviceSpec>, a: seq<ProbeRecord>, p: ProbeRecord, b: seq<ProbeRecord>, address: byte, t: DeviceType)
    ensures CountBelow(specs, a + [p] + b, address, t)
            == CountBelow(specs, a + b, address, t) + CountBelow(specs, [p], address, t)
  {
    CountBelowConcat(specs, a + [p], b, address, t);
    CountBelowConcat(specs, a, [p], address, t);
    CountBelowConcat(specs, a, b, address, t);
  }

  lemma CountBelowInsert(specs: seq<DeviceSpec>, ps: seq<ProbeRecord>, p: ProbeRecord, address: byte, t: DeviceType)
    requires Sorted(ps)
    ensures CountBelow(specs, Insert(ps, p), address, t)
            == CountBelow(specs, ps, address, t) + CountBelow(specs, [p], address, t)
  {
    var n := Position(ps, Key(p));
    CountBelowSplice(specs, ps[..n], p, ps[n..], address, t);
    assert ps == ps[..n] + ps[n..];
  }

  /** The count does not depend on the order of the probes. */
  lemma {:induction false} CountBelowSort(
    specs: seq<DeviceSpec>, probes: seq<ProbeRecord>, address: byte, t: DeviceType)
    ensures CountBelow(specs, Sort(probes), address, t) == CountBelow(specs, probes, address, t)
  {
    if probes != [] {
      var rest, p := probes[..|probes| - 1], probes[|probes| - 1];
      CountBelowSort(specs, rest, address, t);
      CountBelowInsert(specs, Sort(rest), p, address, t);
      CountBelowConcat(specs, rest, [p], address, t);
      assert probes == rest + [p];
    }
  }

  lemma CountBelowPrefix(specs: seq<DeviceSpec>, ps: seq<ProbeRecord>, m: nat, address: byte, t: DeviceType)
    requires 0 < m <= |ps|
    ensures CountBelow(specs, ps[..m], address, t)
            == CountBelow(specs, ps[..m - 1], address, t)
               + if ps[m - 1].address < address && Accepts(specs, ps[m - 1], t) then 1 else 0
  {
    assert ps[..m][..m - 1] == ps[..m - 1];
  }

  /** In sorted order, the kept fates before fate `n` are the accepted probes below it. */
  lemma {:induction false} KeptIsCount(
    specs: seq<DeviceSpec>, ps: seq<ProbeRecord>, fs: seq<Fate>, n: nat, t: DeviceType, m: nat)
    requires Settled(specs, ps, fs) && n < |ps| && m <= |ps| && KeptAs(fs[n], t)
    ensures CountBelow(specs, ps[..m], ps[n].address, t) == KeptOf(fs, if m < n then m else n, t)
  {
    if m > 0 {
      KeptIsCount(specs, ps, fs, n, t, m - 1);
      CountBelowPrefix(specs, ps, m, ps[n].address, t);
      CountedIffKept(specs, ps, fs, n, t, m - 1);
    }
  }

  lemma CountedIffKept(specs: seq<DeviceSpec>, ps: seq<ProbeRecord>, fs: seq<Fate>, n: nat, t: DeviceType, m: nat)
    requires Settled(specs, ps, fs) && n < |ps| && m < |ps| && KeptAs(fs[n], t)
    ensures (ps[m].address < ps[n].address && Accepts(specs, ps[m], t)) <==> (m < n && KeptAs(fs[m], t))
  {
    assert Fits(specs, ps[m], fs[m]) && Fits(specs, ps[n], fs[n]);
    assert m < n ==> Key(ps[m]) <= Key(ps[n]) && Key(ps[m]) != Key(ps[n]);
    assert n < m ==> Key(ps[n]) <= Key(ps[m]);
    AcceptedType(specs, ps[m], t);
    AcceptedType(specs, ps[n], t);
  }

  lemma AcceptedType(specs: seq<DeviceSpec>, p: ProbeRecord, t: DeviceType)
    ensures Accepts(specs, p, t) ==> p.typeId == TypeId(t)
  {
  }

  /** The index in the id of an extra device is the count of its type below it, among the probes as given. */
  lemma IndexIsCount(specs: seq<DeviceSpec>, probes: seq<ProbeRecord>, source: InventorySource, n: nat)
    requires DistinctKeys(probes) && n < |Sort(probes)| && Fates(specs, source, Sort(probes))[n].Extra?
    ensures var fs, p := Fates(specs, source, Sort(probes)), Sort(probes)[n];
            var t := fs[n].device.deviceType;
            IsExtra(specs, p, t) && DeviceAt(fs, n).id == GeneratedId(t, CountBelow(specs, probes, p.address, t))
  {
    var ps := Sort(probes);
    var fs := Fates(specs, source, ps);
    Settle(specs, probes, source);
    assert Fits(specs, ps[n], fs[n]);
    KeptIsCount(specs, ps, fs, n, fs[n].device.deviceType, |ps|);
    assert ps[..|ps|] == ps;
    CountBelowSort(specs, probes, ps[n].address, fs[n].device.deviceType);
  }

  /** The condition on the inputs says that no two fates clash. */
  lemma ClashIsInInputs(specs: seq<DeviceSpec>, probes: seq<ProbeRecord>, source: InventorySource)
    requires DistinctKeys(probes) && DistinctSpecs(specs)
    ensures NoIdClash(specs, probes) <==> Unclashing(Fates(specs, source, Sort(probes)))
  {
    var ps := Sort(probes);
    var fs := Fates(specs, source, ps);
    if NoIdClash(specs, probes) {
      forall m, n | 0 <= m < |fs| && 0 <= n < |fs| && fs[m].Expected? && fs[n].Extra?
        ensures fs[m].device.id != DeviceAt(fs, n).id
      {
        InputsApart(specs, probes, source, m, n);
      }
    } else {
      ClashInFates(specs, probes, source);
    }
  }

  lemma InputsApart(specs: seq<DeviceSpec>, probes: seq<ProbeRecord>, source: InventorySource, m: nat, n: nat)
    requires DistinctKeys(probes) && DistinctSpecs(specs) && NoIdClash(specs, probes)
    requires var fs := Fates(specs, source, Sort(probes)); m < |fs| && n < |fs| && fs[m].Expected? && fs[n].Extra?
    ensures var fs := Fates(specs, source, Sort(probes)); fs[m].device.id != DeviceAt(fs, n).id
  {
    var ps := Sort(probes);
    var fs := Fates(specs, source, ps);
    assert Fits(specs, ps[m], fs[m]);
    IndexIsCount(specs, probes, source, n);
    SortMembers(probes, ps[n]);
    assert MatchedBy(fs[m], fs[m].spec);
    MatchedIsFound(specs, probes, source, fs[m].spec);
  }

  /** The fate of an extra probe, and the id it gets. */
  lemma ExtraFate(
    specs: seq<DeviceSpec>, probes: seq<ProbeRecord>, source: InventorySource, p: ProbeRecord, t: DeviceType)
    returns (n: nat)
    requires DistinctKeys(probes) && p in probes && IsExtra(specs, p, t)
    ensures var fs := Fates(specs, source, Sort(probes));
            n < |fs| && fs[n].Extra? && DeviceAt(fs, n).id == GeneratedId(t, CountBelow(specs, probes, p.address, t))
  {
    var ps := Sort(probes);
    SortMembers(probes, p);
    n :| 0 <= n < |ps| && ps[n] == p;
    assert Fits(specs, ps[n], Fates(specs, source, ps)[n]);
    IndexIsCount(specs, probes, source, n);
  }

  /** The fate of the probe of a configured device that is found. */
  lemma FoundFate(specs: seq<DeviceSpec>, probes: seq<ProbeRecord>, source: InventorySource, i: nat) returns (m: nat)
    requires DistinctSpecs(specs) && i < |specs| && Found(specs, probes, i)
    ensures var fs := Fates(specs, source, Sort(probes));
            m < |fs| && fs[m].Expected? && fs[m].device.id == specs[i].id
  {
    var fs := Fates(specs, source, Sort(probes));
    MatchedIsFound(specs, probes, source, i);
    m :| 0 <= m < |fs| && MatchedBy(fs[m], i);
    assert Fits(specs, Sort(probes)[m], fs[m]);
  }

  lemma ClashInFates(specs: seq<DeviceSpec>, probes: seq<ProbeRecord>, source: InventorySource)
    requires DistinctKeys(probes) && DistinctSpecs(specs) && !NoIdClash(specs, probes)
    ensures !Unclashing(Fates(specs, source, Sort(probes)))
  {
    var i, p, t :| 0 <= i < |specs| && p in probes && IsExtra(specs, p, t) && Found(specs, probes, i)
      && specs[i].id == GeneratedId(t, CountBelow(specs, probes, p.address, t));
    var m := FoundFate(specs, probes, source, i);
    var n := ExtraFate(specs, probes, source, p, t);
  }

  lemma ConfiguredDiffer(specs: seq<DeviceSpec>, ps: seq<ProbeRecord>, fs: seq<Fate>, m: nat, n: nat)
    requires Settled(specs, ps, fs) && DistinctSpecs(specs)
    requires m < |fs| && n < |fs| && m != n && fs[m].Expected? && fs[n].Expected?
    ensures fs[m].device.id != fs[n].device.id
  {
    assert Fits(specs, ps[m], fs[m]) && Fits(specs, ps[n], fs[n]);
    if fs[m].spec == fs[n].spec {
      MatchIsUnique(specs, ps, fs, fs[m].spec, m, n);
    }
  }

  lemma IdsDiffer(specs: seq<DeviceSpec>, ps: seq<ProbeRecord>, fs: seq<Fate>, m: nat, n: nat)
    requires Settled(specs, ps, fs) && DistinctSpecs(specs) && Unclashing(fs)
    requires m < |fs| && n < |fs| && m != n && !fs[m].Excluded? && !fs[n].Excluded?
    ensures DeviceAt(fs, m).id != DeviceAt(fs, n).id
  {
    if fs[m].Extra? && fs[n].Extra? {
      if m < n {
        GeneratedDistinct(fs, m, n);
      } else {
        GeneratedDistinct(fs, n, m);
      }
    } else if fs[m].Expected? && fs[n].Expected? {
      ConfiguredDiffer(specs, ps, fs, m, n);
    }
  }

  /** Device ids are pairwise distinct exactly when no configured id that is found equals a generated one. */
  lemma DistinctIdsIff(specs: seq<DeviceSpec>, probes: seq<ProbeRecord>, source: InventorySource)
    requires DistinctKeys(probes) && DistinctSpecs(specs)
    ensures DistinctIds(Build(specs, probes, source).supported) <==> NoIdClash(specs, probes)
  {
    var ps := Sort(probes);
    var fs := Fates(specs, source, ps);
    Settle(specs, probes, source);
    ClashIsInInputs(specs, probes, source);
    if Unclashing(fs) {
      UnclashingIsDistinct(specs, ps, fs);
    } else {
      ClashIsNotDistinct(fs);
    }
  }

  /** No configured id has the form of a generated one; a check of the configuration alone. */
  ghost predicate PlainIds(specs: seq<DeviceSpec>) {
    forall i, t, k: nat | 0 <= i < |specs| :: specs[i].id != GeneratedId(t, k)
  }

  /** Then device ids are distinct whatever is found on the bus. */
  lemma PlainIdsAreDistinct(specs: seq<DeviceSpec>, probes: seq<ProbeRecord>, source: InventorySource)
    requires DistinctKeys(probes) && DistinctSpecs(specs) && PlainIds(specs)
    ensures DistinctIds(Build(specs, probes, source).supported)
  {
    DistinctIdsIff(specs, probes, source);
  }

  /** Configured fates make expected devices, extra ones make unexpected devices. */
  predicate Labelled(fs: seq<Fate>) {
    forall n | 0 <= n < |fs| && !fs[n].Excluded? :: fs[n].Expected? <==> fs[n].device.expected
  }

  lemma ExtrasApart(fs: seq<Fate>, k: nat, l: nat)
    requires Labelled(fs) && k < l < |SupportedOf(fs, |fs|)|
    ensures var ds := SupportedOf(fs, |fs|);
            !ds[k].expected && !ds[l].expected ==> ds[k].id != ds[l].id
  {
    var m := SourceProbe(fs, |fs|, k);
    var n := SourceProbe(fs, |fs|, l);
    if fs[m].Extra? && fs[n].Extra? {
      if m < n {
        GeneratedDistinct(fs, m, n);
      } else {
        GeneratedDistinct(fs, n, m);
      }
    }
  }

  /** Generated ids of different devices differ, whatever the configuration. */
  lemma GeneratedIdsDistinct(
    specs: seq<DeviceSpec>, probes: seq<ProbeRecord>, source: InventorySource, k: nat, l: nat)
    requires k < l < |Build(specs, probes, source).supported|
    ensures var ds := Build(specs, probes, source).supported;
            !ds[k].expected && !ds[l].expected ==> ds[k].id != ds[l].id
  {
    var ps := Sort(probes);
    var fs := Fates(specs, source, ps);
    assert Labelled(fs) by {
      forall n | 0 <= n < |fs| ensures Fits(specs, ps[n], fs[n]) {}
    }
    ExtrasApart(fs, k, l);
  }

  lemma UnclashingIsDistinct(specs: seq<DeviceSpec>, ps: seq<ProbeRecord>, fs: seq<Fate>)
    requires Settled(specs, ps, fs) && DistinctSpecs(specs) && Unclashing(fs)
    ensures DistinctIds(SupportedOf(fs, |fs|))
  {
    var ds := SupportedOf(fs, |fs|);
    forall k, l | 0 <= k < l < |ds| ensures ds[k].id != ds[l].id {
      PlacesDiffer(specs, ps, fs, k, l);
    }
  }

  lemma PlacesDiffer(specs: seq<DeviceSpec>, ps: seq<ProbeRecord>, fs: seq<Fate>, k: nat, l: nat)
    requires Settled(specs, ps, fs) && DistinctSpecs(specs) && Unclashing(fs)
    requires k < l < |SupportedOf(fs, |fs|)|
    ensures SupportedOf(fs, |fs|)[k].id != SupportedOf(fs, |fs|)[l].id
  {
    var m := SourceProbe(fs, |fs|, k);
    var n := SourceProbe(fs, |fs|, l);
    IdsDiffer(specs, ps, fs, m, n);
  }

  lemma ClashIsNotDistinct(fs: seq<Fate>)
    requires !Unclashing(fs)
    ensures !DistinctIds(SupportedOf(fs, |fs|))
  {
    var m, n :| 0 <= m < |fs| && 0 <= n < |fs| && fs[m].Expected? && fs[n].Extra?
      && fs[m].device.id == DeviceAt(fs, n).id;
    SupportedAt(fs, m, |fs|);
    SupportedAt(fs, n, |fs|);
    if m < n {
      PlaceMonotone(fs, m, n);
    } else {
      PlaceMonotone(fs, n, m);
    }
  }

  /** The clash is real: a device configured as "rlht1" and one extra RLHT behind it share an id. */
  lemma IdClashExample() returns (specs: seq<DeviceSpec>, probes: seq<ProbeRecord>)
    ensures DistinctKeys(probes) && DistinctSpecs(specs) && !NoIdClash(specs, probes)
    ensures !DistinctIds(Build(specs, probes, Discovered).supported)
  {
    specs := [DeviceSpec("rlht1", Rlht, "", 0x10, 0, true)];
    var version, profile := ModuleVersion(1600, 1, 0, 0), Profile(1, 1, {}, Queried);
    var p0 := ProbeRecord(0x10, RLHT_TYPE_ID, Supported, version, profile, "probed");
    var p1 := ProbeRecord(0x20, RLHT_TYPE_ID, Supported, version, profile, "probed");
    probes := [p0, p1];
    assert Accepts(specs, p0, Rlht) && IsExtra(specs, p1, Rlht) && Found(specs, probes, 0);
    assert CountBelow(specs, [p0], 0x20, Rlht) == 1 by {
      assert [p0][..0] == [];
    }
    assert CountBelow(specs, probes, 0x20, Rlht) == 1 by {
      assert probes[..1] == [p0];
    }
    assert GeneratedId(Rlht, 1) == "rlht1";
    assert specs[0].id == GeneratedId(Rlht, CountBelow(specs, probes, p1.address, Rlht));
    DistinctIdsIff(specs, probes, Discovered);
  }

  // ----- Generated indices -------------------------------------------------------------------

  /** Devices of type `t` among the first `k`. */
  function CountType(ds: seq<InventoryDevice>, k: nat, t: DeviceType): nat
    requires k <= |ds|
  {
    if k == 0 then 0 else CountType(ds, k - 1, t) + if ds[k - 1].deviceType == t then 1 else 0
  }

  /** Counting up to a device is counting the kept fates before it. */
  lemma {:induction false} CountTypeIsKept(fs: seq<Fate>, ds: seq<InventoryDevice>, n: nat, t: DeviceType)
    requires n <= |fs| && ds == SupportedOf(fs, |fs|)
    ensures Place(fs, n) <= |ds| && CountType(ds, Place(fs, n), t) == KeptOf(fs, n, t)
  {
    if n > 0 {
      CountTypeIsKept(fs, ds, n - 1, t);
      if !fs[n - 1].Excluded? {
        SupportedAt(fs, n - 1, |fs|);
      }
    } else {
      Sizes(fs, |fs|);
    }
  }

  /** Devices of one type stand in address order. */
  lemma AddressOrder(specs: seq<DeviceSpec>, ps: seq<ProbeRecord>, fs: seq<Fate>, k: nat, l: nat)
    requires Settled(specs, ps, fs) && k < l < |SupportedOf(fs, |fs|)|
    requires SupportedOf(fs, |fs|)[k].deviceType == SupportedOf(fs, |fs|)[l].deviceType
    ensures SupportedOf(fs, |fs|)[k].address < SupportedOf(fs, |fs|)[l].address
  {
    var m := ProbedAt(specs, ps, fs, k);
    var n := ProbedAt(specs, ps, fs, l);
    if n < m {
      PlaceMonotone(fs, n, m);
    }
    LowerAddress(ps, m, n);
  }

  lemma LowerAddress(ps: seq<ProbeRecord>, m: nat, n: nat)
    requires Sorted(ps) && DistinctKeys(ps) && m < n < |ps| && ps[m].typeId == ps[n].typeId
    ensures ps[m].address < ps[n].address
  {
    assert Key(ps[m]) <= Key(ps[n]) && Key(ps[m]) != Key(ps[n]);
  }

  /** The index in a generated id counts the devices of its type at lower addresses. */
  lemma GeneratedIndexCounts(specs: seq<DeviceSpec>, probes: seq<ProbeRecord>, source: InventorySource, k: nat)
    requires DistinctKeys(probes) && k < |Build(specs, probes, source).supported|
    ensures var ds := Build(specs, probes, source).supported;
            && (!ds[k].expected ==>
                  ds[k].id == GeneratedId(ds[k].deviceType, CountType(ds, k, ds[k].deviceType)))
            && (forall l | 0 <= l < |ds| && ds[l].deviceType == ds[k].deviceType ::
                  l < k <==> ds[l].address < ds[k].address)
  {
    var ps := Sort(probes);
    var fs := Fates(specs, source, ps);
    var ds := SupportedOf(fs, |fs|);
    Settle(specs, probes, source);
    var m := SourceProbe(fs, |fs|, k);
    assert Fits(specs, ps[m], fs[m]);
    CountTypeIsKept(fs, ds, m, ds[k].deviceType);
    forall l | 0 <= l < |ds| && ds[l].deviceType == ds[k].deviceType
      ensures l < k <==> ds[l].address < ds[k].address
    {
      if l < k {
        AddressOrder(specs, ps, fs, l, k);
      } else if k < l {
        AddressOrder(specs, ps, fs, k, l);
      }
    }
  }

  /** Every entry of the inventory publishes exactly what its flags and encoders offer. */
  lemma BuildIsFaithful(specs: seq<DeviceSpec>, probes: seq<ProbeRecord>, source: InventorySource, d: InventoryDevice)
    requires d in Build(specs, probes, source).supported
    ensures Faithful(d)
  {
    var ps := Sort(probes);
    var fs := Fates(specs, source, ps);
    var ds := SupportedOf(fs, |fs|);
    var k :| 0 <= k < |ds| && ds[k] == d;
    var m := SourceProbe(fs, |fs|, k);
    assert Fits(specs, ps[m], fs[m]);
  }

  /** The configuration of an entry: the first spec at its address, or none and the defaults. */
  predicate Configured(specs: seq<DeviceSpec>, d: InventoryDevice) {
    match FindSpec(specs, d.address)
    case Some(i) => FollowsSpec(d, specs[i])
    case None => !d.expected && d.watchdogMs == 0 && d.encoders
  }

  /**
   Every entry comes from an accepted probe of its address and type, whose version it carries and
   whose profile if that was queried; watchdog timeout, encoders, id and label are those of the
   configuration at its address, or the defaults of an extra device.
   */
  lemma BuildEntry(specs: seq<DeviceSpec>, probes: seq<ProbeRecord>, source: InventorySource, d: InventoryDevice)
    returns (p: ProbeRecord)
    requires d in Build(specs, probes, source).supported
    ensures p in probes && Accepts(specs, p, d.deviceType)
    ensures TakesFrom(d, p) && Configured(specs, d) && Faithful(d) && d.source == source
  {
    var ps := Sort(probes);
    var fs := Fates(specs, source, ps);
    var ds := SupportedOf(fs, |fs|);
    var k :| 0 <= k < |ds| && ds[k] == d;
    var m := SourceProbe(fs, |fs|, k);
    p := ps[m];
    assert Fits(specs, p, fs[m]);
    SortMembers(probes, p);
  }

  /** A configured id whose device is found is on an entry that follows its spec, and its probe. */
  lemma ConfiguredEntry(specs: seq<DeviceSpec>, probes: seq<ProbeRecord>, source: InventorySource, i: nat)
    returns (d: InventoryDevice, p: ProbeRecord)
    requires DistinctSpecs(specs) && i < |specs| && Found(specs, probes, i)
    ensures d in Build(specs, probes, source).supported && FollowsSpec(d, specs[i])
    ensures p in probes && p.address == specs[i].address && Accepted(specs, p) && TakesFrom(d, p)
  {
    var ps := Sort(probes);
    var fs := Fates(specs, source, ps);
    MatchedIsFound(specs, probes, source, i);
    var n :| 0 <= n < |fs| && MatchedBy(fs[n], i);
    assert Fits(specs, ps[n], fs[n]);
    SupportedAt(fs, n, |fs|);
    SortMembers(probes, ps[n]);
    d, p := DeviceAt(fs, n), ps[n];
  }

  /** The configured ids among the first `n` whose device is not found, in the order of the configuration. */
  function NotFound(specs: seq<DeviceSpec>, probes: seq<ProbeRecord>, n: nat): seq<string>
    requires n <= |specs|
  {
    if n == 0 then []
    else NotFound(specs, probes, n - 1) + if Found(specs, probes, n - 1) then [] else [specs[n - 1].id]
  }

  lemma {:induction false} MissingIsNotFound(
    specs: seq<DeviceSpec>, probes: seq<ProbeRecord>, source: InventorySource, n: nat)
    requires DistinctSpecs(specs) && n <= |specs|
    ensures MissingOf(specs, Fates(specs, source, Sort(probes)), n) == NotFound(specs, probes, n)
  {
    if n > 0 {
      MissingIsNotFound(specs, probes, source, n - 1);
      MatchedIsFound(specs, probes, source, n - 1);
    }
  }

  /** The missing list names the configured devices that are not found, in the order of the configuration. */
  lemma MissingInOrder(specs: seq<DeviceSpec>, probes: seq<ProbeRecord>, source: InventorySource)
    requires DistinctSpecs(specs)
    ensures Build(specs, probes, source).missing == NotFound(specs, probes, |specs|)
  {
    MissingIsNotFound(specs, probes, source, |specs|);
  }

  // ----- Why a configured device is missing --------------------------------------------------

  lemma {:induction false} FirstAtOnly(us: seq<ProbeRecord>, address: byte, u: ProbeRecord)
    requires u in us && u.address == address
    requires forall v | v in us && v.address == address :: v == u
    ensures FirstAt(us, address) == Some(u)
  {
    if us[0].address != address {
      FirstAtOnly(us[1..], address, u);
    }
  }

  lemma {:induction false} FirstAtNone(us: seq<ProbeRecord>, address: byte)
    requires forall v | v in us :: v.address != address
    ensures FirstAt(us, address) == None
  {
    if us != [] {
      FirstAtNone(us[1..], address);
    }
  }

  lemma {:induction false} DetailOf(
    specs: seq<DeviceSpec>, fs: seq<Fate>, us: seq<ProbeRecord>, n: nat, i: nat)
    requires DistinctSpecs(specs) && n <= |specs| && i < |specs|
    ensures var m, u := DetailsOf(specs, fs, us, n), FirstAt(us, specs[i].address);
            if i < n && !Matched(fs, i) && u.Some?
            then specs[i].id in m && m[specs[i].id] == ProbeFailed(u.value.status, u.value.detail)
            else specs[i].id !in m
  {
    if n > 0 {
      DetailOf(specs, fs, us, n - 1, i);
      assert n - 1 != i ==> specs[n - 1].id != specs[i].id;
    }
  }

  /** The exclusion at an address, when one probe was made there. */
  lemma ExclusionAt(specs: seq<DeviceSpec>, ps: seq<ProbeRecord>, fs: seq<Fate>, n: nat)
    requires Settled(specs, ps, fs) && DistinctProbeAddresses(ps) && n < |ps| && fs[n].Excluded?
    ensures FirstAt(UnsupportedOf(fs, |fs|), ps[n].address) == Some(fs[n].record)
  {
    var us := UnsupportedOf(fs, |fs|);
    UnsupportedHas(fs, |fs|, n);
    assert Fits(specs, ps[n], fs[n]);
    forall v | v in us && v.address == ps[n].address ensures v == fs[n].record {
      var m := UnsupportedFrom(fs, |fs|, v);
      assert Fits(specs, ps[m], fs[m]);
      assert m == n;
    }
    FirstAtOnly(us, ps[n].address, fs[n].record);
  }

  lemma NoExclusionAt(specs: seq<DeviceSpec>, ps: seq<ProbeRecord>, fs: seq<Fate>, address: byte)
    requires Settled(specs, ps, fs) && forall n | 0 <= n < |ps| :: ps[n].address != address
    ensures FirstAt(UnsupportedOf(fs, |fs|), address) == None
  {
    forall v | v in UnsupportedOf(fs, |fs|) ensures v.address != address {
      var m := UnsupportedFrom(fs, |fs|, v);
      assert Fits(specs, ps[m], fs[m]);
    }
    FirstAtNone(UnsupportedOf(fs, |fs|), address);
  }

  /** The detail names the status and, for a probe that failed itself, its own words. */
  predicate Explains(detail: MissingDetail, p: ProbeRecord) {
    detail.ProbeFailed? && detail.status == Reason(p) && (!p.status.Supported? ==> detail.detail == p.detail)
  }

  /**
   With one probe per address: a missing device has a detail if and only if its address was probed,
   and the detail is why that probe was excluded. A device that is found has none.
   */
  lemma MissingDetails(specs: seq<DeviceSpec>, probes: seq<ProbeRecord>, source: InventorySource, i: nat)
    requires DistinctProbeAddresses(probes) && DistinctSpecs(specs) && i < |specs|
    ensures var details, id := Build(specs, probes, source).details, specs[i].id;
            && (forall p | p in probes && p.address == specs[i].address ::
                  if Accepted(specs, p) then id !in details else id in details && Explains(details[id], p))
            && (id in details ==> exists p :: p in probes && p.address == specs[i].address)
  {
    var ps := Sort(probes);
    var fs := Fates(specs, source, ps);
    var us, details, id := UnsupportedOf(fs, |fs|), Build(specs, probes, source).details, specs[i].id;
    assert DistinctKeys(probes);
    Settle(specs, probes, source);
    SortKeepsAddresses(probes);
    MatchedIsFound(specs, probes, source, i);
    DetailOf(specs, fs, us, |specs|, i);
    forall p | p in probes && p.address == specs[i].address
      ensures if Accepted(specs, p) then id !in details else id in details && Explains(details[id], p)
    {
      SortMembers(probes, p);
      var n :| 0 <= n < |ps| && ps[n] == p;
      DetailAt(specs, probes, source, i, n);
    }
    if forall n | 0 <= n < |ps| :: ps[n].address != specs[i].address {
      NoExclusionAt(specs, ps, fs, specs[i].address);
    } else {
      var n :| 0 <= n < |ps| && ps[n].address == specs[i].address;
      SortMembers(probes, ps[n]);
    }
  }

  lemma DetailAt(specs: seq<DeviceSpec>, probes: seq<ProbeRecord>, source: InventorySource, i: nat, n: nat)
    requires DistinctProbeAddresses(probes) && DistinctSpecs(specs) && i < |specs|
    requires n < |Sort(probes)| && Sort(probes)[n].address == specs[i].address
    ensures var p := Sort(probes)[n];
            var details, id := Build(specs, probes, source).details, specs[i].id;
            if Accepted(specs, p) then id !in details else id in details && Explains(details[id], p)
  {
    var ps := Sort(probes);
    var fs := Fates(specs, source, ps);
    assert DistinctKeys(probes);
    Settle(specs, probes, source);
    SortKeepsAddresses(probes);
    DetailOf(specs, fs, UnsupportedOf(fs, |fs|), |specs|, i);
    assert Fits(specs, ps[n], fs[n]);
    if Accepted(specs, ps[n]) {
      assert MatchedBy(fs[n], i);
    } else {
      ExclusionAt(specs, ps, fs, n);
      UnmatchedElsewhere(specs, ps, fs, i, n);
    }
  }

  lemma UnmatchedElsewhere(specs: seq<DeviceSpec>, ps: seq<ProbeRecord>, fs: seq<Fate>, i: nat, n: nat)
    requires Settled(specs, ps, fs) && DistinctProbeAddresses(ps) && i < |specs|
    requires n < |ps| && ps[n].address == specs[i].address && fs[n].Excluded?
    ensures !Matched(fs, i)
  {
    forall m | 0 <= m < |fs| ensures !MatchedBy(fs[m], i) {
      assert Fits(specs, ps[m], fs[m]);
      assert m != n ==> ps[m].address != ps[n].address;
    }
  }

  predicate DistinctProbeAddresses(ps: seq<ProbeRecord>) {
    forall i, j | 0 <= i < j < |ps| :: ps[i].address != ps[j].address
  }

  lemma SortKeepsAddresses(probes: seq<ProbeRecord>)
    requires DistinctProbeAddresses(probes)
    ensures DistinctProbeAddresses(Sort(probes))
  {
    var ps := Sort(probes);
    assert DistinctKeys(probes);
    SortDistinct(probes);
    forall i, j | 0 <= i < j < |ps| ensures ps[i].address != ps[j].address {
      assert Key(ps[i]) != Key(ps[j]);
      SortMembers(probes, ps[i]);
      SortMembers(probes, ps[j]);
    }
  }

  /** One probe per address and no id clash: the devices differ in id and in address. */
  lemma BuildDevicesDistinct(specs: seq<DeviceSpec>, probes: seq<ProbeRecord>, source: InventorySource)
    requires DistinctProbeAddresses(probes) && DistinctSpecs(specs) && NoIdClash(specs, probes)
    ensures DistinctDevices(Build(specs, probes, source).supported)
  {
    var ps := Sort(probes);
    var fs := Fates(specs, source, ps);
    var ds := SupportedOf(fs, |fs|);
    assert DistinctKeys(probes);
    Settle(specs, probes, source);
    ClashIsInInputs(specs, probes, source);
    UnclashingIsDistinct(specs, ps, fs);
    SortKeepsAddresses(probes);
    forall k, l | 0 <= k < l < |ds| ensures ds[k].address != ds[l].address {
      PlacesApart(specs, ps, fs, k, l);
    }
  }

  lemma PlacesApart(specs: seq<DeviceSpec>, ps: seq<ProbeRecord>, fs: seq<Fate>, k: nat, l: nat)
    requires Settled(specs, ps, fs) && DistinctProbeAddresses(ps) && k < l < |SupportedOf(fs, |fs|)|
    ensures SupportedOf(fs, |fs|)[k].address != SupportedOf(fs, |fs|)[l].address
  {
    var m := ProbedAt(specs, ps, fs, k);
    var n := ProbedAt(specs, ps, fs, l);
    assert m != n;
  }
}
