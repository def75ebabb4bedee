/**
 Stale replies over a whole discovery: when no real answer is preceded by more than two stale
 replies, discovery reports what it would report on a bus without any.
 */
module StaleDiscovery {
  import opened Bytes
  import opened Protocol
  import opened Inventory
  import opened Startup
  import opened Discovery

  /** What the bus has to say to one probe. */
  datatype Exchange = Exchange(staleVersion: seq<Answer>, version: Answer, staleCaps: seq<Answer>, caps: Answer)

  predicate Tolerable(x: Exchange) {
    && |x.staleVersion| <= 2 && AllStale(x.staleVersion, OP_GET_VERSION)
    && !Stale(x.version, OP_GET_VERSION)
    && |x.staleCaps| <= 2 && AllStale(x.staleCaps, OP_GET_CAPS)
    && !Stale(x.caps, OP_GET_CAPS)
  }

  /** The same exchange without stale replies. */
  function Prompt(x: Exchange): Exchange {
    x.(staleVersion := [], staleCaps := [])
  }

  /** The record the real answers decide. */
  function Decided(c: Contracts, address: byte, x: Exchange): ProbeRecord {
    var p := Gate(c, address, x.version);
    if p.status.Supported? && ParseType(p.typeId).Some?
    then p.(profile := Refine(c, ParseType(p.typeId).value, x.caps)) else p
  }

  /** Whether a probe goes on to the caps query; this does not depend on the address. */
  predicate GoesOn(c: Contracts, x: Exchange) {
    Gate(c, 0, x.version).status.Supported?
  }

  /** The answers a probe consumes. */
  function Wire(c: Contracts, x: Exchange): seq<Answer> {
    x.staleVersion + [x.version] + if GoesOn(c, x) then x.staleCaps + [x.caps] else []
  }

  function WireAll(c: Contracts, xs: seq<Exchange>): seq<Answer> {
    if xs == [] then [] else WireAll(c, xs[..|xs| - 1]) + Wire(c, xs[|xs| - 1])
  }

  /** The answers of the exchange come next. */
  predicate Carries(c: Contracts, answers: seq<Answer>, n: nat, x: Exchange) {
    n + |Wire(c, x)| <= |answers| && answers[n..n + |Wire(c, x)|] == Wire(c, x)
  }

  lemma VersionAnswer(c: Contracts, answers: seq<Answer>, n: nat, x: Exchange)
    requires Tolerable(x) && Carries(c, answers, n, x)
    ensures QueryReply(answers, n, OP_GET_VERSION, 1) == (n + |x.staleVersion| + 1, x.version)
  {
    var s := x.staleVersion;
    forall i | n <= i < n + |s| ensures Stale(Nth(answers, i), OP_GET_VERSION) {
      assert answers[i] == Wire(c, x)[i - n] == s[i - n];
    }
    assert answers[n + |s|] == Wire(c, x)[|s|] == x.version;
    StaleSkipped(answers, n, OP_GET_VERSION, 1, |s|);
  }

  lemma CapsAnswer(c: Contracts, answers: seq<Answer>, n: nat, x: Exchange)
    requires Tolerable(x) && GoesOn(c, x) && Carries(c, answers, n, x)
    ensures QueryReply(answers, n + |x.staleVersion| + 1, OP_GET_CAPS, 1) == (n + |Wire(c, x)|, x.caps)
  {
    var m, s := |x.staleVersion| + 1, x.staleCaps;
    forall i | n + m <= i < n + m + |s| ensures Stale(Nth(answers, i), OP_GET_CAPS) {
      assert answers[i] == Wire(c, x)[i - n] == s[i - n - m];
    }
    assert answers[n + m + |s|] == Wire(c, x)[m + |s|] == x.caps;
    StaleSkipped(answers, n + m, OP_GET_CAPS, 1, |s|);
  }

  /** A probe consumes exactly its exchange and records what the real answers decide. */
  lemma ProbeTakesExchange(c: Contracts, answers: seq<Answer>, n: nat, address: byte, x: Exchange)
    requires Tolerable(x) && Carries(c, answers, n, x)
    ensures Probe(c, answers, n, address) == (n + |Wire(c, x)|, Decided(c, address, x))
  {
    VersionAnswer(c, answers, n, x);
    GateFacts(c, address, x.version);
    if GoesOn(c, x) {
      CapsAnswer(c, answers, n, x);
    }
  }

  lemma {:induction false} WireAllSlice(c: Contracts, xs: seq<Exchange>, k: nat)
    requires k < |xs|
    ensures var n := |WireAll(c, xs[..k])|;
            |WireAll(c, xs[..k + 1])| == n + |Wire(c, xs[k])| && Carries(c, WireAll(c, xs), n, xs[k])
  {
    assert xs[..k + 1][..k] == xs[..k];
    var ys := xs[..|xs| - 1];
    if k < |ys| {
      WireAllSlice(c, ys, k);
      assert ys[..k] == xs[..k];
    } else {
      assert xs[..k + 1] == xs;
    }
  }

  /** Where a sweep stands after `k` probes of the exchanges `xs`. */
  predicate At(c: Contracts, xs: seq<Exchange>, s: Swept) {
    |s.probes| <= |xs| && s.asked == |WireAll(c, xs[..|s.probes|])|
  }

  /** There the next exchange is at hand, and probing it leads to the next such place. */
  lemma AtNext(c: Contracts, xs: seq<Exchange>, s: Swept, p: ProbeRecord)
    requires At(c, xs, s) && |s.probes| < |xs|
    ensures var x := xs[|s.probes|];
            && Carries(c, WireAll(c, xs), s.asked, x)
            && At(c, xs, Swept(s.asked + |Wire(c, x)|, s.probes + [p], s.unprobed))
  {
    WireAllSlice(c, xs, |s.probes|);
  }

  lemma VisitTakesExchange(c: Contracts, answers: seq<Answer>, s: Swept, address: byte, x: Exchange)
    requires Tolerable(x) && Carries(c, answers, s.asked, x)
    ensures Visit(c, answers, s, address, false)
            == Swept(s.asked + |Wire(c, x)|, s.probes + [Decided(c, address, x)], s.unprobed)
  {
    ProbeTakesExchange(c, answers, s.asked, address, x);
  }

  lemma VisitNext(c: Contracts, xs: seq<Exchange>, s: Swept, address: byte)
    requires At(c, xs, s) && |s.probes| < |xs| && Tolerable(xs[|s.probes|])
    ensures var s' := Visit(c, WireAll(c, xs), s, address, false);
            At(c, xs, s') && s'.probes == s.probes + [Decided(c, address, xs[|s.probes|])] && s'.unprobed == s.unprobed
  {
    AtNext(c, xs, s, Decided(c, address, xs[|s.probes|]));
    VisitTakesExchange(c, WireAll(c, xs), s, address, xs[|s.probes|]);
  }

  function PromptAll(xs: seq<Exchange>): (ys: seq<Exchange>)
    ensures |ys| == |xs| && forall i | 0 <= i < |xs| :: ys[i] == Prompt(xs[i])
  {
    seq(|xs|, i requires 0 <= i < |xs| => Prompt(xs[i]))
  }

  ghost predicate AllTolerable(xs: seq<Exchange>) {
    forall i | 0 <= i < |xs| :: Tolerable(xs[i])
  }

  /** Two sweeps, over the exchanges and over the prompt ones, that have seen the same. */
  predicate Agree(c: Contracts, xs: seq<Exchange>, s: Swept, t: Swept, i: nat) {
    && s.probes == t.probes && s.unprobed == t.unprobed && |s.probes| <= i
    && At(c, xs, s) && At(c, PromptAll(xs), t)
  }

  lemma VisitsAgree(c: Contracts, xs: seq<Exchange>, s: Swept, t: Swept, i: nat, address: byte, late: bool)
    requires AllTolerable(xs) && i < |xs| && Agree(c, xs, s, t, i)
    ensures Agree(c, xs, Visit(c, WireAll(c, xs), s, address, late),
                  Visit(c, WireAll(c, PromptAll(xs)), t, address, late), i + 1)
  {
    assert Tolerable(xs[|s.probes|]);
    if !late {
      VisitNext(c, xs, s, address);
      VisitNext(c, PromptAll(xs), t, address);
    }
  }

  lemma {:induction false} SweepsWithAgree(
    c: Contracts, xs: seq<Exchange>, v: (Swept, byte, bool) -> Swept, u: (Swept, byte, bool) -> Swept,
    addresses: seq<byte>, clock: Clock, deadline: Option<int>, i: nat)
    requires i <= |addresses| <= |xs|
    requires forall s: Swept, t: Swept, k: nat, address: byte, late: bool | k < |xs| && Agree(c, xs, s, t, k) ::
               Agree(c, xs, v(s, address, late), u(t, address, late), k + 1)
    ensures Agree(c, xs, SweepWith(v, addresses, clock, deadline, i), SweepWith(u, addresses, clock, deadline, i), i)
  {
    if i > 0 {
      SweepsWithAgree(c, xs, v, u, addresses, clock, deadline, i - 1);
    }
  }

  lemma SweepsAgree(
    c: Contracts, xs: seq<Exchange>, addresses: seq<byte>, clock: Clock, deadline: Option<int>, i: nat)
    requires i <= |addresses| <= |xs| && AllTolerable(xs)
    ensures Agree(c, xs, Sweep(c, WireAll(c, xs), addresses, clock, deadline, i),
                  Sweep(c, WireAll(c, PromptAll(xs)), addresses, clock, deadline, i), i)
  {
    var v, u := VisitOf(c, WireAll(c, xs)), VisitOf(c, WireAll(c, PromptAll(xs)));
    forall s: Swept, t: Swept, k: nat, address: byte, late: bool | k < |xs| && Agree(c, xs, s, t, k)
      ensures Agree(c, xs, v(s, address, late), u(t, address, late), k + 1)
    {
      VisitsAgree(c, xs, s, t, k, address, late);
    }
    SweepsWithAgree(c, xs, v, u, addresses, clock, deadline, i);
  }

  /** The addresses a discovery probes, one exchange at hand for each. */
  predicate Served(mode: DiscoveryMode, xs: seq<Exchange>) {
    match mode
    case Scan(None) => true
    case Scan(Some(found)) => |found| <= |xs|
    case ManualList(list) => |list| <= |xs|
  }

  /**
   With up to two stale replies before each real answer of each probe, discovery reports the same
   devices, exclusions, missing ids and details as with none.
   */
  lemma DiscoveryIgnoresStaleReplies(
    c: Contracts, xs: seq<Exchange>, specs: seq<DeviceSpec>, mode: DiscoveryMode, clock: Clock, deadline: Option<int>)
    requires AllTolerable(xs) && Served(mode, xs)
    ensures Discover(c, WireAll(c, xs), specs, mode, clock, deadline)
            == Discover(c, WireAll(c, PromptAll(xs)), specs, mode, clock, deadline)
  {
    match mode {
      case Scan(None) =>
      case Scan(Some(found)) => SweepsAgree(c, xs, found, clock, deadline, |found|);
      case ManualList(list) => SweepsAgree(c, xs, list, clock, deadline, |list|);
    }
  }
}
