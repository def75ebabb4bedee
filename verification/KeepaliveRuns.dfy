/**
 The keepalive over whole runs: how long a device can go unfed, how often it can be fed, and
 that the feeder comes to rest.
 */
module KeepaliveRuns {
  import opened Bytes
  import opened Capabilities
  import opened Watchdog
  import opened Keepalive

  datatype Event = TickAt(now: Time) | CallTo(id: string)

  function Step(k: FeedState, e: Event): (k': FeedState)
    ensures |k'.fed| == |k.fed| && k'.deadline == k.deadline
  {
    match e
    case TickAt(now) => Tick(k, now).state
    case CallTo(id) => Contacted(k, id)
  }

  // ----- What a tick queries -----------------------------------------------------------------

  /** What one event queries, in order. */
  function Queried(k: FeedState, e: Event): seq<InventoryDevice> {
    match e
    case TickAt(now) => Tick(k, now).queried
    case CallTo(_) => []
  }

  /** When a device is queried in a run, in order, once per query. */
  function QueryTimes(k: FeedState, es: seq<Event>, d: InventoryDevice): seq<Time>
    decreases |es|
  {
    if es == [] then []
    else
      (if es[0].TickAt? then seq(multiset(Queried(k, es[0]))[d], _ => es[0].now) else [])
      + QueryTimes(Step(k, es[0]), es[1..], d)
  }

  /** Entry `i` is due at a tick before the cap. */
  predicate DueAt(k: FeedState, now: Time, i: nat)
    requires i < |k.fed|
  {
    !k.capped && now < k.deadline && Due(k.fed[i], now)
  }

  /** What one event does to entry `i`. */
  lemma StepEntry(k: FeedState, e: Event, i: nat)
    requires i < |k.fed|
    ensures var f, f' := k.fed[i], Step(k, e).fed[i];
            && f'.interval == f.interval && f'.device == f.device
            && (f'.done <==> f.done || e == CallTo(f.device.id))
            && f'.nextDue == if e.TickAt? && DueAt(k, e.now, i) then e.now + f.interval else f.nextDue
  {
  }

  predicate DistinctFed(fed: seq<Fed>) {
    forall i, j | 0 <= i < j < |fed| :: fed[i].device.id != fed[j].device.id
  }

  lemma StepKeepsDistinct(k: FeedState, e: Event)
    requires DistinctFed(k.fed)
    ensures DistinctFed(Step(k, e).fed)
  {
    forall i | 0 <= i < |k.fed| ensures Step(k, e).fed[i].device == k.fed[i].device {
      StepEntry(k, e, i);
    }
  }

  /** Every query is of an entry that is due. */
  lemma {:induction false} DueFrom(fed: seq<Fed>, now: Time, n: nat, d: InventoryDevice) returns (i: nat)
    requires n <= |fed| && d in DueDevices(fed, now, n)
    ensures i < n && fed[i].device == d && Due(fed[i], now)
  {
    if d in DueDevices(fed, now, n - 1) {
      i := DueFrom(fed, now, n - 1, d);
    } else {
      i := n - 1;
    }
  }

  lemma {:induction false} DueCount(fed: seq<Fed>, now: Time, n: nat, i: nat)
    requires n <= |fed| && i < |fed| && DistinctFed(fed)
    ensures multiset(DueDevices(fed, now, n))[fed[i].device] == if i < n && Due(fed[i], now) then 1 else 0
  {
    if n > 0 {
      DueCount(fed, now, n - 1, i);
      assert fed[n - 1].device == fed[i].device ==> i == n - 1;
    }
  }

  /** A tick queries an entry's device exactly when the entry is due before the cap, and then once. */
  lemma QueriedOnceWhenDue(k: FeedState, now: Time, i: nat)
    requires i < |k.fed| && DistinctFed(k.fed)
    ensures multiset(Queried(k, TickAt(now)))[k.fed[i].device] == if DueAt(k, now, i) then 1 else 0
  {
    DueCount(k.fed, now, |k.fed|, i);
  }

  /** When entry `i` is due in a run. */
  function DueTimes(k: FeedState, es: seq<Event>, i: nat): seq<Time>
    requires i < |k.fed|
    decreases |es|
  {
    if es == [] then []
    else
      (if es[0].TickAt? && DueAt(k, es[0].now, i) then [es[0].now] else []) + DueTimes(Step(k, es[0]), es[1..], i)
  }

  lemma QueriedNow(k: FeedState, now: Time, i: nat)
    requires i < |k.fed| && DistinctFed(k.fed)
    ensures seq(multiset(Queried(k, TickAt(now)))[k.fed[i].device], _ => now) == if DueAt(k, now, i) then [now] else []
  {
    QueriedOnceWhenDue(k, now, i);
  }

  lemma {:induction false} QueriedWhenDue(k: FeedState, es: seq<Event>, i: nat)
    requires i < |k.fed| && DistinctFed(k.fed)
    ensures QueryTimes(k, es, k.fed[i].device) == DueTimes(k, es, i)
    decreases |es|
  {
    if es != [] {
      StepKeepsDistinct(k, es[0]);
      StepEntry(k, es[0], i);
      QueriedWhenDue(Step(k, es[0]), es[1..], i);
      if es[0].TickAt? {
        QueriedNow(k, es[0].now, i);
      }
    }
  }

  // ----- Feeding ends for good ---------------------------------------------------------------

  predicate Silent(k: FeedState) {
    k.capped || forall i | 0 <= i < |k.fed| :: k.fed[i].done
  }

  /** No tick of the run returns a time or queries anything. */
  predicate NothingHappens(k: FeedState, es: seq<Event>)
    decreases |es|
  {
    es == []
    || ((es[0].TickAt? ==> Tick(k, es[0].now).next.None? && Tick(k, es[0].now).queried == [])
        && NothingHappens(Step(k, es[0]), es[1..]))
  }

  lemma SilentStep(k: FeedState, e: Event)
    requires Silent(k)
    ensures Silent(Step(k, e)) && Queried(k, e) == [] && (e.TickAt? ==> Tick(k, e.now).next.None?)
  {
    if Queried(k, e) != [] {
      var i := DueFrom(k.fed, e.now, |k.fed|, Queried(k, e)[0]);
    }
  }

  lemma {:induction false} SilentStays(k: FeedState, es: seq<Event>)
    requires Silent(k)
    ensures NothingHappens(k, es)
    decreases |es|
  {
    if es != [] {
      SilentStep(k, es[0]);
      SilentStays(Step(k, es[0]), es[1..]);
    }
  }

  /** A tick that returns nothing is absorbing: whatever follows, no tick returns a time or queries a device. */
  lemma NothingAfterNone(k: FeedState, now: Time, es: seq<Event>)
    requires Tick(k, now).next.None?
    ensures NothingHappens(Tick(k, now).state, es)
  {
    SilentStays(Tick(k, now).state, es);
  }

  /** Every entry with this id has been contacted. */
  predicate AllDone(k: FeedState, id: string) {
    forall i | 0 <= i < |k.fed| && k.fed[i].device.id == id :: k.fed[i].done
  }

  lemma DoneIsNotQueried(k: FeedState, e: Event, d: InventoryDevice)
    requires AllDone(k, d.id)
    ensures AllDone(Step(k, e), d.id) && d !in Queried(k, e)
  {
    if d in Queried(k, e) {
      var i := DueFrom(k.fed, e.now, |k.fed|, d);
    }
    forall i | 0 <= i < |k.fed|
      ensures Step(k, e).fed[i].device == k.fed[i].device && (k.fed[i].done ==> Step(k, e).fed[i].done)
    {
      StepEntry(k, e, i);
    }
  }

  lemma {:induction false} DoneStaysSilent(k: FeedState, es: seq<Event>, d: InventoryDevice)
    requires AllDone(k, d.id)
    ensures QueryTimes(k, es, d) == []
    decreases |es|
  {
    if es != [] {
      DoneIsNotQueried(k, es[0], d);
      DoneStaysSilent(Step(k, es[0]), es[1..], d);
    }
  }

  /** The first call to a device ends the queries to it for good, and touches no other entry. */
  lemma ContactEndsFeeding(k: FeedState, d: InventoryDevice, es: seq<Event>)
    ensures QueryTimes(Contacted(k, d.id), es, d) == []
    ensures forall i | 0 <= i < |k.fed| && k.fed[i].device.id != d.id :: Contacted(k, d.id).fed[i] == k.fed[i]
  {
    DoneStaysSilent(Contacted(k, d.id), es, d);
  }

  /** A device on no entry is never queried. */
  lemma {:induction false} OnlyFedAreQueried(k: FeedState, es: seq<Event>, d: InventoryDevice)
    requires forall i | 0 <= i < |k.fed| :: k.fed[i].device != d
    ensures QueryTimes(k, es, d) == []
    decreases |es|
  {
    if es != [] {
      forall i | 0 <= i < |k.fed| ensures Step(k, es[0]).fed[i].device == k.fed[i].device {
        StepEntry(k, es[0], i);
      }
      if d in Queried(k, es[0]) {
        var i := DueFrom(k.fed, es[0].now, |k.fed|, d);
      }
      OnlyFedAreQueried(Step(k, es[0]), es[1..], d);
    }
  }

  // ----- Traffic bound -----------------------------------------------------------------------

  /** Times that are at least `interval` apart, from `first` on and before `end`. */
  predicate Spaced(q: seq<Time>, first: Time, interval: nat, end: Time) {
    && (forall j | 0 <= j < |q| :: q[j] < end)
    && (|q| > 0 ==> q[0] >= first)
    && (forall j | 0 < j < |q| :: q[j] >= q[j - 1] + interval)
  }

  lemma {:induction false} DueTimesSpaced(k: FeedState, es: seq<Event>, i: nat)
    requires i < |k.fed|
    ensures Spaced(DueTimes(k, es, i), k.fed[i].nextDue, k.fed[i].interval, k.deadline)
    decreases |es|
  {
    if es != [] {
      DueTimesSpaced(Step(k, es[0]), es[1..], i);
      StepEntry(k, es[0], i);
    }
  }

  /** Queries to one device are at least an interval apart, from its due time on, all before the deadline. */
  lemma QueriesAreSpaced(k: FeedState, es: seq<Event>, i: nat)
    requires i < |k.fed| && DistinctFed(k.fed)
    ensures Spaced(QueryTimes(k, es, k.fed[i].device), k.fed[i].nextDue, k.fed[i].interval, k.deadline)
  {
    DueTimesSpaced(k, es, i);
    QueriedWhenDue(k, es, i);
  }

  lemma {:induction false} SpacedReach(q: seq<Time>, first: Time, interval: nat, end: Time, j: nat)
    requires j < |q| && Spaced(q, first, interval, end)
    ensures q[j] >= first + j * interval
  {
    if j > 0 {
      SpacedReach(q, first, interval, end, j - 1);
      assert j * interval == (j - 1) * interval + interval;
    }
  }

  lemma SpacedCount(q: seq<Time>, start: Time, interval: nat, end: Time)
    requires |q| > 0 && Spaced(q, start + interval, interval, end)
    ensures |q| * interval < end - start
  {
    SpacedReach(q, start + interval, interval, end, |q| - 1);
    assert |q| * interval == interval + (|q| - 1) * interval;
  }

  lemma {:induction false} FedEntries(ds: seq<InventoryDevice>, armedAt: Time, i: nat)
    requires i < |FeedList(ds, armedAt)|
    ensures var f := FeedList(ds, armedAt)[i];
            f.interval == Interval(f.device.watchdogMs) && f.nextDue == armedAt + f.interval && !f.done
            && Armable(f.device) && f.device in ds
  {
    var n := |ds| - 1;
    if i < |FeedList(ds[..n], armedAt)| {
      FedEntries(ds[..n], armedAt, i);
    }
  }

  lemma {:induction false} FeedListDistinct(ds: seq<InventoryDevice>, armedAt: Time)
    requires DistinctIds(ds)
    ensures DistinctFed(FeedList(ds, armedAt))
  {
    if ds != [] {
      var n := |ds| - 1;
      var list := FeedList(ds[..n], armedAt);
      FeedListDistinct(ds[..n], armedAt);
      forall i | 0 <= i < |list| ensures list[i].device.id != ds[n].id {
        FedEntries(ds[..n], armedAt, i);
        var m :| 0 <= m < n && ds[..n][m] == list[i].device;
        assert ds[m] == list[i].device;
      }
    }
  }

  /** A quarter of the timeout in whole milliseconds, at least one. */
  function QuarterMs(watchdogMs: nat): (q: nat)
    ensures watchdogMs >= 4 ==> 4 * q <= watchdogMs < 4 * q + 4
    ensures watchdogMs < 4 ==> q == 1
  {
    if watchdogMs / 4 > 1 then watchdogMs / 4 else 1
  }

  /** Two quarters of one timeout are the same number of milliseconds. */
  lemma IntervalIsQuarter(watchdogMs: uint16)
    ensures Interval(watchdogMs) == QuarterMs(watchdogMs) * MILLISECOND
  {
    var i, q := Interval(watchdogMs), QuarterMs(watchdogMs);
    if watchdogMs >= 4 {
      assert i % MILLISECOND == 0;
    }
  }

  /**
   Queries to a device imply that it was armed, and `k` of them take more than `k` quarters of its
   timeout before the cap.
   */
  lemma TrafficBound(ds: seq<InventoryDevice>, cap: nat, armedAt: Time, es: seq<Event>, d: InventoryDevice)
    requires DistinctIds(ds)
    ensures var q := QueryTimes(Started(ds, cap, armedAt), es, d);
            |q| > 0 ==> d in ds && Armable(d) && |q| * QuarterMs(d.watchdogMs) * MILLISECOND < cap
  {
    var k := Started(ds, cap, armedAt);
    FeedListDistinct(ds, armedAt);
    if i :| 0 <= i < |k.fed| && k.fed[i].device == d {
      FedEntries(ds, armedAt, i);
      QueriesAreSpaced(k, es, i);
      if |QueryTimes(k, es, d)| > 0 {
        SpacedCount(QueryTimes(k, es, d), armedAt, k.fed[i].interval, k.deadline);
        IntervalIsQuarter(d.watchdogMs);
        Regroup(|QueryTimes(k, es, d)|, QuarterMs(d.watchdogMs), MILLISECOND);
      }
    } else {
      OnlyFedAreQueried(k, es, d);
    }
  }

  lemma Regroup(a: nat, b: nat, c: nat)
    ensures a * (b * c) == a * b * c
  {
  }

  // ----- Gap bound ---------------------------------------------------------------------------

  /** Each tick comes at most `late` after the time the one before returned. */
  predicate Timely(k: FeedState, es: seq<Event>, due: Time, late: nat)
    decreases |es|
  {
    if es == [] then true
    else
      match es[0]
      case CallTo(id) => Timely(Contacted(k, id), es[1..], due, late)
      case TickAt(now) =>
        var t := Tick(k, now);
        now <= due + late && (t.next.Some? ==> Timely(t.state, es[1..], t.next.value, late))
  }

  /**
   At every tick before the cap, until the device is called, the time since it was last queried
   (or armed) is at most `bound`.
   */
  predicate FedWithin(k: FeedState, es: seq<Event>, d: InventoryDevice, last: Time, bound: nat)
    decreases |es|
  {
    if es == [] then true
    else
      match es[0]
      case CallTo(id) => id == d.id || FedWithin(Contacted(k, id), es[1..], d, last, bound)
      case TickAt(now) =>
        && (k.capped || now >= k.deadline || now - last <= bound)
        && FedWithin(Tick(k, now).state, es[1..], d, if d in Tick(k, now).queried then now else last, bound)
  }

  lemma {:induction false} CappedFedWithin(k: FeedState, es: seq<Event>, d: InventoryDevice, last: Time, bound: nat)
    requires k.capped
    ensures FedWithin(k, es, d, last, bound)
    decreases |es|
  {
    if es != [] {
      match es[0] {
        case CallTo(id) => CappedFedWithin(Contacted(k, id), es[1..], d, last, bound);
        case TickAt(now) => CappedFedWithin(Tick(k, now).state, es[1..], d, last, bound);
      }
    }
  }

  /** An entry as a tick finds it, and when the tick returns. */
  lemma TickOnEntry(k: FeedState, now: Time, i: nat)
    requires i < |k.fed| && DistinctFed(k.fed) && !k.fed[i].done
    ensures var t, f := Tick(k, now), k.fed[i];
            var f' := t.state.fed[i];
            && f'.device == f.device && f'.interval == f.interval && !f'.done && DistinctFed(t.state.fed)
            && (t.state.capped || (t.next.Some? && t.next.value <= f'.nextDue))
            && (f.device in t.queried <==> DueAt(k, now, i))
            && f'.nextDue == if DueAt(k, now, i) then now + f.interval else f.nextDue
  {
    StepEntry(k, TickAt(now), i);
    StepKeepsDistinct(k, TickAt(now));
    QueriedOnceWhenDue(k, now, i);
  }

  lemma {:induction false} TimelyFedWithin(k: FeedState, es: seq<Event>, i: nat, due: Time, last: Time, late: nat)
    requires i < |k.fed| && DistinctFed(k.fed) && Timely(k, es, due, late)
    requires !k.fed[i].done && due <= k.fed[i].nextDue && k.fed[i].nextDue == last + k.fed[i].interval
    ensures FedWithin(k, es, k.fed[i].device, last, k.fed[i].interval + late)
    decreases |es|, 1
  {
    if es != [] {
      match es[0] {
        case CallTo(id) =>
          if id != k.fed[i].device.id {
            StepEntry(k, es[0], i);
            StepKeepsDistinct(k, es[0]);
            TimelyFedWithin(Contacted(k, id), es[1..], i, due, last, late);
          }
        case TickAt(now) => TimelyTick(k, es, i, due, last, late);
      }
    }
  }

  lemma FedWithinTick(k: FeedState, es: seq<Event>, d: InventoryDevice, last: Time, bound: nat)
    requires es != [] && es[0].TickAt? && es[0].now - last <= bound
    requires var t := Tick(k, es[0].now);
             FedWithin(t.state, es[1..], d, if d in t.queried then es[0].now else last, bound)
    ensures FedWithin(k, es, d, last, bound)
  {
  }

  lemma TimelyNext(k: FeedState, es: seq<Event>, due: Time, late: nat)
    requires es != [] && es[0].TickAt? && Timely(k, es, due, late)
    ensures var t := Tick(k, es[0].now);
            es[0].now <= due + late && (t.next.Some? ==> Timely(t.state, es[1..], t.next.value, late))
  {
  }

  lemma {:induction false} TimelyTick(k: FeedState, es: seq<Event>, i: nat, due: Time, last: Time, late: nat)
    requires i < |k.fed| && DistinctFed(k.fed) && es != [] && es[0].TickAt? && Timely(k, es, due, late)
    requires !k.fed[i].done && due <= k.fed[i].nextDue && k.fed[i].nextDue == last + k.fed[i].interval
    ensures FedWithin(k, es, k.fed[i].device, last, k.fed[i].interval + late)
    decreases |es|, 0
  {
    TimelyNext(k, es, due, late);
    TickOnEntry(k, es[0].now, i);
    TimelyRest(Tick(k, es[0].now), es[1..], i, if DueAt(k, es[0].now, i) then es[0].now else last, late);
    FedWithinTick(k, es, k.fed[i].device, last, k.fed[i].interval + late);
  }

  lemma {:induction false} TimelyRest(t: Ticked, es: seq<Event>, i: nat, last: Time, late: nat)
    requires i < |t.state.fed| && DistinctFed(t.state.fed) && !t.state.fed[i].done
    requires t.state.fed[i].nextDue == last + t.state.fed[i].interval
    requires t.state.capped
             || (t.next.Some? && t.next.value <= t.state.fed[i].nextDue && Timely(t.state, es, t.next.value, late))
    ensures FedWithin(t.state, es, t.state.fed[i].device, last, t.state.fed[i].interval + late)
    decreases |es|, 2
  {
    if t.state.capped {
      CappedFedWithin(t.state, es, t.state.fed[i].device, last, t.state.fed[i].interval + late);
    } else {
      TimelyFedWithin(t.state, es, i, t.next.value, last, late);
    }
  }

  /**
   If every tick comes at most `late` after the time the previous one returned (the first, after
   arming), an armable device goes at most a quarter of its timeout plus `late` without a query, from
   arming and from each query, until its first call or the cap.
   */
  lemma GapBound(ds: seq<InventoryDevice>, cap: nat, armedAt: Time, es: seq<Event>, d: InventoryDevice, late: nat)
    requires DistinctIds(ds) && d in ds && Armable(d)
    requires Timely(Started(ds, cap, armedAt), es, armedAt, late)
    ensures FedWithin(Started(ds, cap, armedAt), es, d, armedAt, QuarterMs(d.watchdogMs) * MILLISECOND + late)
  {
    FeedListDistinct(ds, armedAt);
    var i := ArmableIsFed(ds, armedAt, d);
    FedEntries(ds, armedAt, i);
    IntervalIsQuarter(d.watchdogMs);
    TimelyFedWithin(Started(ds, cap, armedAt), es, i, armedAt, armedAt, late);
  }

  lemma {:induction false} ArmableIsFed(ds: seq<InventoryDevice>, armedAt: Time, d: InventoryDevice) returns (i: nat)
    requires d in ds && Armable(d)
    ensures i < |FeedList(ds, armedAt)| && FeedList(ds, armedAt)[i].device == d
  {
    var n := |ds| - 1;
    if ds[n] == d {
      i := |FeedList(ds[..n], armedAt)|;
    } else {
      i := ArmableIsFed(ds[..n], armedAt, d);
    }
  }

  // ----- What can still be queried -----------------------------------------------------------

  /** How many intervals fit into a span. */
  function Fit(span: int, interval: nat): nat
    requires interval > 0
    decreases if span < 0 then 0 else span
  {
    if span < interval then 0 else 1 + Fit(span - interval, interval)
  }

  /** `Fit` is the quotient. */
  lemma {:induction false} FitIsQuotient(span: nat, interval: nat)
    requires interval > 0
    ensures Fit(span, interval) * interval <= span < (Fit(span, interval) + 1) * interval
    decreases span
  {
    if span >= interval {
      FitIsQuotient(span - interval, interval);
      var f := Fit(span - interval, interval);
      assert (1 + f) * interval == f * interval + interval;
      assert (2 + f) * interval == (1 + f) * interval + interval;
    }
  }

  lemma {:induction false} FitGrows(small: int, large: int, interval: nat)
    requires interval > 0 && small <= large
    ensures Fit(small, interval) <= Fit(large, interval)
    decreases if small < 0 then 0 else small
  {
    if small >= interval {
      FitGrows(small - interval, large - interval, interval);
    }
  }

  predicate Periodic(k: FeedState) {
    forall i | 0 <= i < |k.fed| :: k.fed[i].interval > 0
  }

  /** How often an entry can still be queried: once per interval until the deadline. */
  function Quota(f: Fed, deadline: Time): nat
    requires f.interval > 0
  {
    Fit(deadline - f.nextDue + f.interval, f.interval)
  }

  /** How often the first `n` entries can. */
  function Allowance(k: FeedState, n: nat): nat
    requires n <= |k.fed| && Periodic(k)
  {
    if n == 0 then 0 else Allowance(k, n - 1) + Quota(k.fed[n - 1], k.deadline)
  }

  /** A query takes one off the quota of its entry. */
  lemma QueryCosts(f: Fed, now: Time, deadline: Time)
    requires f.interval > 0 && now < deadline
    ensures Quota(Feed(f, now), deadline) + (if Due(f, now) then 1 else 0) <= Quota(f, deadline)
  {
    if Due(f, now) {
      FitGrows(deadline - now, deadline - f.nextDue, f.interval);
    }
  }

  lemma {:induction false} FeedingCosts(k: FeedState, k': FeedState, now: Time, n: nat)
    requires n <= |k.fed| && Periodic(k) && Periodic(k') && now < k.deadline
    requires k' == k.(fed := Feedings(k.fed, now))
    ensures Allowance(k', n) + |DueDevices(k.fed, now, n)| <= Allowance(k, n)
  {
    if n > 0 {
      FeedingCosts(k, k', now, n - 1);
      QueryCosts(k.fed[n - 1], now, k.deadline);
    }
  }

  /** Every query of a tick comes out of the allowance. */
  lemma TickCosts(k: FeedState, now: Time)
    requires Periodic(k)
    ensures var t := Tick(k, now);
            Periodic(t.state) && Allowance(t.state, |k.fed|) + |t.queried| <= Allowance(k, |k.fed|)
  {
    var t := Tick(k, now);
    forall i | 0 <= i < |k.fed| ensures t.state.fed[i].interval == k.fed[i].interval {
      StepEntry(k, TickAt(now), i);
    }
    if !k.capped && now < k.deadline {
      FeedingCosts(k, t.state, now, |k.fed|);
    } else {
      SameAllowance(k, t.state, |k.fed|);
    }
  }

  /** Entries that differ in `done` alone have the same allowance. */
  lemma {:induction false} SameAllowance(k: FeedState, k': FeedState, n: nat)
    requires n <= |k.fed| && n <= |k'.fed| && Periodic(k) && Periodic(k') && k.deadline == k'.deadline
    requires forall i | 0 <= i < n :: k'.fed[i].interval == k.fed[i].interval && k'.fed[i].nextDue == k.fed[i].nextDue
    ensures Allowance(k, n) == Allowance(k', n)
  {
    if n > 0 {
      SameAllowance(k, k', n - 1);
    }
  }

  /** The queries that fit before the cap: the cap over a quarter of the timeout (`FitIsQuotient`), per armable device. */
  function Budget(ds: seq<InventoryDevice>, cap: nat): nat {
    if ds == [] then 0
    else
      var d := ds[|ds| - 1];
      Budget(ds[..|ds| - 1], cap) + if Armable(d) then Fit(cap, QuarterMs(d.watchdogMs) * MILLISECOND) else 0
  }

  /** The allowance of a feeder that has just armed. */
  lemma {:induction false} StartedAllowance(ds: seq<InventoryDevice>, cap: nat, armedAt: Time)
    ensures var k := Started(ds, cap, armedAt);
            Periodic(k) && Allowance(k, |k.fed|) == Budget(ds, cap)
  {
    var k := Started(ds, cap, armedAt);
    forall i | 0 <= i < |k.fed| ensures k.fed[i].interval > 0 {
      FedEntries(ds, armedAt, i);
    }
    if ds != [] {
      var k' := Started(ds[..|ds| - 1], cap, armedAt);
      StartedAllowance(ds[..|ds| - 1], cap, armedAt);
      IntervalIsQuarter(ds[|ds| - 1].watchdogMs);
      SameAllowance(k, k', |k'.fed|);
    }
  }

  // ----- The feeder thread comes to rest -----------------------------------------------------

  /** What a tick returns lies ahead, so the thread always waits; and it is due work or the cap. */
  lemma TickReturnsAhead(k: FeedState, now: Time)
    requires Periodic(k) && Tick(k, now).next.Some?
    ensures var t := Tick(k, now);
            && now < t.next.value <= k.deadline && !t.state.capped
            && (t.next.value == k.deadline
                || exists i :: 0 <= i < |t.state.fed| && !t.state.fed[i].done && t.state.fed[i].nextDue == t.next.value)
  {
    var fed := Feedings(k.fed, now);
    var i :| 0 <= i < |fed| && !fed[i].done && Earliest(fed, |fed|).value == fed[i].nextDue;
    assert fed[i] == Feed(k.fed[i], now);
  }

  /** A tick at `now` will reach the cap or feed somebody. */
  ghost predicate WorkAt(k: FeedState, now: Time) {
    now >= k.deadline || exists i :: 0 <= i < |k.fed| && Due(k.fed[i], now)
  }

  lemma {:induction false} DueIsQueried(fed: seq<Fed>, now: Time, n: nat, i: nat)
    requires i < n <= |fed| && Due(fed[i], now)
    ensures fed[i].device in DueDevices(fed, now, n)
  {
    if i < n - 1 {
      DueIsQueried(fed, now, n - 1, i);
    }
  }

  lemma WorkIsDone(k: FeedState, now: Time)
    requires WorkAt(k, now)
    ensures Tick(k, now).next.None? || Tick(k, now).queried != []
  {
    if !k.capped && now < k.deadline {
      var i :| 0 <= i < |k.fed| && Due(k.fed[i], now);
      DueIsQueried(k.fed, now, |k.fed|, i);
    }
  }

  function ContactAll(k: FeedState, ids: seq<string>): FeedState {
    if ids == [] then k else Contacted(ContactAll(k, ids[..|ids| - 1]), ids[|ids| - 1])
  }

  lemma {:induction false} ContactAllFrame(k: FeedState, ids: seq<string>)
    requires Periodic(k)
    ensures var k' := ContactAll(k, ids);
            && |k'.fed| == |k.fed| && k'.capped == k.capped && k'.deadline == k.deadline
            && Periodic(k') && Allowance(k', |k.fed|) == Allowance(k, |k.fed|)
  {
    if ids != [] {
      var k1 := ContactAll(k, ids[..|ids| - 1]);
      ContactAllFrame(k, ids[..|ids| - 1]);
      SameAllowance(k1, Contacted(k1, ids[|ids| - 1]), |k.fed|);
    }
  }

  /** A wait of the thread: how late it ends, the calls it sees, whether the destructor cuts it short. */
  datatype Pause = Pause(late: nat, calls: seq<string>, stop: bool)

  /** Waits past the end of the list are on time and quiet. */
  function PauseAt(pauses: seq<Pause>, n: nat): Pause {
    if n < |pauses| then pauses[n] else Pause(0, [], false)
  }

  /** One turn of the thread: the state after its tick and, if there is one, its wait. */
  datatype Turned = Turned(state: FeedState, next: Option<Time>, queries: nat)

  function TurnAt(pauses: seq<Pause>, k: FeedState, now: Time, n: nat): Turned {
    var t := Tick(k, now);
    Turned(if t.next.Some? then ContactAll(t.state, PauseAt(pauses, n).calls) else t.state, t.next, |t.queried|)
  }

  type Turning = (FeedState, Time, nat) -> Turned

  function Take(turn: Turning, k: FeedState, now: Time, n: nat): Turned {
    turn(k, now, n)
  }

  function TurnOf(pauses: seq<Pause>): Turning {
    (k: FeedState, now: Time, n: nat) => TurnAt(pauses, k, now, n)
  }

  function Left(k: FeedState): nat
    requires Periodic(k)
  {
    Allowance(k, |k.fed|)
  }

  /** A turn after which the thread goes on lies before the deadline, and time moves. */
  predicate Moving(k: FeedState, now: Time, t: Turned) {
    && Periodic(t.state) && t.state.deadline == k.deadline
    && (t.next.Some? ==> now < t.next.value && now < k.deadline)
  }

  ghost predicate AllMoving(turn: Turning) {
    forall k: FeedState, now: Time, n: nat | Periodic(k) :: Moving(k, now, Take(turn, k, now, n))
  }

  /** Queries come out of the allowance, and a turn without work needs a call before it. */
  ghost predicate Sound(k: FeedState, now: Time, t: Turned, p: Pause)
    requires Periodic(k)
  {
    && Moving(k, now, t)
    && Left(t.state) + t.queries <= Left(k)
    && (WorkAt(k, now) ==> t.next.None? || t.queries > 0)
    && match t.next
       case None => Silent(t.state)
       case Some(next) => p.calls == [] ==> WorkAt(t.state, next + p.late)
  }

  lemma TurnIsSound(k: FeedState, now: Time, n: nat, pauses: seq<Pause>)
    requires Periodic(k)
    ensures Sound(k, now, TurnAt(pauses, k, now, n), PauseAt(pauses, n))
  {
    TickCosts(k, now);
    if WorkAt(k, now) {
      WorkIsDone(k, now);
    }
    if Tick(k, now).next.Some? {
      TickReturnsAhead(k, now);
      ContactAllFrame(Tick(k, now).state, PauseAt(pauses, n).calls);
    }
  }

  ghost predicate AllSound(turn: Turning, pauses: seq<Pause>) {
    forall k: FeedState, now: Time, n: nat | Periodic(k) :: Sound(k, now, Take(turn, k, now, n), PauseAt(pauses, n))
  }

  /** How a run of the thread went. */
  datatype Outcome = Outcome(state: FeedState, ticks: nat, queries: nat, contacts: nat, stopped: bool)

  /**
   `run` from turn number `n`: tick, wait for the time it returned, tick again. The n-th wait goes
   as `pauses` says. That this is a function says that the thread ends.
   */
  function RunWith(
    turn: Turning, pauses: seq<Pause>,
    k: FeedState, now: Time, n: nat): Outcome
    requires Periodic(k) && AllMoving(turn)
    decreases k.deadline - now
  {
    var t := Take(turn, k, now, n);
    assert Moving(k, now, t);
    if t.next.None? then Outcome(t.state, 1, t.queries, 0, false)
    else if PauseAt(pauses, n).stop then Outcome(t.state, 1, t.queries, |PauseAt(pauses, n).calls|, true)
    else
      var rest := RunWith(turn, pauses, t.state, t.next.value + PauseAt(pauses, n).late, n + 1);
      Outcome(rest.state, rest.ticks + 1, rest.queries + t.queries, rest.contacts + |PauseAt(pauses, n).calls|, rest.stopped)
  }

  /** Calls made in waits number `n` to `m`. */
  function CallsMade(pauses: seq<Pause>, n: nat, m: int): nat
    decreases m - n
  {
    if n > m then 0 else |PauseAt(pauses, n).calls| + CallsMade(pauses, n + 1, m)
  }

  /**
   The queries of a run come out of its first allowance. It ticks for a query, after a call, and at
   most twice otherwise, once if there is work at its first tick. The calls it sees are those of
   its waits. Unless it is stopped it ends with nothing left to feed.
   */
  lemma {:induction false} RunBound(
    turn: Turning, pauses: seq<Pause>,
    k: FeedState, now: Time, n: nat)
    requires Periodic(k) && AllMoving(turn) && AllSound(turn, pauses)
    ensures var o := RunWith(turn, pauses, k, now, n);
            && o.queries <= Left(k)
            && 1 <= o.ticks <= (if WorkAt(k, now) then 1 else 2) + o.queries + o.contacts
            && o.contacts == CallsMade(pauses, n, n + o.ticks - if o.stopped then 1 else 2)
            && (o.stopped || Silent(o.state))
    decreases k.deadline - now
  {
    assert Sound(k, now, Take(turn, k, now, n), PauseAt(pauses, n));
    var t := Take(turn, k, now, n);
    if t.next.Some? && !PauseAt(pauses, n).stop {
      RunBound(turn, pauses, t.state, t.next.value + PauseAt(pauses, n).late, n + 1);
    }
  }

  lemma TurnsAreSound(pauses: seq<Pause>)
    ensures AllMoving(TurnOf(pauses)) && AllSound(TurnOf(pauses), pauses)
  {
    var turn := TurnOf(pauses);
    forall k: FeedState, now: Time, n: nat | Periodic(k)
      ensures Moving(k, now, Take(turn, k, now, n)) && Sound(k, now, Take(turn, k, now, n), PauseAt(pauses, n))
    {
      TurnIsSound(k, now, n, pauses);
    }
  }

  /** The thread from a state of its feeder. */
  function RunFrom(
    k: FeedState, now: Time, pauses: seq<Pause>): Outcome
    requires Periodic(k)
  {
    TurnsAreSound(pauses);
    RunWith(TurnOf(pauses), pauses, k, now, 1)
  }

  lemma BoundFromStart(
    turn: Turning, pauses: seq<Pause>,
    k: FeedState, budget: nat, now: Time)
    requires Periodic(k) && Left(k) == budget && AllMoving(turn) && AllSound(turn, pauses)
    ensures Bounded(RunWith(turn, pauses, k, now, 1), budget, pauses)
  {
    RunBound(turn, pauses, k, now, 1);
  }

  /** At most two ticks, one per query the budget allows, and one per call seen in a wait. */
  predicate Bounded(o: Outcome, budget: nat, pauses: seq<Pause>) {
    && o.queries <= budget
    && 1 <= o.ticks <= 2 + budget + o.contacts
    && o.contacts == CallsMade(pauses, 1, o.ticks - if o.stopped then 0 else 1)
    && (o.stopped || Silent(o.state))
  }

  /**
   From arming: the thread makes at most two ticks, one per query that fits before the cap, and one
   per call it sees. What it queries fits before the cap, and it ends silent or stopped.
   */
  lemma RunFromStart(
    ds: seq<InventoryDevice>, cap: nat, armedAt: Time, pauses: seq<Pause>)
    ensures Periodic(Started(ds, cap, armedAt))
    ensures Bounded(RunFrom(Started(ds, cap, armedAt), armedAt, pauses), Budget(ds, cap), pauses)
  {
    StartedAllowance(ds, cap, armedAt);
    TurnsAreSound(pauses);
    BoundFromStart(TurnOf(pauses), pauses, Started(ds, cap, armedAt), Budget(ds, cap), armedAt);
  }

  // ----- On a feeder -------------------------------------------------------------------------

  /** A wait during which the runtime calls `ids`. */
  method Wait(feeder: Feeder, ids: seq<string>)
    modifies feeder`fed
    ensures feeder.State() == ContactAll(old(feeder.State()), ids)
  {
    for n := 0 to |ids|
      invariant feeder.State() == ContactAll(old(feeder.State()), ids[..n])
    {
      assert ids[..n + 1][..n] == ids[..n];
      feeder.NoteContact(ids[n]);
    }
    assert ids[..|ids|] == ids;
  }

  /** `turn` is the turn of the thread with these pauses. */
  ghost predicate IsTurn(turn: Turning, pauses: seq<Pause>) {
    forall k: FeedState, now: Time, n: nat {:trigger TurnAt(pauses, k, now, n)} ::
      Take(turn, k, now, n) == TurnAt(pauses, k, now, n)
  }

  method Turn(
    feeder: Feeder, now: Time, n: nat, pauses: seq<Pause>, ghost turn: Turning)
    returns (next: Option<Time>)
    requires feeder.session.retry < 0x7FFF_FFFF && IsTurn(turn, pauses)
    modifies feeder, feeder.session, feeder.session.transport, feeder.session.transport.bus
    ensures var t := Take(turn, old(feeder.State()), now, n); feeder.State() == t.state && next == t.next
  {
    ghost var t := TurnAt(pauses, feeder.State(), now, n);
    next := feeder.DoTick(now);
    if next.Some? {
      Wait(feeder, PauseAt(pauses, n).calls);
    }
  }

  method RunLoop(
    feeder: Feeder, start: Time, pauses: seq<Pause>,
    ghost turn: Turning)
    returns (ticks: nat, stopped: bool)
    requires feeder.session.retry < 0x7FFF_FFFF && Periodic(feeder.State())
    requires IsTurn(turn, pauses) && AllMoving(turn)
    modifies feeder, feeder.session, feeder.session.transport, feeder.session.transport.bus
    ensures var o := RunWith(turn, pauses, old(feeder.State()), start, 1);
            feeder.State() == o.state && ticks == o.ticks && stopped == o.stopped
  {
    ghost var k := feeder.State();
    ghost var goal := RunWith(turn, pauses, k, start, 1);
    var now := start;
    ticks := 0;
    while true
      invariant k == feeder.State() && Periodic(k)
      invariant Joins(goal, RunWith(turn, pauses, k, now, ticks + 1), ticks)
      decreases k.deadline - now
    {
      ghost var t := Take(turn, k, now, ticks + 1);
      assert Moving(k, now, t);
      ticks := ticks + 1;
      var next := Turn(feeder, now, ticks, pauses, turn);
      k := t.state;
      if next.None? {
        return ticks, false;
      }
      if PauseAt(pauses, ticks).stop {
        return ticks, true;
      }
      now := next.value + PauseAt(pauses, ticks).late;
    }
  }

  /** `o` is `rest` with `ticks` ticks before it. */
  predicate Joins(o: Outcome, rest: Outcome, ticks: nat) {
    o.state == rest.state && o.ticks == rest.ticks + ticks && o.stopped == rest.stopped
  }

  /** `run`, on a feeder: it ends, in the state and after the ticks that `RunFrom` says. */
  method Run(feeder: Feeder, start: Time, pauses: seq<Pause>)
    returns (ticks: nat, stopped: bool)
    requires feeder.session.retry < 0x7FFF_FFFF && Periodic(feeder.State())
    modifies feeder, feeder.session, feeder.session.transport, feeder.session.transport.bus
    ensures var o := RunFrom(old(feeder.State()), start, pauses);
            feeder.State() == o.state && ticks == o.ticks && stopped == o.stopped
  {
    TurnsAreSound(pauses);
    ticks, stopped := RunLoop(feeder, start, pauses, TurnOf(pauses));
  }
}
