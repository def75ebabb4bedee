/**
 The dispatch thread and the feeder thread under their locks: every interleaving of a list of
 runtime requests with a list of keepalive ticks. Devices are named by their ids.
 */
module Interleaving {

  datatype Thread = Dispatch | Feeder

  datatype Lock = RuntimeLock | KeepaliveLock | SessionLock

  function Rank(l: Lock): nat {
    match l
    case RuntimeLock => 0
    case KeepaliveLock => 1
    case SessionLock => 2
  }

  datatype Instr =
    | Acquire(l: Lock)
    | Release(l: Lock)
    | Mark(device: string)    // fed.done = true
    | Return(device: string)  // note_contact returns
    | Visit(device: string)   // a tick reaches a due entry: skip it if done, else query it
    | Emit(device: string)    // a frame to the device

  /** What the runtime's handlers do, in units of one lock acquisition. */
  datatype Task = Snapshot | NoteContact(device: string) | BusOp(device: string)

  function TaskCode(t: Task): seq<Instr> {
    match t
    case Snapshot => [Acquire(RuntimeLock), Release(RuntimeLock)]
    case NoteContact(d) =>
      [Acquire(RuntimeLock), Acquire(KeepaliveLock), Mark(d), Release(KeepaliveLock), Release(RuntimeLock), Return(d)]
    case BusOp(d) => [Acquire(SessionLock), Emit(d), Release(SessionLock)]
  }

  function DispatchCode(tasks: seq<Task>): seq<Instr> {
    if tasks == [] then [] else TaskCode(tasks[0]) + DispatchCode(tasks[1..])
  }

  function Visits(devices: seq<string>): seq<Instr> {
    if devices == [] then [Release(KeepaliveLock)] else [Visit(devices[0])] + Visits(devices[1..])
  }

  /** Each tick visits the entries due at its time, under the keepalive lock. */
  function FeederCode(ticks: seq<seq<string>>): seq<Instr> {
    if ticks == [] then [] else [Acquire(KeepaliveLock)] + Visits(ticks[0]) + FeederCode(ticks[1..])
  }

  datatype Event = Sent(thread: Thread, device: string) | Returned(device: string)

  datatype State = State(
    owner: map<Lock, Thread>, dispatch: seq<Instr>, feeder: seq<Instr>, done: set<string>, trace: seq<Event>)

  function Code(s: State, t: Thread): seq<Instr> {
    match t
    case Dispatch => s.dispatch
    case Feeder => s.feeder
  }

  function WithCode(s: State, t: Thread, code: seq<Instr>): State {
    match t
    case Dispatch => s.(dispatch := code)
    case Feeder => s.(feeder := code)
  }

  /** A thread can step unless it has finished or waits for a lock another thread (or itself) holds. */
  predicate Enabled(s: State, t: Thread) {
    Code(s, t) != [] && (Code(s, t)[0].Acquire? ==> Code(s, t)[0].l !in s.owner)
  }

  function Step(s: State, t: Thread): State
    requires Enabled(s, t)
  {
    var rest := Code(s, t)[1..];
    var s' := WithCode(s, t, rest);
    match Code(s, t)[0]
    case Acquire(l) => s'.(owner := s.owner[l := t])
    case Release(l) => s'.(owner := s.owner - {l})
    case Mark(d) => s'.(done := s.done + {d})
    case Return(d) => s'.(trace := s.trace + [Returned(d)])
    case Emit(d) => s'.(trace := s.trace + [Sent(t, d)])
    case Visit(d) =>
      if d in s.done then s'
      else WithCode(s, t, [Acquire(SessionLock), Emit(d), Release(SessionLock)] + rest)
  }

  function Initial(tasks: seq<Task>, ticks: seq<seq<string>>): State {
    State(map[], DispatchCode(tasks), FeederCode(ticks), {}, [])
  }

  /** `s` is where the schedule leads from the initial state, every step enabled. */
  ghost predicate Reaches(tasks: seq<Task>, ticks: seq<seq<string>>, schedule: seq<Thread>, s: State)
    decreases |schedule|
  {
    if schedule == [] then s == Initial(tasks, ticks)
    else
      var t := schedule[|schedule| - 1];
      exists p :: Reaches(tasks, ticks, schedule[..|schedule| - 1], p) && Enabled(p, t) && s == Step(p, t)
  }

  // ----- Lock discipline ---------------------------------------------------------------------

  /** Code that takes locks in rank order, and touches the feed list and the bus under their locks. */
  predicate Disciplined(held: set<Lock>, code: seq<Instr>)
    decreases |code|
  {
    if code == [] then held == {}
    else
      var rest := code[1..];
      match code[0]
      case Acquire(l) => (forall h | h in held :: Rank(h) < Rank(l)) && Disciplined(held + {l}, rest)
      case Release(l) => l in held && Disciplined(held - {l}, rest)
      case Mark(_) => KeepaliveLock in held && Disciplined(held, rest)
      case Visit(_) => KeepaliveLock in held && SessionLock !in held && Disciplined(held, rest)
      case Emit(_) => SessionLock in held && Disciplined(held, rest)
      case Return(_) => held == {} && Disciplined(held, rest)
  }

  lemma {:induction false} DispatchDisciplined(tasks: seq<Task>)
    ensures Disciplined({}, DispatchCode(tasks))
  {
    if tasks != [] {
      DispatchDisciplined(tasks[1..]);
      var rest := DispatchCode(tasks[1..]);
      var code := TaskCode(tasks[0]) + rest;
      match tasks[0] {
        case Snapshot =>
          assert code[2..] == rest && {RuntimeLock} - {RuntimeLock} == {};
          assert Disciplined({RuntimeLock}, code[1..]) by { assert code[1..][1..] == rest; }
        case NoteContact(d) =>
          NoteContactDisciplined(d, rest);
        case BusOp(d) =>
          QueryDisciplined({}, d, rest);
      }
    }
  }

  lemma NoteContactDisciplined(d: string, rest: seq<Instr>)
    requires Disciplined({}, rest)
    ensures Disciplined({}, TaskCode(NoteContact(d)) + rest)
  {
    var c := TaskCode(NoteContact(d)) + rest;
    assert c[5..][1..] == rest;
    assert Disciplined({}, c[5..]);
    assert {RuntimeLock} - {RuntimeLock} == {} && c[4..][1..] == c[5..];
    assert Disciplined({RuntimeLock}, c[4..]);
    assert {RuntimeLock} + {KeepaliveLock} - {KeepaliveLock} == {RuntimeLock} && c[3..][1..] == c[4..];
    assert Disciplined({RuntimeLock} + {KeepaliveLock}, c[3..]);
    assert c[2..][1..] == c[3..];
    assert Disciplined({RuntimeLock} + {KeepaliveLock}, c[2..]);
    assert c[1..][1..] == c[2..];
    assert Disciplined({RuntimeLock}, c[1..]);
    assert {} + {RuntimeLock} == {RuntimeLock};
  }

  /** One session operation, entered with no lock of its rank. */
  lemma QueryDisciplined(held: set<Lock>, d: string, rest: seq<Instr>)
    requires SessionLock !in held && Disciplined(held, rest)
    ensures Disciplined(held, [Acquire(SessionLock), Emit(d), Release(SessionLock)] + rest)
  {
    var c := [Acquire(SessionLock), Emit(d), Release(SessionLock)] + rest;
    assert held + {SessionLock} - {SessionLock} == held && c[2..][1..] == rest;
    assert Disciplined(held + {SessionLock}, c[2..]);
    assert c[1..][1..] == c[2..];
    assert Disciplined(held + {SessionLock}, c[1..]);
    forall h | h in held ensures Rank(h) < Rank(SessionLock) {
      assert h != SessionLock;
    }
  }

  lemma {:induction false} VisitsDisciplined(devices: seq<string>, rest: seq<Instr>)
    requires Disciplined({}, rest)
    ensures Disciplined({KeepaliveLock}, Visits(devices) + rest)
  {
    var c := Visits(devices) + rest;
    if devices == [] {
      assert c[1..] == rest && {KeepaliveLock} - {KeepaliveLock} == {};
    } else {
      VisitsDisciplined(devices[1..], rest);
      assert c[1..] == Visits(devices[1..]) + rest;
    }
  }

  lemma {:induction false} FeederDisciplined(ticks: seq<seq<string>>)
    ensures Disciplined({}, FeederCode(ticks))
  {
    if ticks != [] {
      FeederDisciplined(ticks[1..]);
      VisitsDisciplined(ticks[0], FeederCode(ticks[1..]));
      var c := FeederCode(ticks);
      assert c[1..] == Visits(ticks[0]) + FeederCode(ticks[1..]);
      assert {} + {KeepaliveLock} == {KeepaliveLock};
    }
  }

  // ----- Who emits, and when contact is noted ------------------------------------------------

  /** The feeder is about to emit to `d` only while it holds the feed list and `d` is still fed. */
  predicate EmitsWhileFed(s: State) {
    forall i | 0 <= i < |s.feeder| && s.feeder[i].Emit? ::
      && (i == 0 || (i == 1 && s.feeder[0] == Acquire(SessionLock)))
      && s.feeder[i].device !in s.done
      && KeepaliveLock in s.owner && s.owner[KeepaliveLock] == Feeder
  }

  /** `note_contact(d)` returns only after `d` was marked. */
  predicate ReturnsAfterMark(s: State) {
    forall i | 0 <= i < |s.dispatch| && s.dispatch[i].Return? ::
      s.dispatch[i].device in s.done || exists j :: 0 <= j < i && s.dispatch[j] == Mark(s.dispatch[i].device)
  }

  predicate FeederNeverMarks(s: State) {
    && (forall i | 0 <= i < |s.feeder| :: !s.feeder[i].Mark? && !s.feeder[i].Return?)
    && (forall i | 0 <= i < |s.dispatch| :: !s.dispatch[i].Visit?)
  }

  /** Once contact with `d` has returned, the feeder sends `d` nothing. */
  predicate TraceOk(s: State) {
    && (forall i | 0 <= i < |s.trace| && s.trace[i].Returned? :: s.trace[i].device in s.done)
    && (forall i, j | 0 <= i < j < |s.trace| && s.trace[i].Returned? :: s.trace[j] != Sent(Feeder, s.trace[i].device))
  }

  function Held(s: State, t: Thread): set<Lock> {
    set l | l in s.owner && s.owner[l] == t
  }

  predicate Invariant(s: State) {
    && Disciplined(Held(s, Dispatch), s.dispatch)
    && Disciplined(Held(s, Feeder), s.feeder)
    && EmitsWhileFed(s) && ReturnsAfterMark(s) && FeederNeverMarks(s) && TraceOk(s)
  }

  /** Every return in dispatch code comes after its mark. */
  predicate MarksFirst(c: seq<Instr>) {
    forall i | 0 <= i < |c| && c[i].Return? :: exists j :: 0 <= j < i && c[j] == Mark(c[i].device)
  }

  predicate NoVisit(c: seq<Instr>) { forall i | 0 <= i < |c| :: !c[i].Visit? }

  predicate FeederOnly(c: seq<Instr>) { forall i | 0 <= i < |c| :: !c[i].Emit? && !c[i].Mark? && !c[i].Return? }

  lemma MarksFirstConcat(c: seq<Instr>, d: seq<Instr>)
    requires MarksFirst(c) && MarksFirst(d)
    ensures MarksFirst(c + d)
  {
    var e := c + d;
    forall i | 0 <= i < |e| && e[i].Return? ensures exists j :: 0 <= j < i && e[j] == Mark(e[i].device) {
      if i < |c| {
        var j :| 0 <= j < i && c[j] == Mark(c[i].device);
        assert e[j] == c[j];
      } else {
        var j :| 0 <= j < i - |c| && d[j] == Mark(d[i - |c|].device);
        assert e[j + |c|] == d[j];
      }
    }
  }

  lemma {:induction false} DispatchShape(tasks: seq<Task>)
    ensures NoVisit(DispatchCode(tasks)) && MarksFirst(DispatchCode(tasks))
  {
    if tasks != [] {
      DispatchShape(tasks[1..]);
      var head := TaskCode(tasks[0]);
      assert tasks[0].NoteContact? ==> head[2] == Mark(tasks[0].device);
      MarksFirstConcat(head, DispatchCode(tasks[1..]));
    }
  }

  lemma {:induction false} VisitsShape(devices: seq<string>)
    ensures FeederOnly(Visits(devices))
  {
    if devices != [] {
      VisitsShape(devices[1..]);
    }
  }

  lemma {:induction false} FeederShape(ticks: seq<seq<string>>)
    ensures FeederOnly(FeederCode(ticks))
  {
    if ticks != [] {
      VisitsShape(ticks[0]);
      FeederShape(ticks[1..]);
    }
  }

  lemma InitialInvariant(tasks: seq<Task>, ticks: seq<seq<string>>)
    ensures Invariant(Initial(tasks, ticks))
  {
    var s := Initial(tasks, ticks);
    DispatchDisciplined(tasks);
    FeederDisciplined(ticks);
    DispatchShape(tasks);
    FeederShape(ticks);
    assert Held(s, Dispatch) == {} && Held(s, Feeder) == {};
  }

  lemma StepKeepsDiscipline(s: State, t: Thread)
    requires Invariant(s) && Enabled(s, t)
    ensures Disciplined(Held(Step(s, t), Dispatch), Step(s, t).dispatch)
    ensures Disciplined(Held(Step(s, t), Feeder), Step(s, t).feeder)
  {
    var s' := Step(s, t);
    var other := if t.Dispatch? then Feeder else Dispatch;
    var x := Code(s, t)[0];
    assert Disciplined(Held(s, t), Code(s, t));
    assert Held(s', other) == Held(s, other);
    match x {
      case Acquire(l) => assert Held(s', t) == Held(s, t) + {l};
      case Release(l) => assert Held(s', t) == Held(s, t) - {l};
      case Visit(d) =>
        assert Held(s', t) == Held(s, t);
        QueryDisciplined(Held(s, t), d, Code(s, t)[1..]);
      case _ => assert Held(s', t) == Held(s, t);
    }
  }

  /** The feeder's code has a frame to emit only at its head, behind the session lock it may still have to take. */
  lemma NoEmitAhead(s: State)
    requires EmitsWhileFed(s)
    requires s.feeder != [] ==> !s.feeder[0].Emit? && s.feeder[0] != Acquire(SessionLock)
    ensures forall i | 0 <= i < |s.feeder| :: !s.feeder[i].Emit?
  {
  }

  /** While the dispatch thread holds the feed list, the feeder has nothing to emit. */
  lemma NoEmitWithoutList(s: State)
    requires EmitsWhileFed(s) && KeepaliveLock in s.owner && s.owner[KeepaliveLock] == Dispatch
    ensures forall i | 0 <= i < |s.feeder| :: !s.feeder[i].Emit?
  {
  }

  lemma FeederVisit(s: State)
    requires Invariant(s) && s.feeder != [] && s.feeder[0].Visit?
    ensures EmitsWhileFed(Step(s, Feeder))
  {
    NoEmitAhead(s);
    assert KeepaliveLock in Held(s, Feeder);
  }

  lemma FeederAcquires(s: State)
    requires Invariant(s) && Enabled(s, Feeder) && s.feeder[0].Acquire?
    ensures EmitsWhileFed(Step(s, Feeder))
  {
    var s' := Step(s, Feeder);
    forall i | 0 <= i < |s'.feeder| && s'.feeder[i].Emit?
      ensures i == 0 && s'.feeder[i].device !in s'.done
      ensures KeepaliveLock in s'.owner && s'.owner[KeepaliveLock] == Feeder
    {
      assert s'.feeder[i] == s.feeder[i + 1];
    }
  }

  lemma FeederOther(s: State)
    requires Invariant(s) && s.feeder != [] && !s.feeder[0].Visit? && !s.feeder[0].Acquire?
    ensures EmitsWhileFed(Step(s, Feeder))
  {
    var s' := Step(s, Feeder);
    forall i | 0 <= i < |s'.feeder| ensures !s'.feeder[i].Emit? {
      assert s'.feeder[i] == s.feeder[i + 1];
    }
  }

  lemma DispatchMarks(s: State)
    requires Invariant(s) && s.dispatch != [] && s.dispatch[0].Mark?
    ensures EmitsWhileFed(Step(s, Dispatch))
  {
    assert KeepaliveLock in Held(s, Dispatch);
    NoEmitWithoutList(s);
  }

  lemma DispatchOther(s: State)
    requires Invariant(s) && Enabled(s, Dispatch) && !s.dispatch[0].Mark?
    ensures EmitsWhileFed(Step(s, Dispatch))
  {
    var s' := Step(s, Dispatch);
    assert s'.feeder == s.feeder && s'.done == s.done;
    if KeepaliveLock in s.owner && s.owner[KeepaliveLock] == Feeder {
      assert KeepaliveLock !in Held(s, Dispatch);
      assert KeepaliveLock in s'.owner && s'.owner[KeepaliveLock] == Feeder;
    }
  }

  lemma StepKeepsEmits(s: State, t: Thread)
    requires Invariant(s) && Enabled(s, t)
    ensures EmitsWhileFed(Step(s, t))
  {
    match t {
      case Feeder =>
        if s.feeder[0].Visit? {
          FeederVisit(s);
        } else if s.feeder[0].Acquire? {
          FeederAcquires(s);
        } else {
          FeederOther(s);
        }
      case Dispatch =>
        if s.dispatch[0].Mark? {
          DispatchMarks(s);
        } else {
          DispatchOther(s);
        }
    }
  }

  lemma StepKeepsRoles(s: State, t: Thread)
    requires Invariant(s) && Enabled(s, t)
    ensures FeederNeverMarks(Step(s, t))
  {
  }

  lemma StepKeepsReturns(s: State, t: Thread)
    requires Invariant(s) && Enabled(s, t)
    ensures ReturnsAfterMark(Step(s, t))
  {
    var s' := Step(s, t);
    if t.Dispatch? {
      forall i | 0 <= i < |s'.dispatch| && s'.dispatch[i].Return?
        ensures s'.dispatch[i].device in s'.done || exists j :: 0 <= j < i && s'.dispatch[j] == Mark(s'.dispatch[i].device)
      {
        assert s.dispatch[i + 1] == s'.dispatch[i];
        if s.dispatch[i + 1].device !in s.done {
          var j :| 0 <= j < i + 1 && s.dispatch[j] == Mark(s.dispatch[i + 1].device);
          if j > 0 {
            assert s'.dispatch[j - 1] == s.dispatch[j];
          }
        }
      }
    }
  }

  /** A frame of the feeder goes to a device no contact with which has returned. */
  lemma EmitKeepsTrace(s: State, t: Thread)
    requires Invariant(s) && Enabled(s, t) && Code(s, t)[0].Emit?
    ensures TraceOk(Step(s, t))
  {
    if t.Feeder? {
      assert s.feeder[0].device !in s.done;
    }
  }

  lemma ReturnKeepsTrace(s: State, t: Thread)
    requires Invariant(s) && Enabled(s, t) && Code(s, t)[0].Return?
    ensures TraceOk(Step(s, t))
  {
    assert t.Dispatch? && s.dispatch[0].device in s.done;
  }

  lemma StepKeepsTrace(s: State, t: Thread)
    requires Invariant(s) && Enabled(s, t)
    ensures TraceOk(Step(s, t))
  {
    match Code(s, t)[0] {
      case Emit(_) => EmitKeepsTrace(s, t);
      case Return(_) => ReturnKeepsTrace(s, t);
      case _ => assert Step(s, t).trace == s.trace && s.done <= Step(s, t).done;
    }
  }

  lemma StepKeepsInvariant(s: State, t: Thread)
    requires Invariant(s) && Enabled(s, t)
    ensures Invariant(Step(s, t))
  {
    StepKeepsDiscipline(s, t);
    StepKeepsEmits(s, t);
    StepKeepsRoles(s, t);
    StepKeepsReturns(s, t);
    StepKeepsTrace(s, t);
  }

  lemma {:induction false} ReachableInvariant(
    tasks: seq<Task>, ticks: seq<seq<string>>, schedule: seq<Thread>, s: State)
    requires Reaches(tasks, ticks, schedule, s)
    ensures Invariant(s)
    decreases |schedule|
  {
    if schedule == [] {
      InitialInvariant(tasks, ticks);
    } else {
      var t := schedule[|schedule| - 1];
      var p :| Reaches(tasks, ticks, schedule[..|schedule| - 1], p) && Enabled(p, t) && s == Step(p, t);
      ReachableInvariant(tasks, ticks, schedule[..|schedule| - 1], p);
      StepKeepsInvariant(p, t);
    }
  }

  /**
   In every interleaving, once `note_contact(d)` has returned, every later frame to `d` comes from
   the dispatch thread: a confirmed SET runs free of feeder traffic at its address.
   */
  lemma NoFeedingAfterContact(
    tasks: seq<Task>, ticks: seq<seq<string>>, schedule: seq<Thread>, s: State, i: nat, j: nat)
    requires Reaches(tasks, ticks, schedule, s)
    requires i < j < |s.trace| && s.trace[i].Returned? && s.trace[j].Sent?
    ensures s.trace[j].device == s.trace[i].device ==> s.trace[j].thread == Dispatch
  {
    ReachableInvariant(tasks, ticks, schedule, s);
  }

  function Other(t: Thread): Thread {
    match t case Dispatch => Feeder case Feeder => Dispatch
  }

  /** A blocked thread waits for the other one, and holds only locks of lower rank. */
  lemma WaitsForOther(s: State, t: Thread)
    requires Invariant(s) && !Enabled(s, t) && Code(s, t) != []
    ensures var l := Code(s, t)[0].l;
            && l in Held(s, Other(t)) && Code(s, Other(t)) != []
            && forall h | h in Held(s, t) :: Rank(h) < Rank(l)
  {
    assert Disciplined(Held(s, t), Code(s, t));
    assert Code(s, t)[0].l !in Held(s, t);
    assert Disciplined(Held(s, Other(t)), Code(s, Other(t)));
  }

  /** No deadlock: until both threads have finished, one of them can step. */
  lemma NoDeadlock(tasks: seq<Task>, ticks: seq<seq<string>>, schedule: seq<Thread>, s: State)
    requires Reaches(tasks, ticks, schedule, s)
    ensures (s.dispatch == [] && s.feeder == []) || Enabled(s, Dispatch) || Enabled(s, Feeder)
  {
    ReachableInvariant(tasks, ticks, schedule, s);
    if !Enabled(s, Dispatch) && s.dispatch != [] {
      WaitsForOther(s, Dispatch);
    }
    if !Enabled(s, Feeder) && s.feeder != [] {
      WaitsForOther(s, Feeder);
    }
  }
}
