/**
 What the session's bookkeeping means: for every sequence of session operations, takes and
 rejections, the two flags of an address are exactly what its history says.
 */
module SessionHistory {
  import opened Bytes
  import opened Protocol
  import opened SessionModel

  datatype Event = Completed(address: byte, status: SessionStatus) | Taken(address: byte) | Refused(address: byte)

  predicate CompletedAt(e: Event, a: byte) { e.Completed? && e.address == a }
  predicate FailedAt(e: Event, a: byte) { CompletedAt(e, a) && !e.status.Ok() }
  predicate OkAt(e: Event, a: byte) { CompletedAt(e, a) && e.status.Ok() }

  /** The most recent operation at `a` failed. */
  ghost predicate LatestFailed(h: seq<Event>, a: byte) {
    exists i :: 0 <= i < |h| && FailedAt(h[i], a) && forall k :: i < k < |h| ==> !CompletedAt(h[k], a)
  }

  /** Operations `i` and `j` at `a` follow each other, the first failed and the second did not. */
  ghost predicate RecoveredAt(h: seq<Event>, a: byte, i: int, j: int) {
    0 <= i < j < |h| && FailedAt(h[i], a) && OkAt(h[j], a) && forall k :: i < k < j ==> !CompletedAt(h[k], a)
  }

  /** A success directly following a failure has completed since the last take. */
  ghost predicate RecoveredSinceTake(h: seq<Event>, a: byte) {
    exists i, j :: RecoveredAt(h, a, i, j) && forall k :: j < k < |h| ==> h[k] != Taken(a)
  }

  function Note(k: Book, e: Event): Book {
    match e
    case Completed(a, s) => RecordOutcome(k, a, s)
    case Taken(a) => TakeRecovery(k, a)
    case Refused(a) => RecordRejection(k, a)
  }

  function BookOf(h: seq<Event>): Book {
    if h == [] then EMPTY_BOOK else Note(BookOf(h[..|h| - 1]), h[|h| - 1])
  }

  /** What one event does to the flags of an address. */
  lemma NoteFlags(k: Book, e: Event, a: byte)
    ensures a in Note(k, e).failed <==> FailedAt(e, a) || (a in k.failed && !CompletedAt(e, a))
    ensures a in Note(k, e).recovery <==> (a in k.recovery && e != Taken(a)) || (OkAt(e, a) && a in k.failed)
  {
  }

  lemma LatestFailedStep(g: seq<Event>, e: Event, a: byte)
    ensures LatestFailed(g + [e], a) <==> FailedAt(e, a) || (LatestFailed(g, a) && !CompletedAt(e, a))
  {
    var h := g + [e];
    assert h[|g|] == e;
    if LatestFailed(g, a) && !CompletedAt(e, a) {
      var i :| 0 <= i < |g| && FailedAt(g[i], a) && forall k :: i < k < |g| ==> !CompletedAt(g[k], a);
      assert FailedAt(h[i], a);
    }
    if LatestFailed(h, a) && !FailedAt(e, a) {
      var i :| 0 <= i < |h| && FailedAt(h[i], a) && forall k :: i < k < |h| ==> !CompletedAt(h[k], a);
      assert FailedAt(g[i], a);
      assert forall k :: i < k < |g| ==> g[k] == h[k];
    }
  }

  lemma RecoveredAtPrefix(g: seq<Event>, e: Event, a: byte, i: int, j: int)
    requires j < |g|
    ensures RecoveredAt(g + [e], a, i, j) <==> RecoveredAt(g, a, i, j)
  {
    var h := g + [e];
    assert forall k :: 0 <= k < |g| ==> h[k] == g[k];
  }

  lemma RecoveredStays(g: seq<Event>, e: Event, a: byte)
    requires (RecoveredSinceTake(g, a) && e != Taken(a)) || (OkAt(e, a) && LatestFailed(g, a))
    ensures RecoveredSinceTake(g + [e], a)
  {
    var h := g + [e];
    assert h[|g|] == e;
    if RecoveredSinceTake(g, a) && e != Taken(a) {
      var i, j :| RecoveredAt(g, a, i, j) && forall k :: j < k < |g| ==> g[k] != Taken(a);
      RecoveredAtPrefix(g, e, a, i, j);
    } else {
      var i :| 0 <= i < |g| && FailedAt(g[i], a) && forall k :: i < k < |g| ==> !CompletedAt(g[k], a);
      assert RecoveredAt(h, a, i, |g|);
    }
  }

  lemma RecoveredBefore(g: seq<Event>, e: Event, a: byte)
    requires RecoveredSinceTake(g + [e], a)
    ensures (RecoveredSinceTake(g, a) && e != Taken(a)) || (OkAt(e, a) && LatestFailed(g, a))
  {
    var h := g + [e];
    assert h[|g|] == e;
    var i, j :| RecoveredAt(h, a, i, j) && forall k :: j < k < |h| ==> h[k] != Taken(a);
    assert forall k :: 0 <= k < |g| ==> h[k] == g[k];
    if j < |g| {
      RecoveredAtPrefix(g, e, a, i, j);
    } else {
      assert FailedAt(g[i], a);
    }
  }

  lemma RecoveredStep(g: seq<Event>, e: Event, a: byte)
    ensures RecoveredSinceTake(g + [e], a)
            <==> (RecoveredSinceTake(g, a) && e != Taken(a)) || (OkAt(e, a) && LatestFailed(g, a))
  {
    if RecoveredSinceTake(g + [e], a) {
      RecoveredBefore(g, e, a);
    } else if (RecoveredSinceTake(g, a) && e != Taken(a)) || (OkAt(e, a) && LatestFailed(g, a)) {
      RecoveredStays(g, e, a);
    }
  }

  /** The two flags of an address say exactly what its history says. */
  lemma {:induction false} FlagMeaning(h: seq<Event>, a: byte)
    ensures a in BookOf(h).failed <==> LatestFailed(h, a)
    ensures a in BookOf(h).recovery <==> RecoveredSinceTake(h, a)
  {
    if h != [] {
      var g, e := h[..|h| - 1], h[|h| - 1];
      FlagMeaning(g, a);
      assert h == g + [e];
      NoteFlags(BookOf(g), e, a);
      LatestFailedStep(g, e, a);
      RecoveredStep(g, e, a);
    }
  }

  // ----- Runs of a session -------------------------------------------------------------------

  datatype Request = Do(address: byte, op: Op) | Take(address: byte) | Reject(address: byte)

  datatype Served = Served(world: World, history: seq<Event>)

  function ServeOne(env: Env, s: Served, r: Request): Served {
    match r
    case Take(a) => Served(s.world.(book := TakeRecovery(s.world.book, a)), s.history + [Taken(a)])
    case Reject(a) => Served(Rejected(s.world, a), s.history + [Refused(a)])
    case Do(a, op) =>
      var p := Perform(env, s.world, a, op);
      Served(p.world, if Refusal(s.world, a, op).Some? then s.history else s.history + [Completed(a, p.status)])
  }

  function Serve(env: Env, w: World, rs: seq<Request>): Served {
    if rs == [] then Served(w, []) else ServeOne(env, Serve(env, w, rs[..|rs| - 1]), rs[|rs| - 1])
  }

  lemma ServeOneKeepsBook(env: Env, s: Served, r: Request)
    requires s.world.book == BookOf(s.history)
    ensures var s' := ServeOne(env, s, r); s'.world.book == BookOf(s'.history)
  {
    var h := ServeOne(env, s, r).history;
    if |h| > |s.history| {
      assert h[..|h| - 1] == s.history;
    }
  }

  lemma {:induction false} ServeKeepsBook(env: Env, w: World, rs: seq<Request>)
    requires w.book == EMPTY_BOOK
    ensures var s := Serve(env, w, rs); s.world.book == BookOf(s.history)
  {
    if rs != [] {
      ServeKeepsBook(env, w, rs[..|rs| - 1]);
      ServeOneKeepsBook(env, Serve(env, w, rs[..|rs| - 1]), rs[|rs| - 1]);
    }
  }

  /**
   Over every run of a session, under every fault pattern: `last_op_failed` says that the latest
   operation at the address failed, and `take_recovery` is about to return true exactly when a
   success has directly followed a failure since the last take.
   */
  lemma FlagsFollowHistory(env: Env, w: World, rs: seq<Request>, a: byte)
    requires w.book == EMPTY_BOOK
    ensures var s := Serve(env, w, rs);
            && (a in s.world.book.failed <==> LatestFailed(s.history, a))
            && (a in s.world.book.recovery <==> RecoveredSinceTake(s.history, a))
  {
    ServeKeepsBook(env, w, rs);
    FlagMeaning(Serve(env, w, rs).history, a);
  }
}
