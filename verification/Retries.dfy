/**
 Which failures the session tries again: the six transport codes, unless the bus timed out, as long
 as the retry count lasts. Stated over the tries themselves and over the fault pattern.
 */
module Retries {
  import opened Bytes
  import opened Protocol
  import opened SessionModel

  /** The bus before try number `i` of an operation, when every try before it is made. */
  function BusBefore(tape: seq<Link>, b: Bus, a: byte, op: Op, i: nat): Bus {
    if i <= 1 then b else TryOnce(tape, BusBefore(tape, b, a, op, i - 1), a, op).bus
  }

  /** Try number `i`. */
  function Try(tape: seq<Link>, b: Bus, a: byte, op: Op, i: nat): Tried {
    TryOnce(tape, BusBefore(tape, b, a, op, i), a, op)
  }

  /** A failure of the transport that is not a bus timeout. */
  predicate Transient(code: SessionCode, native: int) {
    && native != 110
    && (code.ScanFailed? || code.WriteFailed? || code.ReadFailed? || code.Timeout? || code.DecodeFailed?
        || code.TransportError?)
  }

  lemma FinalMeaning(t: Tried, attempt: nat, max: nat)
    ensures Final(t, attempt, max) <==> !Transient(t.code, t.native) || attempt == max
  {
  }

  predicate AllTransient(tape: seq<Link>, b: Bus, a: byte, op: Op, n: nat) {
    forall i | 1 <= i <= n :: Transient(Try(tape, b, a, op, i).code, Try(tape, b, a, op, i).native)
  }

  /** Try number `k` decides: those before it failed in passing, and it did not or is the last allowed. */
  predicate Decides(tape: seq<Link>, b: Bus, a: byte, op: Op, k: nat, max: nat) {
    && 1 <= k <= max && AllTransient(tape, b, a, op, k - 1)
    && (k == max || !Transient(Try(tape, b, a, op, k).code, Try(tape, b, a, op, k).native))
  }

  lemma {:induction false} AttemptsDecide(
    tape: seq<Link>, b: Bus, log: seq<Attempt>, a: byte, op: Op, n: nat, max: nat, from: Bus)
    requires 1 <= n <= max && b == BusBefore(tape, from, a, op, n) && AllTransient(tape, from, a, op, n - 1)
    ensures var r := Attempts(tape, b, log, a, op, n, max);
            var k := r.status.attempts;
            && Decides(tape, from, a, op, k, max)
            && var t := Try(tape, from, a, op, k);
               r.status.code == t.code && r.status.native == t.native && r.reply == t.reply && r.bus == t.bus
    decreases max - n
  {
    var t := TryOnce(tape, b, a, op);
    assert t == Try(tape, from, a, op, n);
    FinalMeaning(t, n, max);
    if !Final(t, n, max) {
      AttemptsDecide(tape, t.bus, log + [Attempt(a, op)], a, op, n + 1, max, from);
    }
  }

  lemma OneDecides(tape: seq<Link>, b: Bus, a: byte, op: Op, j: nat, k: nat, max: nat)
    requires Decides(tape, b, a, op, j, max) && Decides(tape, b, a, op, k, max)
    ensures j == k
  {
  }

  /** The number of tries a session allows: `retry_count + 1`, and at least one. */
  function Allowed(retry: int): (n: nat)
    ensures retry >= 0 ==> n == retry + 1
    ensures retry < 0 ==> n == 1
  {
    if retry < 0 then 1 else retry + 1
  }

  /**
   An operation that passes the checks ends with the try that decides, reports its number and returns
   what it returned. Every try before it ended in one of the six transport codes and not in a bus
   timeout; it is a success, another failure, or try number `retry_count + 1`.
   */
  lemma OperationDecides(env: Env, w: World, a: byte, op: Op)
    requires Refusal(w, a, op).None?
    ensures var p := Perform(env, w, a, op);
            var k := p.status.attempts;
            && Decides(env.tape, w.bus, a, op, k, Allowed(env.retry))
            && var t := Try(env.tape, w.bus, a, op, k);
               p.status.code == t.code && p.status.native == t.native && p.reply == t.reply && p.world.bus == t.bus
  {
    AttemptsDecide(env.tape, w.bus, w.log, a, op, 1, MaxAttempts(env.retry), w.bus);
  }

  /** If tries 1 to `n <= retry_count` fail in passing and the next succeeds, so does the operation, on that attempt. */
  lemma PassingFailuresAreRetried(env: Env, w: World, a: byte, op: Op, n: nat)
    requires Refusal(w, a, op).None? && n <= env.retry && AllTransient(env.tape, w.bus, a, op, n)
    requires Try(env.tape, w.bus, a, op, n + 1).code.CodeOk?
    ensures var p := Perform(env, w, a, op);
            && p.status.Ok() && p.status.attempts == n + 1
            && p.reply == Try(env.tape, w.bus, a, op, n + 1).reply
  {
    OperationDecides(env, w, a, op);
    OneDecides(env.tape, w.bus, a, op, Perform(env, w, a, op).status.attempts, n + 1, Allowed(env.retry));
  }

  // ----- Over the fault pattern --------------------------------------------------------------

  /** A send uses the link once per try and ends as the link says. */
  lemma {:induction false} SendTries(tape: seq<Link>, b: Bus, a: byte, f: Frame, i: nat)
    requires i >= 1
    ensures var t := Try(tape, b, a, SendFrame(f), i);
            && t.code == At(tape, b.tick + i - 1).code && t.native == At(tape, b.tick + i - 1).native
            && t.bus.tick == b.tick + i
  {
    if i > 1 {
      SendTries(tape, b, a, f, i - 1);
    }
  }

  /** The link fails in passing at tick `t`. */
  predicate TransientAt(tape: seq<Link>, t: nat) {
    Transient(At(tape, t).code, At(tape, t).native)
  }

  /** A send that the link fails `n` times in passing and then lets through answers OK on attempt `n + 1`. */
  lemma SendIsRetried(env: Env, w: World, a: byte, f: Frame, n: nat)
    requires Refusal(w, a, SendFrame(f)).None? && n <= env.retry
    requires forall t | w.bus.tick <= t < w.bus.tick + n :: TransientAt(env.tape, t)
    requires At(env.tape, w.bus.tick + n).code.CodeOk?
    ensures var s := Perform(env, w, a, SendFrame(f)).status; s.Ok() && s.attempts == n + 1
  {
    forall i | 1 <= i <= n
      ensures Transient(Try(env.tape, w.bus, a, SendFrame(f), i).code, Try(env.tape, w.bus, a, SendFrame(f), i).native)
    {
      SendTries(env.tape, w.bus, a, f, i);
      assert TransientAt(env.tape, w.bus.tick + i - 1);
    }
    SendTries(env.tape, w.bus, a, f, n + 1);
    PassingFailuresAreRetried(env, w, a, SendFrame(f), n);
  }

  /** From tick `t` on, `n` queries are staged and their replies are lost. */
  predicate RepliesLost(tape: seq<Link>, t: nat, n: nat) {
    forall i | 0 <= i < n ::
      && At(tape, t + 2 * i).code.CodeOk?
      && At(tape, t + 2 * i + 1) == Link(false, CodeOk, 0)
  }

  lemma {:induction false} LostReplyTries(tape: seq<Link>, b: Bus, a: byte, reply: byte, i: nat)
    requires i >= 1 && RepliesLost(tape, b.tick, i)
    ensures var t := Try(tape, b, a, QueryFor(reply), i);
            t.code == ReadFailed && t.native == 0 && t.bus.tick == b.tick + 2 * i
  {
    if i > 1 {
      LostReplyTries(tape, b, a, reply, i - 1);
    }
    var b' := BusBefore(tape, b, a, QueryFor(reply), i);
    assert b'.tick == b.tick + 2 * (i - 1);
    assert At(tape, b.tick + 2 * (i - 1)).code.CodeOk?;
  }

  /** A query whose first `n` replies are lost, `n <= retry_count`, is answered by the reply that comes. */
  lemma LostRepliesAreRetried(env: Env, w: World, a: byte, reply: byte, n: nat)
    requires Refusal(w, a, QueryFor(reply)).None? && n <= env.retry && RepliesLost(env.tape, w.bus.tick, n)
    requires Try(env.tape, w.bus, a, QueryFor(reply), n + 1).code.CodeOk?
    ensures var p := Perform(env, w, a, QueryFor(reply));
            && p.status.Ok() && p.status.attempts == n + 1
            && p.reply == Try(env.tape, w.bus, a, QueryFor(reply), n + 1).reply
  {
    forall i | 1 <= i <= n
      ensures Transient(Try(env.tape, w.bus, a, QueryFor(reply), i).code, Try(env.tape, w.bus, a, QueryFor(reply), i).native)
    {
      LostReplyTries(env.tape, w.bus, a, reply, i);
    }
    PassingFailuresAreRetried(env, w, a, QueryFor(reply), n);
  }
}
