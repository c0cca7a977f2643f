/** Retrying a message handler with backoff, dead-lettering it and acknowledging the message. */
module Retry {
  import Statistics

  /**
    What one call does to the outside, in order. An acknowledgement that raises has not acknowledged. A dead letter
    whose write fails is dropped without an exception, so it says whether it reached the stream.
    */
  datatype Effect =
    | Handle(attempt: nat, returned: bool)
    | Ack(returned: bool)
    | Sleep(seconds: real)
    | DeadLetter(attempts: nat, stored: bool)

  /** Succeeded and DeadLettered are the two results; Raised is the exception of the last acknowledgement. */
  datatype Outcome = Succeeded | DeadLettered | Raised

  /** Whether the n-th call of something returns instead of raising; calls are numbered from 1. */
  type Oracle = nat -> bool

  /** max_retries is the number of attempts; anything below one counts as one. */
  function Budget(maxRetries: int): (n: nat)
    ensures n >= 1 && n >= maxRetries && (n == 1 || n == maxRetries)
  {
    if maxRetries < 1 then 1 else maxRetries
  }

  /** Attempt k ends the loop: the handler returns, and so does the acknowledgement made in the same try block. */
  predicate Completes(handler: Oracle, ack: Oracle, k: nat) {
    handler(k) && ack(k)
  }

  /** The first attempt among k, ..., n that completes, else n + 1. */
  function FirstCompleting(handler: Oracle, ack: Oracle, k: nat, n: nat): (f: nat)
    requires k <= n + 1
    ensures k <= f <= n + 1
    ensures f <= n ==> Completes(handler, ack, f)
    ensures forall j | k <= j < f :: !Completes(handler, ack, j)
    decreases n + 1 - k
  {
    if k == n + 1 || Completes(handler, ack, k) then k else FirstCompleting(handler, ack, k + 1, n)
  }

  // ------------------------------------------------------------ reading a trace

  function Runs(trace: seq<Effect>): nat {
    if trace == [] then 0
    else Runs(trace[..|trace| - 1]) + if trace[|trace| - 1].Handle? then 1 else 0
  }

  /** Acknowledgements that reached the broker. */
  function Acks(trace: seq<Effect>): nat {
    if trace == [] then 0
    else Acks(trace[..|trace| - 1]) + if trace[|trace| - 1] == Ack(true) then 1 else 0
  }

  /** Dead letters that reached the stream. */
  function DeadLetters(trace: seq<Effect>): nat {
    if trace == [] then 0
    else
      var last := trace[|trace| - 1];
      DeadLetters(trace[..|trace| - 1]) + if last.DeadLetter? && last.stored then 1 else 0
  }

  function Slept(trace: seq<Effect>): real {
    if trace == [] then 0.0
    else Slept(trace[..|trace| - 1]) + if trace[|trace| - 1].Sleep? then trace[|trace| - 1].seconds else 0.0
  }

  function Waits(trace: seq<Effect>): nat {
    if trace == [] then 0
    else Waits(trace[..|trace| - 1]) + if trace[|trace| - 1].Sleep? then 1 else 0
  }

  lemma {:induction false} ReadOneMore(trace: seq<Effect>, e: Effect)
    ensures Runs(trace + [e]) == Runs(trace) + if e.Handle? then 1 else 0
    ensures Acks(trace + [e]) == Acks(trace) + if e == Ack(true) then 1 else 0
    ensures DeadLetters(trace + [e]) == DeadLetters(trace) + if e.DeadLetter? && e.stored then 1 else 0
    ensures Slept(trace + [e]) == Slept(trace) + if e.Sleep? then e.seconds else 0.0
    ensures Waits(trace + [e]) == Waits(trace) + if e.Sleep? then 1 else 0
  {
    assert (trace + [e])[..|trace|] == trace;
  }

  /** The handler has returned or the message has been dead-lettered. */
  predicate AllowsAck(e: Effect) {
    e.DeadLetter? || (e.Handle? && e.returned)
  }

  /** Nothing is acknowledged before that. */
  ghost predicate AcksFollow(trace: seq<Effect>) {
    forall i | 0 <= i < |trace| && trace[i].Ack? :: i > 0 && AllowsAck(trace[i - 1])
  }

  // -------------------------------------------------------------------- backoff

  function PowerOfTwo(n: nat): (p: nat)
    ensures p >= 1
  {
    if n == 0 then 1 else 2 * PowerOfTwo(n - 1)
  }

  /** The wait after the attempt-th failure: the base, doubled with every further attempt, up to the cap. */
  function Delay(base: real, cap: real, attempt: nat): real
    requires attempt >= 1
  {
    Statistics.Smaller(base * PowerOfTwo(attempt - 1) as real, cap)
  }

  /** The first wait is the base, and each further one twice the one before, all up to the cap. */
  lemma {:induction false} DelayDoubles(base: real, cap: real, attempt: nat)
    requires attempt >= 1 && base >= 0.0 && cap >= 0.0
    ensures Delay(base, cap, 1) == if base <= cap then base else cap
    ensures var d := 2.0 * Delay(base, cap, attempt); Delay(base, cap, attempt + 1) == if d <= cap then d else cap
  {
    var p := PowerOfTwo(attempt - 1) as real;
    assert PowerOfTwo(attempt) as real == 2.0 * p;
    assert base * (2.0 * p) == 2.0 * (base * p);
    assert base * p >= 0.0;
  }

  /** The effect has its place: before the k-th run of the handler there were k - 1 waits, the k-th wait follows it. */
  predicate Scheduled(before: seq<Effect>, e: Effect, handler: Oracle, base: real, cap: real) {
    match e
    case Handle(attempt, returned) =>
      attempt == Runs(before) + 1 && returned == handler(attempt) && Waits(before) == Runs(before)
    case Sleep(seconds) =>
      Runs(before) >= 1 && Waits(before) == Runs(before) - 1
      && seconds == Statistics.Smaller(base * PowerOfTwo(Runs(before) - 1) as real, cap)
    case _ => true
  }

  ghost predicate OnSchedule(trace: seq<Effect>, handler: Oracle, base: real, cap: real) {
    forall i | 0 <= i < |trace| :: Scheduled(trace[..i], trace[i], handler, base, cap)
  }

  lemma {:induction false} ScheduledOneMore(trace: seq<Effect>, e: Effect, handler: Oracle, base: real, cap: real)
    requires OnSchedule(trace, handler, base, cap) && Scheduled(trace, e, handler, base, cap)
    ensures OnSchedule(trace + [e], handler, base, cap)
  {
    forall i | 0 <= i < |trace + [e]|
      ensures Scheduled((trace + [e])[..i], (trace + [e])[i], handler, base, cap)
    {
      if i < |trace| {
        assert (trace + [e])[..i] == trace[..i];
      } else {
        assert (trace + [e])[..i] == trace;
      }
    }
  }

  function Doubled(base: real, n: nat): real {
    base * (PowerOfTwo(n) - 1) as real
  }

  function Capped(cap: real, n: nat): real {
    n as real * cap
  }

  /** What all waits up to the n-th may add up to. */
  predicate WithinBackoff(slept: real, base: real, cap: real, n: nat) {
    slept <= Capped(cap, n) && slept <= Doubled(base, n)
  }

  lemma {:induction false} OneMoreDoubling(base: real, x: real)
    ensures base * (x - 1.0) + base * x == base * (2.0 * x - 1.0)
  {
  }

  lemma {:induction false} OneMoreCap(cap: real, n: real)
    ensures n * cap + cap == (n + 1.0) * cap
  {
  }

  lemma {:induction false} OneMoreDelay(slept: real, base: real, cap: real, attempt: nat)
    requires attempt >= 1 && WithinBackoff(slept, base, cap, attempt - 1)
    ensures WithinBackoff(slept + Delay(base, cap, attempt), base, cap, attempt)
  {
    OneMoreDoubling(base, PowerOfTwo(attempt - 1) as real);
    OneMoreCap(cap, (attempt - 1) as real);
  }

  // ------------------------------------------------------------------- contract

  /** What becomes of a message that is out of attempts: its dead letter is stored or dropped, and then it is acked. */
  datatype LastResort = LastResort(stored: bool, acked: bool)

  /** What a finished call promises about its trace. */
  ghost predicate Promised(handler: Oracle, ack: Oracle, last: LastResort, n: nat, trace: seq<Effect>,
      outcome: Outcome)
  {
    var f := FirstCompleting(handler, ack, 1, n);
    if f <= n then
      && outcome == Succeeded
      && Runs(trace) == f && Acks(trace) == 1 && DeadLetters(trace) == 0
    else
      && outcome == (if last.acked then DeadLettered else Raised)
      && Runs(trace) == n && DeadLetters(trace) == (if last.stored then 1 else 0)
      && Acks(trace) == (if last.acked then 1 else 0)
      && |trace| >= 2 && trace[|trace| - 2..] == [DeadLetter(n, last.stored), Ack(last.acked)]
  }

  /** The trace of attempts that all failed. */
  ghost predicate AllFailed(trace: seq<Effect>, attempts: nat) {
    Runs(trace) == attempts && Acks(trace) == 0 && DeadLetters(trace) == 0
  }

  lemma {:induction false} SettleTrace(trace: seq<Effect>, attempts: nat, last: LastResort)
    requires AllFailed(trace, attempts)
    ensures var t := trace + [DeadLetter(attempts, last.stored)] + [Ack(last.acked)];
            && Runs(t) == attempts && DeadLetters(t) == (if last.stored then 1 else 0)
            && Acks(t) == (if last.acked then 1 else 0)
            && Slept(t) == Slept(trace)
            && t[|t| - 2..] == [DeadLetter(attempts, last.stored), Ack(last.acked)]
  {
    ReadOneMore(trace, DeadLetter(attempts, last.stored));
    ReadOneMore(trace + [DeadLetter(attempts, last.stored)], Ack(last.acked));
  }

  lemma {:induction false} FirstIs(handler: Oracle, ack: Oracle, n: nat, k: nat)
    requires 1 <= k <= n + 1 && (k <= n ==> Completes(handler, ack, k))
    requires forall j | 1 <= j < k :: !Completes(handler, ack, j)
    ensures FirstCompleting(handler, ack, 1, n) == k
  {
  }

  /** One more effect of a failed attempt. */
  lemma {:induction false} StillFailing(trace: seq<Effect>, runs: nat, e: Effect)
    requires AllFailed(trace, runs) && e != Ack(true) && !e.DeadLetter?
    ensures AllFailed(trace + [e], if e.Handle? then runs + 1 else runs)
    ensures Slept(trace + [e]) == Slept(trace) + if e.Sleep? then e.seconds else 0.0
    ensures Waits(trace + [e]) == Waits(trace) + if e.Sleep? then 1 else 0
  {
    ReadOneMore(trace, e);
  }

  /** After k attempts that failed and w waits: nothing has completed and every effect had its place. */
  ghost predicate Failing(handler: Oracle, ack: Oracle, base: real, cap: real, k: nat, w: nat, trace: seq<Effect>) {
    && AllFailed(trace, k) && (forall j | 1 <= j <= k :: !Completes(handler, ack, j))
    && Paced(handler, base, cap, w, trace)
  }

  ghost predicate Paced(handler: Oracle, base: real, cap: real, w: nat, trace: seq<Effect>) {
    && Waits(trace) == w && OnSchedule(trace, handler, base, cap)
    && WithinBackoff(Slept(trace), base, cap, w) && AcksFollow(trace)
  }

  lemma {:induction false} AckFollows(trace: seq<Effect>, e: Effect)
    requires AcksFollow(trace) && (e.Ack? ==> trace != [] && AllowsAck(trace[|trace| - 1]))
    ensures AcksFollow(trace + [e])
  {
  }

  /** An effect that is no wait keeps the pace. */
  lemma {:induction false} StaysPaced(handler: Oracle, base: real, cap: real, w: nat, trace: seq<Effect>, e: Effect)
    requires Paced(handler, base, cap, w, trace) && !e.Sleep? && Scheduled(trace, e, handler, base, cap)
    requires e.Ack? ==> trace != [] && AllowsAck(trace[|trace| - 1])
    ensures Paced(handler, base, cap, w, trace + [e])
  {
    ReadOneMore(trace, e);
    ScheduledOneMore(trace, e, handler, base, cap);
    AckFollows(trace, e);
  }

  /** So does a wait that is due. */
  lemma {:induction false} WaitIsPaced(handler: Oracle, base: real, cap: real, k: nat, trace: seq<Effect>)
    requires k >= 1 && AllFailed(trace, k) && Paced(handler, base, cap, k - 1, trace)
    ensures Paced(handler, base, cap, k, trace + [Sleep(Delay(base, cap, k))])
  {
    ReadOneMore(trace, Sleep(Delay(base, cap, k)));
    ScheduledOneMore(trace, Sleep(Delay(base, cap, k)), handler, base, cap);
    AckFollows(trace, Sleep(Delay(base, cap, k)));
    OneMoreDelay(Slept(trace), base, cap, k);
  }

  /** The handler has run for the k-th time. */
  lemma {:induction false} HandlerRan(handler: Oracle, ack: Oracle, k: nat, base: real, cap: real, before: seq<Effect>)
    requires k >= 1 && Failing(handler, ack, base, cap, k - 1, k - 1, before)
    ensures var t := before + [Handle(k, handler(k))];
            AllFailed(t, k) && Paced(handler, base, cap, k - 1, t)
  {
    StillFailing(before, k - 1, Handle(k, handler(k)));
    StaysPaced(handler, base, cap, k - 1, before, Handle(k, handler(k)));
  }

  /** It has returned, and the acknowledgement was made. */
  lemma {:induction false} AckMade(handler: Oracle, k: nat, base: real, cap: real, trace: seq<Effect>, returned: bool)
    requires k >= 1 && AllFailed(trace, k) && Paced(handler, base, cap, k - 1, trace)
    requires trace != [] && trace[|trace| - 1] == Handle(k, true)
    ensures var t := trace + [Ack(returned)];
            && Runs(t) == k && Acks(t) == (if returned then 1 else 0) && DeadLetters(t) == 0
            && Paced(handler, base, cap, k - 1, t)
  {
    ReadOneMore(trace, Ack(returned));
    StaysPaced(handler, base, cap, k - 1, trace, Ack(returned));
  }

  /** One pass through the try block: the handler, then the acknowledgement if the handler returned. */
  method Attempt(handler: Oracle, ack: Oracle, k: nat, ghost base: real, ghost cap: real, before: seq<Effect>)
    returns (trace: seq<Effect>, completed: bool)
    requires k >= 1 && Failing(handler, ack, base, cap, k - 1, k - 1, before)
    ensures completed == Completes(handler, ack, k) && Paced(handler, base, cap, k - 1, trace)
    ensures completed ==> Runs(trace) == k && Acks(trace) == 1 && DeadLetters(trace) == 0
    ensures !completed ==> Failing(handler, ack, base, cap, k, k - 1, trace)
  {
    HandlerRan(handler, ack, k, base, cap, before);
    trace, completed := before + [Handle(k, handler(k))], false;
    if handler(k) {
      AckMade(handler, k, base, cap, trace, ack(k));
      trace, completed := trace + [Ack(ack(k))], ack(k);
    }
  }

  /** Whether to sleep after a failure: not after the last one. */
  method Backoff(ghost handler: Oracle, ghost ack: Oracle, k: nat, n: nat, base: real, cap: real, before: seq<Effect>)
    returns (trace: seq<Effect>)
    requires 1 <= k <= n && Failing(handler, ack, base, cap, k, k - 1, before)
    ensures trace == before + if k < n then [Sleep(Delay(base, cap, k))] else []
    ensures Failing(handler, ack, base, cap, k, if k < n then k else n - 1, trace)
  {
    trace := before;
    if k < n {
      StillFailing(trace, k, Sleep(Delay(base, cap, k)));
      WaitIsPaced(handler, base, cap, k, trace);
      trace := trace + [Sleep(Delay(base, cap, k))];
    } else {
      assert before + [] == before;
    }
  }

  /** The trace of a finished call with n attempts: how often each thing was done, where, and for how long it slept. */
  ghost predicate Finished(handler: Oracle, ack: Oracle, last: LastResort, n: nat, base: real, cap: real,
      trace: seq<Effect>, outcome: Outcome)
  {
    && Promised(handler, ack, last, n, trace, outcome)
    && OnSchedule(trace, handler, base, cap) && Waits(trace) == Runs(trace) - 1
    && WithinBackoff(Slept(trace), base, cap, n - 1)
    && AcksFollow(trace)
  }

  lemma {:induction false} CompletedIsFinished(handler: Oracle, ack: Oracle, last: LastResort, n: nat, base: real,
      cap: real, k: nat, trace: seq<Effect>)
    requires base >= 0.0 && cap >= 0.0 && 1 <= k <= n && Completes(handler, ack, k)
    requires forall j | 1 <= j < k :: !Completes(handler, ack, j)
    requires Paced(handler, base, cap, k - 1, trace) && Runs(trace) == k && Acks(trace) == 1 && DeadLetters(trace) == 0
    ensures Finished(handler, ack, last, n, base, cap, trace, Succeeded)
  {
    FirstIs(handler, ack, n, k);
    MoreBudget(Slept(trace), base, cap, k - 1, n - 1);
  }

  lemma {:induction false} SettledIsFinished(handler: Oracle, ack: Oracle, last: LastResort, n: nat, base: real,
      cap: real, trace: seq<Effect>)
    requires n >= 1 && Failing(handler, ack, base, cap, n, n - 1, trace)
    ensures Finished(handler, ack, last, n, base, cap, trace + [DeadLetter(n, last.stored)] + [Ack(last.acked)],
                     if last.acked then DeadLettered else Raised)
  {
    FirstIs(handler, ack, n, n + 1);
    SettleTrace(trace, n, last);
    StaysPaced(handler, base, cap, n - 1, trace, DeadLetter(n, last.stored));
    StaysPaced(handler, base, cap, n - 1, trace + [DeadLetter(n, last.stored)], Ack(last.acked));
  }

  /**
    Runs the handler until an attempt completes or the budget is spent, sleeping between attempts; a message
    whose every attempt failed is dead-lettered and then acknowledged, even if the dead letter is dropped. Sleeping
    demands non-negative times.
    */
  method ProcessWithRetries(handler: Oracle, ack: Oracle, last: LastResort, maxRetries: int, base: real, cap: real)
    returns (trace: seq<Effect>, outcome: Outcome)
    requires base >= 0.0 && cap >= 0.0
    ensures Finished(handler, ack, last, Budget(maxRetries), base, cap, trace, outcome)
  {
    var n := Budget(maxRetries);
    trace := [];
    NoWaitYet(base, cap);
    for k := 1 to n + 1
      invariant Failing(handler, ack, base, cap, k - 1, if k <= n then k - 1 else n - 1, trace)
    {
      var completed;
      trace, completed := Attempt(handler, ack, k, base, cap, trace);
      if completed {
        CompletedIsFinished(handler, ack, last, n, base, cap, k, trace);
        return trace, Succeeded;
      }
      trace := Backoff(handler, ack, k, n, base, cap, trace);
    }
    SettledIsFinished(handler, ack, last, n, base, cap, trace);
    trace := trace + [DeadLetter(n, last.stored)] + [Ack(last.acked)];
    outcome := if last.acked then DeadLettered else Raised;
  }

  lemma {:induction false} NoWaitYet(base: real, cap: real)
    ensures WithinBackoff(0.0, base, cap, 0)
  {
  }

  /** A larger budget allows more waiting. */
  lemma {:induction false} MoreBudget(slept: real, base: real, cap: real, k: nat, n: nat)
    requires base >= 0.0 && cap >= 0.0 && k <= n && WithinBackoff(slept, base, cap, k)
    ensures WithinBackoff(slept, base, cap, n)
    decreases n - k
  {
    if k < n {
      assert Delay(base, cap, k + 1) >= 0.0;
      OneMoreDelay(slept, base, cap, k + 1);
      MoreBudget(slept, base, cap, k + 1, n);
    }
  }

  predicate Returns(k: nat) {
    true
  }

  /**
    The handler runs exactly up to its first success - and is never run on a message it has handled -
    if and only if it never succeeds or the acknowledgement of its first success returns: acknowledging
    inside the try block makes a raising acknowledgement re-run the handler.
    */
  lemma {:induction false} RunsStopAtFirstSuccess(handler: Oracle, ack: Oracle, n: nat)
    requires n >= 1
    ensures var success := FirstCompleting(handler, Returns, 1, n);
            FirstCompleting(handler, ack, 1, n) == success <==> success == n + 1 || ack(success)
  {
    var success := FirstCompleting(handler, Returns, 1, n);
    forall j | 1 <= j < success
      ensures !Completes(handler, ack, j)
    {
      assert !Completes(handler, Returns, j);
    }
    if success == n + 1 || ack(success) {
      FirstIs(handler, ack, n, success);
    }
  }

  /**
    A message is dead-lettered although the handler processed it, if and only if its dead letter reached the
    stream, the handler succeeded and no acknowledgement of a success ever returned.
    */
  lemma {:induction false} HandledYetDeadLettered(handler: Oracle, ack: Oracle, last: LastResort, n: nat,
      trace: seq<Effect>, outcome: Outcome)
    requires n >= 1 && Promised(handler, ack, last, n, trace, outcome)
    ensures DeadLetters(trace) == 1 && (exists k | 1 <= k <= Runs(trace) :: handler(k))
            <==> last.stored && (exists k | 1 <= k <= n :: handler(k))
                 && forall k | 1 <= k <= n && handler(k) :: !ack(k)
  {
    if FirstCompleting(handler, ack, 1, n) == n + 1 {
      forall k | 1 <= k <= n && handler(k)
        ensures !ack(k)
      {
        assert !Completes(handler, ack, k);
      }
    }
  }

  /** Acknowledged, though never handled and not in the dead-letter stream. */
  ghost predicate Lost(handler: Oracle, trace: seq<Effect>) {
    Acks(trace) == 1 && DeadLetters(trace) == 0 && forall k | 1 <= k <= Runs(trace) :: !handler(k)
  }

  /** So it is exactly when every attempt fails, the dead letter is dropped and the last acknowledgement returns. */
  lemma {:induction false} LostExactly(handler: Oracle, ack: Oracle, last: LastResort, n: nat, trace: seq<Effect>,
      outcome: Outcome)
    requires n >= 1 && Promised(handler, ack, last, n, trace, outcome)
    ensures Lost(handler, trace) <==> (forall k | 1 <= k <= n :: !handler(k)) && !last.stored && last.acked
  {
    var f := FirstCompleting(handler, ack, 1, n);
    if f <= n {
      assert Completes(handler, ack, f);
    }
  }
}
