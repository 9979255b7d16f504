/** The error handler `join` installs on its gossip engine: a bind conflict
    is retried after a random delay while the shared attempt counter is below
    its budget; every other error ends the join. */
module JoinRetry {

  /** `max_attempts`: the number of retries the shared counter allows. */
  const MaxAttempts: nat := 11
  /** A retry waits `RetryDelayBase + Math.floor(Math.random() * RetryJitterSpan)` ms. */
  const RetryDelayBase: int := 100
  const RetryJitterSpan: int := 222
  /** The error code of a gossip engine whose UDP port is already bound. */
  const BindConflict := "EADDRINUSE"

  datatype EngineError = EngineError(code: string)

  /** What the handler does: schedule a re-join after `delay` ms, or pass the
      error to the join's completion callback. */
  datatype Outcome = Retry(delay: int) | Fail(err: EngineError)

  datatype Step = Step(attempts: nat, outcome: Outcome)

  /** `jitter` stands for `Math.floor(Math.random() * 222)`. */
  predicate IsJitter(jitter: int) {
    0 <= jitter < RetryJitterSpan
  }

  /** One error event, with the counter's value before it. */
  function OnError(attempts: nat, err: EngineError, jitter: int): (s: Step)
    requires IsJitter(jitter)
    ensures s.outcome.Retry? <==> err.code == BindConflict && attempts < MaxAttempts
    ensures s.outcome.Retry? ==> s.attempts == attempts + 1 && 100 <= s.outcome.delay <= 321
    ensures s.outcome.Fail? ==> s.attempts == attempts && s.outcome.err == err
    ensures attempts <= MaxAttempts ==> s.attempts <= MaxAttempts
  {
    if err.code == BindConflict && attempts < MaxAttempts then
      Step(attempts + 1, Retry(RetryDelayBase + jitter))
    else
      Step(attempts, Fail(err))
  }

  datatype Run = Run(attempts: nat, outcomes: seq<Outcome>)

  /** Error events in the order the engines raise them (the counter is
      shared by every `join` call and never reset). */
  function Supervise(attempts: nat, errs: seq<EngineError>, jitters: seq<int>): (r: Run)
    requires |jitters| == |errs| && forall i :: 0 <= i < |jitters| ==> IsJitter(jitters[i])
    ensures |r.outcomes| == |errs|
    ensures attempts <= r.attempts
    ensures attempts <= MaxAttempts ==> r.attempts <= MaxAttempts
    decreases |errs|
  {
    if errs == [] then Run(attempts, [])
    else
      var s := OnError(attempts, errs[0], jitters[0]);
      var rest := Supervise(s.attempts, errs[1..], jitters[1..]);
      Run(rest.attempts, [s.outcome] + rest.outcomes)
  }

  predicate AllBindConflicts(errs: seq<EngineError>) {
    forall i :: 0 <= i < |errs| ==> errs[i].code == BindConflict
  }

  /** A run of bind conflicts: the i-th is retried exactly when the counter
      had not reached the budget, and the counter stops at the budget. */
  lemma {:induction false} PersistentConflict(attempts: nat, errs: seq<EngineError>, jitters: seq<int>)
    requires attempts <= MaxAttempts && AllBindConflicts(errs)
    requires |jitters| == |errs| && forall i :: 0 <= i < |jitters| ==> IsJitter(jitters[i])
    ensures var r := Supervise(attempts, errs, jitters);
            && r.attempts == (if attempts + |errs| <= MaxAttempts then attempts + |errs| else MaxAttempts)
            && forall i :: 0 <= i < |errs| ==> (r.outcomes[i].Retry? <==> attempts + i < MaxAttempts)
    decreases |errs|
  {
    if errs != [] {
      var s := OnError(attempts, errs[0], jitters[0]);
      PersistentConflict(s.attempts, errs[1..], jitters[1..]);
      var r := Supervise(attempts, errs, jitters);
      var rest := Supervise(s.attempts, errs[1..], jitters[1..]);
      forall i | 1 <= i < |errs| ensures r.outcomes[i] == rest.outcomes[i - 1] { }
    }
  }

  /** An engine that keeps failing to bind: from a fresh counter the first
      eleven conflicts are retried (twelve engines in all) and the twelfth
      conflict is passed to the completion callback. */
  lemma ExhaustedAfterElevenRetries(errs: seq<EngineError>, jitters: seq<int>)
    requires |errs| == MaxAttempts + 1 && AllBindConflicts(errs)
    requires |jitters| == |errs| && forall i :: 0 <= i < |jitters| ==> IsJitter(jitters[i])
    ensures var r := Supervise(0, errs, jitters);
            && (forall i :: 0 <= i < MaxAttempts ==> r.outcomes[i].Retry?)
            && r.outcomes[MaxAttempts] == Fail(errs[MaxAttempts])
            && r.attempts == MaxAttempts
  {
    PersistentConflict(0, errs, jitters);
    SuperviseFailCarries(0, errs, jitters, MaxAttempts);
  }

  /** Conflicts within the budget are all retried: the completion callback
      sees no error. */
  lemma ConflictsWithinBudgetRetried(attempts: nat, errs: seq<EngineError>, jitters: seq<int>)
    requires attempts + |errs| <= MaxAttempts && AllBindConflicts(errs)
    requires |jitters| == |errs| && forall i :: 0 <= i < |jitters| ==> IsJitter(jitters[i])
    ensures forall o :: o in Supervise(attempts, errs, jitters).outcomes ==> o.Retry?
  {
    PersistentConflict(attempts, errs, jitters);
  }

  /** Every failure outcome carries the error that caused it. */
  lemma {:induction false} SuperviseFailCarries(attempts: nat, errs: seq<EngineError>, jitters: seq<int>, i: nat)
    requires |jitters| == |errs| && forall i :: 0 <= i < |jitters| ==> IsJitter(jitters[i])
    requires i < |errs| && Supervise(attempts, errs, jitters).outcomes[i].Fail?
    ensures Supervise(attempts, errs, jitters).outcomes[i] == Fail(errs[i])
    decreases |errs|
  {
    if i > 0 {
      var s := OnError(attempts, errs[0], jitters[0]);
      SuperviseFailCarries(s.attempts, errs[1..], jitters[1..], i - 1);
    }
  }
}
