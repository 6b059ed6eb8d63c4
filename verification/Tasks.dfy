/** One row of `async_tasks` and every status transition the repository performs on it.

    Each row carries a log of what happened to it. The log is bookkeeping of the model: no
    transition reads it, it only lets run-wide properties be stated about a single state. */
module Tasks {
  import opened Common

  datatype Status = PENDING | RUNNING | SUCCESS | FAILED | SUSPENDED | DEAD

  datatype Log = Log(
    runs: nat,        // successful TryMarkRunning
    recovered: nat,   // effective MarkRecoveredForRetry
    interrupted: nat, // those of them that hit a RUNNING row
    reopened: nat,    // effective MarkReplayReady
    replayed: nat,    // those of them that hit a DEAD row
    okCalls: nat,     // handler calls that returned nil
    dropped: nat)     // ids popped from ready that never reached TryMarkRunning

  datatype Task = Task(
    status: Status,
    retryCount: nat,
    maxRetry: nat,
    nextRetry: Option<int>,
    updatedAt: int,
    log: Log)

  const DEFAULT_MAX_RETRY: nat := 5

  /** `CreateTx`: the initial row; a budget that is not positive becomes five. */
  function New(maxRetry: int, now: int): (t: Task)
    ensures RowInv(t) && t.status == PENDING && t.retryCount == 0 && t.nextRetry.None? && t.updatedAt == now
    ensures if maxRetry > 0 then t.maxRetry == maxRetry else t.maxRetry == 5
  {
    Task(PENDING, 0, if maxRetry <= 0 then DEFAULT_MAX_RETRY else maxRetry, None, now, Log(0, 0, 0, 0, 0, 0, 0))
  }

  /** `taskBackoff`: exponential in the retry count, capped at 2^8. */
  function Pow2(n: nat): (p: nat)
    ensures p >= 1
  {
    if n == 0 then 1 else 2 * Pow2(n - 1)
  }

  function Backoff(retryCount: int, base: int): int {
    var b := BackoffBase(base);
    var n := if retryCount < 0 then 0 else if retryCount > 8 then 8 else retryCount;
    b * Pow2(n)
  }

  predicate CanRun(t: Task) { t.status == PENDING || t.status == FAILED }
  predicate CanRecover(t: Task) { t.status == RUNNING || t.status == SUSPENDED }
  predicate CanReopen(t: Task) { t.status == DEAD || t.status == FAILED }

  datatype Op =
    | TryMarkRunning
    | MarkSuccess
    | MarkSuspended
    | MarkFailed(backoffBase: int)
    | MarkRecovered
    | MarkReplayReady
    | RestoreDead
    | HandlerOk  // bookkeeping only
    | Dropped    // bookkeeping only

  /** The conditional UPDATE of each transition; a row in any other status is left as it is. */
  function Apply(t: Task, op: Op, now: int): Task {
    match op
    case TryMarkRunning =>
      if CanRun(t) then t.(status := RUNNING, updatedAt := now, log := t.log.(runs := t.log.runs + 1)) else t
    case MarkSuccess =>
      if t.status == RUNNING then t.(status := SUCCESS, nextRetry := None, updatedAt := now) else t
    case MarkSuspended =>
      if t.status == RUNNING then t.(status := SUSPENDED, nextRetry := None, updatedAt := now) else t
    case MarkFailed(base) =>
      if t.status != RUNNING then t
      else if t.retryCount + 1 >= t.maxRetry then
        t.(status := DEAD, retryCount := t.retryCount + 1, nextRetry := None, updatedAt := now)
      else
        t.(status := FAILED, retryCount := t.retryCount + 1,
           nextRetry := Some(now + Backoff(t.retryCount + 1, base)), updatedAt := now)
    case MarkRecovered =>
      if CanRecover(t) then
        t.(status := FAILED, nextRetry := Some(now), updatedAt := now,
           log := t.log.(recovered := t.log.recovered + 1,
                         interrupted := t.log.interrupted + (if t.status == RUNNING then 1 else 0)))
      else t
    case MarkReplayReady =>
      if CanReopen(t) then
        t.(status := FAILED, nextRetry := None, updatedAt := now,
           log := t.log.(reopened := t.log.reopened + 1,
                         replayed := t.log.replayed + (if t.status == DEAD then 1 else 0)))
      else t
    case RestoreDead =>
      if t.status == FAILED then t.(status := DEAD, updatedAt := now) else t
    case HandlerOk => t.(log := t.log.(okCalls := t.log.okCalls + 1))
    case Dropped => t.(log := t.log.(dropped := t.log.dropped + 1))
  }

  /******* What holds of every row in every run *******/

  /** Each run so far ended in a counted failure or a recovery, or is the one the status shows. */
  predicate RunsAccounted(t: Task) {
    t.log.runs == t.retryCount + t.log.recovered
                  + (if t.status == RUNNING || t.status == SUSPENDED || t.status == SUCCESS then 1 else 0)
  }

  /** The retry budget, extended by one for every replay of a dead task. */
  predicate WithinBudget(t: Task) {
    && t.maxRetry >= 1
    && (t.status != DEAD ==> t.retryCount < t.maxRetry + t.log.replayed)
    && (t.status == DEAD ==> t.retryCount <= t.maxRetry + t.log.replayed)
  }

  /** Without manual replay, DEAD means exactly an exhausted budget and FAILED has a retry time. */
  predicate UntouchedByReplay(t: Task) {
    && (t.status == DEAD <==> t.retryCount == t.maxRetry)
    && (t.status == FAILED ==> t.nextRetry.Some?)
  }

  predicate RowInv(t: Task) {
    && RunsAccounted(t)
    && WithinBudget(t)
    && t.log.replayed <= t.log.reopened
    && t.log.interrupted <= t.log.recovered
    && (t.log.reopened == 0 ==> UntouchedByReplay(t))
    && (t.status == SUCCESS ==> t.log.okCalls >= 1)
    && (t.status == PENDING ==> t.log.runs == 0 && t.retryCount == 0 && t.log.recovered == 0 && t.log.reopened == 0)
  }

  /** What no transition takes back. */
  predicate Later(t: Task, t': Task) {
    && t.log.runs <= t'.log.runs && t.log.okCalls <= t'.log.okCalls && t.log.dropped <= t'.log.dropped
    && t.log.reopened <= t'.log.reopened
    && (t.status != PENDING ==> t'.status != PENDING)
    && (t.status == SUCCESS ==> t'.status == SUCCESS)
    && t'.maxRetry == t.maxRetry
  }

  /** Every transition keeps the row invariant, given that success is only marked after the handler
      returned nil and DEAD only restored after a replay opened the row; SUCCESS is absorbing and PENDING is never re-entered. */
  lemma ApplyKeeps(t: Task, op: Op, now: int)
    requires RowInv(t)
    requires op.MarkSuccess? ==> t.log.okCalls >= 1
    requires op.RestoreDead? ==> t.log.reopened >= 1
    ensures RowInv(Apply(t, op, now))
    ensures Later(t, Apply(t, op, now))
  {
  }

  /** A row's time stamp is that of its last status change: every transition that changes the status, or
      reopens the row, stamps it with the time it happens, and nothing else touches the stamp. */
  lemma StampedByChange(t: Task, op: Op, now: int)
    ensures var t' := Apply(t, op, now);
            && (t'.status != t.status || t'.log.reopened != t.log.reopened ==> t'.updatedAt == now)
            && (t'.status == t.status && t'.log.reopened == t.log.reopened ==>
                  t' == t.(log := t'.log) && t'.updatedAt == t.updatedAt)
  {
  }

  /** The status diagram: which changes there are, and what each does to retry count and retry time. */
  lemma StatusDiagram(t: Task, op: Op, now: int)
    ensures var t' := Apply(t, op, now);
            t'.status != t.status ==>
              match t'.status
              case PENDING => false
              case RUNNING => (t.status == PENDING || t.status == FAILED) && t'.retryCount == t.retryCount && t'.nextRetry == t.nextRetry
              case SUCCESS => t.status == RUNNING && t'.retryCount == t.retryCount && t'.nextRetry.None?
              case SUSPENDED => t.status == RUNNING && t'.retryCount == t.retryCount && t'.nextRetry.None?
              case DEAD =>
                || (t.status == RUNNING && t'.retryCount == t.retryCount + 1 >= t.maxRetry && t'.nextRetry.None?)
                || (t.status == FAILED && t'.retryCount == t.retryCount)
              case FAILED =>
                || (t.status == RUNNING && t'.retryCount == t.retryCount + 1 < t.maxRetry && op.MarkFailed?
                    && t'.nextRetry == Some(now + Backoff(t'.retryCount, op.backoffBase)) && t'.nextRetry.value > now)
                || ((t.status == RUNNING || t.status == SUSPENDED) && t'.retryCount == t.retryCount && t'.nextRetry == Some(now))
                || (t.status == DEAD && t'.retryCount == t.retryCount && t'.nextRetry.None?)
  {
    if op.MarkFailed? {
      BackoffBounds(t.retryCount + 1, op.backoffBase);
    }
    hide Backoff;
  }

  /** The base a retry delay is computed from: one second unless configured. */
  function BackoffBase(base: int): (b: int)
    ensures b > 0
  {
    if base <= 0 then 1000 else base
  }

  /** For every configured base and count the delay lies between the base in force and 256 times it,
      never shrinks from one retry to the next, and doubles until the cap. */
  lemma BackoffBounds(n: int, base: int)
    ensures BackoffBase(base) <= Backoff(n, base) <= 256 * BackoffBase(base)
    ensures Backoff(n, base) <= Backoff(n + 1, base)
    ensures 0 <= n < 8 ==> Backoff(n + 1, base) == 2 * Backoff(n, base)
    ensures n <= 0 ==> Backoff(n, base) == if base > 0 then base else 1000
  {
    var b := BackoffBase(base);
    var k := if n < 0 then 0 else if n > 8 then 8 else n;
    assert Pow2(0) == 1 && Pow2(1) == 2 && Pow2(2) == 4 && Pow2(3) == 8 && Pow2(4) == 16;
    assert Pow2(5) == 32 && Pow2(6) == 64 && Pow2(7) == 128 && Pow2(8) == 256;
    assert Pow2(k) == [1, 2, 4, 8, 16, 32, 64, 128, 256][k];
    if k < 8 {
      assert Pow2(k + 1) == 2 * Pow2(k);
      assert b * Pow2(k + 1) == 2 * (b * Pow2(k));
    }
    assert b * 1 <= b * Pow2(k) <= b * 256;
  }
}
