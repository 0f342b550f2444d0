/** The entities of internal/core/domain as values: priorities, statuses, retry
    policies and job records, with the arithmetic and the field updates that the
    methods of those entities perform.  Clock readings are parameters. */
module Domain {

  datatype Option<+T> = None | Some(value: T)

  /** Job identifiers: only equality matters. */
  type Id = int

  /** Instants, in nanoseconds since the Unix epoch. */
  type Time = int

  const TWO_63: int := 0x8000_0000_0000_0000
  const TWO_64: int := 0x1_0000_0000_0000_0000

  /** The values of Go's `int64`, and so of `time.Duration`. */
  type Int64 = x: int | -TWO_63 <= x < TWO_63

  /** Two's complement wrap-around of 64-bit arithmetic. */
  function Wrap(x: int): (r: Int64)
    ensures -TWO_63 <= x < TWO_63 ==> r == x
    ensures (r - x) % TWO_64 == 0
  {
    (x + TWO_63) % TWO_64 - TWO_63
  }

  // ---------------------------------------------------------------- priority

  const LOW: int := 1
  const MEDIUM: int := 2
  const HIGH: int := 3
  const CRITICAL: int := 4

  /** The priorities that have a constant of their own; requests may carry others. */
  predicate Named(priority: int) {
    LOW <= priority <= CRITICAL
  }

  function PriorityName(priority: int): string {
    if priority == LOW then "low"
    else if priority == MEDIUM then "medium"
    else if priority == HIGH then "high"
    else if priority == CRITICAL then "critical"
    else "medium"
  }

  function QueueName(priority: int): string {
    "jobs_" + PriorityName(priority)
  }

  // ------------------------------------------------------------ retry policy

  datatype Backoff = Fixed | Linear | Exponential | Unknown(name: string)

  datatype RetryPolicy = RetryPolicy(
    maxAttempts: int,
    currentAttempts: int,
    baseDelay: Int64,
    maxDelay: Int64,
    strategy: Backoff,
    lastAttemptAt: Option<Time>)

  /** The policy built from the default configuration: 3 attempts, 30 s, 30 min. */
  const DEFAULT_POLICY: RetryPolicy :=
    RetryPolicy(3, 0, 30_000_000_000, 1_800_000_000_000, Exponential, None)

  function AttemptsLeft(rp: RetryPolicy): int {
    rp.maxAttempts - rp.currentAttempts
  }

  function IncrementAttempts(rp: RetryPolicy, now: Time): RetryPolicy {
    rp.(currentAttempts := rp.currentAttempts + 1, lastAttemptAt := Some(now))
  }

  function Pow2(n: nat): (r: int)
    ensures r >= 1
  {
    if n == 0 then 1 else 2 * Pow2(n - 1)
  }

  /** `time.Duration(math.Pow(2, float64(n)))`: a fraction truncates to zero, and
      from 2^63 on the conversion is out of range, where Go leaves the value to
      the machine; `oor` is that value. */
  function PowFactor(n: int, oor: Int64): Int64 {
    if n < 0 then 0
    else if n < 63 then Wrap(Pow2(n))
    else oor
  }

  /** The delay before the cap, for `n` attempts made. */
  function RawDelay(rp: RetryPolicy, n: int, oor: Int64): Int64 {
    match rp.strategy
    case Fixed => rp.baseDelay
    case Linear => Wrap(Wrap(n) * rp.baseDelay)
    case Exponential => Wrap(PowFactor(n, oor) * rp.baseDelay)
    case Unknown(_) => rp.baseDelay
  }

  function Delay(rp: RetryPolicy, n: int, oor: Int64): Int64 {
    var d := RawDelay(rp, n, oor);
    if d > rp.maxDelay then rp.maxDelay else d
  }

  function NextRetryAt(rp: RetryPolicy, now: Time, oor: Int64): Time {
    match rp.lastAttemptAt
    case None => now
    case Some(t) => t + Delay(rp, rp.currentAttempts, oor)
  }

  // --------------------------------------------------------------------- job

  datatype Status = Pending | Scheduled | Processing | Completed | Failed | Dead

  datatype JobRecord = JobRecord(
    id: Id,
    jobType: string,
    priority: int,
    payload: string,
    status: Status,
    retry: RetryPolicy,
    createdAt: Time,
    updatedAt: Time,
    scheduledAt: Time,
    processedAt: Option<Time>,
    completedAt: Option<Time>,
    failedAt: Option<Time>,
    lastError: string,
    workerId: string)

  predicate CanRetry(j: JobRecord) {
    AttemptsLeft(j.retry) > 0 && j.status == Failed
  }

  function AsProcessing(j: JobRecord, worker: string, updated: Time, processed: Time): JobRecord {
    j.(status := Processing, workerId := worker, updatedAt := updated, processedAt := Some(processed))
  }

  function AsCompleted(j: JobRecord, updated: Time, completed: Time): JobRecord {
    j.(status := Completed, updatedAt := updated, completedAt := Some(completed))
  }

  function AsFailed(j: JobRecord, error: string, updated: Time, failed: Time, attempted: Time): JobRecord {
    j.(status := Failed, lastError := error, updatedAt := updated, failedAt := Some(failed),
       retry := IncrementAttempts(j.retry, attempted))
  }

  function AsDead(j: JobRecord, updated: Time): JobRecord {
    j.(status := Dead, updatedAt := updated)
  }

  /** The two assignments that follow a failure which may be retried. */
  function AsRetry(j: JobRecord, now: Time, oor: Int64): JobRecord {
    j.(status := Scheduled, scheduledAt := NextRetryAt(j.retry, now, oor))
  }

  // ----------------------------------------------------------------- history

  datatype Outcome = InProgress | Succeeded | Unsuccessful

  datatype HistoryRecord = HistoryRecord(
    jobId: Id,
    workerId: string,
    attempt: int,
    startedAt: Time,
    completedAt: Option<Time>,
    outcome: Outcome,
    error: string)

  // ------------------------------------------------------- schedule requests

  datatype Request = Request(
    jobType: string,
    priority: int,
    payload: string,
    policy: Option<RetryPolicy>,
    scheduleAt: Option<Time>)

  /** The job that a schedule request builds.  The clock is read for each of the
      three timestamps and once more to compare with the requested time. */
  function NewJob(id: Id, req: Request, created: Time, updated: Time, scheduled: Time, checked: Time): JobRecord {
    var priority := if req.priority == 0 then MEDIUM else req.priority;
    var policy := if req.policy.Some? then req.policy.value else DEFAULT_POLICY;
    var j := JobRecord(id, req.jobType, priority, req.payload, Pending, policy,
                       created, updated, scheduled, None, None, None, "", "");
    if req.scheduleAt.Some? && req.scheduleAt.value > checked
    then j.(status := Scheduled, scheduledAt := req.scheduleAt.value)
    else j
  }

  // ------------------------------------------------- budget and retry spacing

  function Max(a: int, b: int): int {
    if a >= b then a else b
  }

  /** How many handler attempts a policy allows: the first is never refused. */
  function Budget(origin: RetryPolicy): int {
    Max(1, AttemptsLeft(origin))
  }

  /** The sum of the delays that follow the first `m` failures. */
  ghost function DelaySum(origin: RetryPolicy, m: int, oor: Int64): int
    decreases m
  {
    if m <= 0 then 0
    else DelaySum(origin, m - 1, oor) + Delay(origin, origin.currentAttempts + m, oor)
  }
}
