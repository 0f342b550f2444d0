/** The scheduler and processor services as objects over the memory adapters, one call
    at a time, and the proof that a call left to itself does what the actions of the
    transition system do in a row. */
module Services {
  import opened Domain
  import opened JobEntity
  import MQ = MemoryQueue
  import MS = MemoryStorage
  import Q = MemoryQueueSpec
  import T = System

  /** The clock readings of one ProcessJob call, in order. */
  datatype Clock = Clock(
    marked: Time, processed: Time, stored: Time, started: Time, ended: Time,
    settled: Time, stamped: Time, attempted: Time, decided: Time, final: Time)

  /** The job while its handler runs. */
  function Begun(j: JobRecord, worker: string, c: Clock): JobRecord {
    AsProcessing(j, worker, c.marked, c.processed).(updatedAt := c.stored)
  }

  /** The job after the handler has returned, before the last UpdateJob. */
  function Settled(j: JobRecord, err: Option<string>, c: Clock, oor: Int64): JobRecord {
    match err
    case None => AsCompleted(j, c.settled, c.stamped)
    case Some(e) =>
      var f := AsFailed(j, e, c.settled, c.stamped, c.attempted);
      if CanRetry(f) then AsRetry(f, c.decided, oor) else AsDead(f, c.decided)
  }

  function QueueAfter(q: Q.MemQueue, j: JobRecord): Q.MemQueue {
    match j.status
    case Scheduled => Q.EnqueueDelayed(q, j.id, j.priority, j.scheduledAt)
    case Dead => Q.MoveToDeadLetter(q, j.id)
    case _ => q
  }

  function CountersAfter(c: T.Counters, status: Status): T.Counters {
    match status
    case Scheduled => c.(retried := c.retried + 1, failed := c.failed + 1)
    case Dead => c.(deadLettered := c.deadLettered + 1, failed := c.failed + 1)
    case _ => c.(completed := c.completed + 1)
  }

  function RecordOf(j: JobRecord, worker: string, err: Option<string>, c: Clock): HistoryRecord {
    HistoryRecord(j.id, worker, j.retry.currentAttempts + 1, c.started, Some(c.ended),
                  if err.None? then Succeeded else Unsuccessful, if err.None? then "" else err.value)
  }

  /** The fields of a job after its failure has been dealt with. */
  lemma SettledFields(j: JobRecord, error: string, c: Clock, oor: Int64)
    ensures var (r, n) := (Settled(j, Some(error), c, oor), j.retry.currentAttempts + 1);
            && r.lastError == error && r.failedAt == Some(c.stamped)
            && r.retry == j.retry.(currentAttempts := n, lastAttemptAt := Some(c.attempted))
            && r.status == (if j.retry.maxAttempts > n then Scheduled else Dead)
            && r.scheduledAt == (if j.retry.maxAttempts > n then c.attempted + Delay(j.retry, n, oor)
                                 else j.scheduledAt)
            && r.workerId == j.workerId && r.processedAt == j.processedAt && r.completedAt == j.completedAt
            && SameRequest(j, r)
  {
    var f := AsFailed(j, error, c.settled, c.stamped, c.attempted);
    assert Delay(f.retry, f.retry.currentAttempts, oor) == Delay(j.retry, f.retry.currentAttempts, oor);
  }

  /** The fields of a job after a whole call that returned `err`. */
  lemma CallFields(j: JobRecord, worker: string, err: Option<string>, c: Clock, oor: Int64)
    ensures var r := Settled(Begun(j, worker, c), err, c, oor);
            && r.workerId == worker && r.processedAt == Some(c.processed) && SameRequest(j, r)
            && (r.status == Completed <==> err.None?)
            && (err.None? ==> r.completedAt == Some(c.stamped) && r.retry == j.retry)
            && (err.Some? ==>
                  && r.lastError == err.value && r.failedAt == Some(c.stamped)
                  && r.retry == j.retry.(currentAttempts := j.retry.currentAttempts + 1,
                                         lastAttemptAt := Some(c.attempted))
                  && r.status == if j.retry.maxAttempts - j.retry.currentAttempts > 1 then Scheduled else Dead)
  {
    if err.Some? {
      SettledFields(Begun(j, worker, c), err.value, c, oor);
    }
  }

  predicate SameRequest(j: JobRecord, r: JobRecord) {
    && r.id == j.id && r.jobType == j.jobType && r.priority == j.priority && r.payload == j.payload
    && r.createdAt == j.createdAt
  }

  class Processor {
    const queue: MQ.Queue
    const storage: MS.Storage
    var handlers: set<string>
    var counters: T.Counters

    constructor (queue: MQ.Queue, storage: MS.Storage)
      ensures this.queue == queue && this.storage == storage
      ensures handlers == {} && counters == T.Counters(0, 0, 0, 0, 0)
    {
      this.queue, this.storage := queue, storage;
      handlers, counters := {}, T.Counters(0, 0, 0, 0, 0);
    }

    /** What UpdateJob leaves of the job `j`, and of the table: the job stamped and filed,
        or, if the table did not know it, nothing done. */
    ghost predicate Updated(before: map<Id, Job>, job: Job, j: JobRecord, stamp: Time)
      reads this, storage, job
    {
      if job.id in before
      then storage.jobs == before[job.id := job] && job.Value() == j.(updatedAt := stamp)
      else storage.jobs == before && job.Value() == j
    }

    method RegisterHandler(jobType: string)
      modifies this
      ensures handlers == old(handlers) + {jobType} && counters == old(counters)
    {
      handlers := handlers + {jobType};
    }

    /** A storage that does not know the job is no hindrance: the failed UpdateJob leaves
        the job unstamped, and everything else goes on. */
    method HandleSuccess(job: Job, c: Clock)
      requires storage.Valid()
      modifies this, storage, job
      ensures storage.Valid() && storage.history == old(storage.history)
      ensures Updated(old(storage.jobs), job, AsCompleted(old(job.Value()), c.settled, c.stamped), c.final)
      ensures job.status == Completed && job.completedAt == Some(c.stamped) && job.retry == old(job.retry)
      ensures handlers == old(handlers) && counters == CountersAfter(old(counters), Completed)
    {
      job.MarkAsCompleted(c.settled, c.stamped);
      var ok := storage.UpdateJob(job, c.final);
      counters := counters.(completed := counters.completed + 1);
    }

    method HandleFailure(job: Job, error: string, c: Clock, oor: Int64)
      requires queue.Valid() && storage.Valid()
      modifies this, queue, storage, job
      ensures queue.Valid() && storage.Valid() && storage.history == old(storage.history)
      ensures var j := Settled(old(job.Value()), Some(error), c, oor);
              && Updated(old(storage.jobs), job, j, c.final)
              && queue.View() == QueueAfter(old(queue.View()), j)
              && counters == CountersAfter(old(counters), j.status)
      ensures var (rp, n) := (old(job.retry), old(job.retry.currentAttempts) + 1);
              && job.lastError == error && job.failedAt == Some(c.stamped)
              && job.retry == rp.(currentAttempts := n, lastAttemptAt := Some(c.attempted))
              && job.status == (if rp.maxAttempts > n then Scheduled else Dead)
              && job.scheduledAt == (if rp.maxAttempts > n then c.attempted + Delay(rp, n, oor)
                                     else old(job.scheduledAt))
      ensures if job.status == Scheduled
              then queue.delayedJobs == old(queue.delayedJobs)[job.id := job.scheduledAt]
                   && queue.deadLetter == old(queue.deadLetter)
              else queue.deadLetter == old(queue.deadLetter) + [job.id]
                   && queue.delayedJobs == old(queue.delayedJobs)
      ensures handlers == old(handlers) && queue.queues == old(queue.queues)
    {
      SettledFields(job.Value(), error, c, oor);
      job.MarkAsFailed(error, c.settled, c.stamped, c.attempted);
      if CanRetry(job.Value()) {
        job.status := Scheduled;
        job.scheduledAt := NextRetryAt(job.retry, c.decided, oor);
        queue.EnqueueDelayed(job, job.scheduledAt);
        counters := counters.(retried := counters.retried + 1);
      } else {
        job.MarkAsDead(c.decided);
        queue.MoveToDeadLetter(job);
        counters := counters.(deadLettered := counters.deadLettered + 1);
      }
      counters := counters.(failed := counters.failed + 1);
      var ok := storage.UpdateJob(job, c.final);
    }

    /** The handler's answer, or an error if there is no handler. */
    method ExecuteJob(jobType: string, answer: Option<string>) returns (err: Option<string>)
      ensures jobType in handlers ==> err == answer
      ensures jobType !in handlers ==> err == Some("no handler registered for job type: " + jobType)
    {
      err := if jobType in handlers then answer else Some("no handler registered for job type: " + jobType);
    }

    /** What follows the handler's return: the outcome is dealt with and recorded. */
    method Conclude(job: Job, h: HistoryRecord, err: Option<string>, c: Clock, oor: Int64)
      requires queue.Valid() && storage.Valid() && h.jobId == job.id
      modifies this, queue, storage, job
      ensures queue.Valid() && storage.Valid() && handlers == old(handlers)
      ensures var r := Settled(old(job.Value()), err, c, oor);
              && Updated(old(storage.jobs), job, r, c.final)
              && queue.View() == QueueAfter(old(queue.View()), r)
              && counters == CountersAfter(old(counters), r.status)
      ensures storage.history == old(storage.history)[job.id := old(storage.Records(job.id)) +
                [if err.None? then h.(outcome := Succeeded) else h.(outcome := Unsuccessful, error := err.value)]]
    {
      var record := h;
      if err.Some? {
        record := record.(outcome := Unsuccessful, error := err.value);
        HandleFailure(job, err.value, c, oor);
      } else {
        record := record.(outcome := Succeeded);
        HandleSuccess(job, c);
      }
      storage.SaveJobHistory(record);
    }

    /** Runs one attempt.  If the storage does not know the job, the call gives up after
        marking it: nothing is queued, counted or recorded. */
    method ProcessJob(job: Job, worker: string, c: Clock, answer: Option<string>, oor: Int64)
      returns (err: Option<string>)
      requires queue.Valid() && storage.Valid()
      modifies this, queue, storage, job
      ensures queue.Valid() && storage.Valid() && handlers == old(handlers)
      ensures job.id in old(storage.jobs) ==>
                var j := Begun(old(job.Value()), worker, c);
                var r := Settled(j, err, c, oor);
                && job.Value() == r.(updatedAt := c.final)
                && queue.View() == QueueAfter(old(queue.View()), r)
                && counters == CountersAfter(old(counters), r.status)
                && storage.jobs == old(storage.jobs)[job.id := job]
                && storage.history == old(storage.history)[job.id :=
                                        old(storage.Records(job.id)) + [RecordOf(j, worker, err, c)]]
      ensures job.id in old(storage.jobs) ==>
                && (job.jobType in handlers ==> err == answer)
                && (job.jobType !in handlers ==> err == Some("no handler registered for job type: " + job.jobType))
                && (job.status == Completed <==> job.jobType in handlers && answer.None?)
                && (job.status != Completed ==>
                      job.status == if old(job.retry.maxAttempts) - old(job.retry.currentAttempts) > 1
                                    then Scheduled else Dead)
                && job.workerId == worker && job.processedAt == Some(c.processed) && job.updatedAt == c.final
                && (err.None? ==> job.completedAt == Some(c.stamped) && job.retry == old(job.retry))
                && (err.Some? ==>
                      && job.lastError == err.value && job.failedAt == Some(c.stamped)
                      && job.retry.currentAttempts == old(job.retry.currentAttempts) + 1
                      && job.retry.lastAttemptAt == Some(c.attempted))
                && storage.Records(job.id) ==
                   old(storage.Records(job.id)) +
                   [HistoryRecord(job.id, worker, old(job.retry.currentAttempts) + 1, c.started, Some(c.ended),
                                  if err.None? then Succeeded else Unsuccessful, if err.None? then "" else err.value)]
      ensures job.id !in old(storage.jobs) ==>
                && err.Some? && job.Value() == AsProcessing(old(job.Value()), worker, c.marked, c.processed)
                && queue.View() == old(queue.View()) && counters == old(counters)
                && storage.jobs == old(storage.jobs) && storage.history == old(storage.history)
    {
      ghost var before := job.Value();
      job.MarkAsProcessing(worker, c.marked, c.processed);
      var ok := storage.UpdateJob(job, c.stored);
      if !ok {
        return Some("failed to update job status");
      }
      assert job.Value() == Begun(before, worker, c);
      var h := HistoryRecord(job.id, worker, job.retry.currentAttempts + 1, c.started, None, InProgress, "");
      err := ExecuteJob(job.jobType, answer);
      h := h.(completedAt := Some(c.ended));
      Conclude(job, h, err, c, oor);
      CallFields(before, worker, err, c, oor);
    }
  }

  /** ProcessNextJob: what a worker slot does over and over. */
  method ProcessNextJob(p: Processor, worker: string, order: seq<int>, c: Clock, answer: Option<string>, oor: Int64)
    returns (err: Option<string>)
    requires p.queue.Valid() && p.storage.Valid()
    modifies p, p.queue, p.storage, p.queue.jobStorage.Values
    ensures p.queue.Valid() && p.storage.Valid()
    ensures p.handlers == old(p.handlers)
    ensures forall id :: id in old(p.queue.jobStorage) && Q.Dequeue(old(p.queue.View()), order).1 != Some(id) ==>
              old(p.queue.jobStorage)[id].Value() == old(p.queue.jobStorage[id].Value())
    ensures var (q, got) := Q.Dequeue(old(p.queue.View()), order);
            && (got.None? ==>
                  && err.Some? && p.queue.View() == q && p.counters == old(p.counters)
                  && p.storage.jobs == old(p.storage.jobs) && p.storage.history == old(p.storage.history))
            && (got.Some? ==>
                  got.value in old(p.queue.jobStorage) && old(p.queue.jobStorage)[got.value].id == got.value)
            && (got.Some? && got.value in old(p.storage.jobs) ==>
                  var job := old(p.queue.jobStorage)[got.value];
                  var j := Begun(old(job.Value()), worker, c);
                  var r := Settled(j, err, c, oor);
                  && job.Value() == r.(updatedAt := c.final)
                  && p.queue.View() == QueueAfter(q, r)
                  && p.counters == CountersAfter(old(p.counters), r.status)
                  && p.storage.jobs == old(p.storage.jobs)[got.value := job]
                  && p.storage.history == old(p.storage.history)[got.value :=
                                            old(p.storage.Records(got.value)) + [RecordOf(j, worker, err, c)]])
            && (got.Some? && got.value in old(p.storage.jobs) ==>
                  var job := old(p.queue.jobStorage)[got.value];
                  && (job.jobType in p.handlers ==> err == answer)
                  && (job.jobType !in p.handlers ==>
                        err == Some("no handler registered for job type: " + job.jobType))
                  && (job.status == Completed <==> job.jobType in p.handlers && answer.None?)
                  && job.workerId == worker)
            && (got.Some? && got.value !in old(p.storage.jobs) ==>
                  var job := old(p.queue.jobStorage)[got.value];
                  && err.Some? && job.Value() == AsProcessing(old(job.Value()), worker, c.marked, c.processed)
                  && p.queue.View() == q && p.counters == old(p.counters)
                  && p.storage.jobs == old(p.storage.jobs) && p.storage.history == old(p.storage.history))
  {
    var got := p.queue.Dequeue(order);
    if got.None? {
      return Some("no jobs available");
    }
    err := p.ProcessJob(got.value, worker, c, answer, oor);
  }

  class Scheduler {
    const queue: MQ.Queue
    const storage: MS.Storage
    var scheduled: nat

    constructor (queue: MQ.Queue, storage: MS.Storage)
      ensures this.queue == queue && this.storage == storage && scheduled == 0
    {
      this.queue, this.storage, scheduled := queue, storage, 0;
    }

    /** Builds the job, saves it, then puts it in the delayed map or its active list. */
    method ScheduleJob(req: Request, id: Id, created: Time, updated: Time, stamped: Time, checked: Time)
      returns (job: Job)
      requires queue.Valid() && storage.Valid()
      modifies this, queue, storage
      ensures fresh(job) && job.Value() == NewJob(id, req, created, updated, stamped, checked)
      ensures job.id == id && job.jobType == req.jobType && job.payload == req.payload
      ensures job.priority == if req.priority == 0 then 2 else req.priority
      ensures if req.policy.Some? then job.retry == req.policy.value
              else job.retry.maxAttempts == 3 && job.retry.currentAttempts == 0 && job.retry.strategy == Exponential
                   && job.retry.baseDelay == 30 * 1_000_000_000 && job.retry.maxDelay == 30 * 60 * 1_000_000_000
                   && job.retry.lastAttemptAt == None
      ensures match req.scheduleAt
              case Some(t) =>
                if t > checked then job.status == Scheduled && job.scheduledAt == t
                else job.status == Pending && job.scheduledAt == stamped
              case None => job.status == Pending && job.scheduledAt == stamped
      ensures job.createdAt == created && job.updatedAt == updated && job.lastError == "" && job.workerId == ""
      ensures job.processedAt == None && job.completedAt == None && job.failedAt == None
      ensures queue.Valid() && storage.Valid() && scheduled == old(scheduled) + 1
      ensures storage.jobs == old(storage.jobs)[id := job] && storage.history == old(storage.history)
      ensures queue.View() == if job.status == Scheduled
                              then Q.EnqueueDelayed(old(queue.View()), id, job.priority, job.scheduledAt)
                              else Q.Enqueue(old(queue.View()), id, job.priority)
    {
      var priority := if req.priority == 0 then MEDIUM else req.priority;
      var policy := if req.policy.Some? then req.policy.value else DEFAULT_POLICY;
      job := new Job(JobRecord(id, req.jobType, priority, req.payload, Pending, policy,
                               created, updated, stamped, None, None, None, "", ""));
      if req.scheduleAt.Some? && req.scheduleAt.value > checked {
        job.status := Scheduled;
        job.scheduledAt := req.scheduleAt.value;
      }
      storage.SaveJob(job);
      if job.status == Scheduled {
        queue.EnqueueDelayed(job, job.scheduledAt);
      } else {
        queue.Enqueue(job);
      }
      scheduled := scheduled + 1;
    }
  }

  // -------------------------------------------- a call left to itself

  /** The operations of a slot in one ProcessJob call that returns `err`. */
  function CallOps(err: Option<string>, c: Clock): seq<T.SlotOp> {
    AttemptOps(err, c) + if err.None? then SuccessOps(c) else FailureOps(c) + WindUpOps(c)
  }

  function AttemptOps(err: Option<string>, c: Clock): seq<T.SlotOp> {
    [T.Mark(c.marked, c.processed), T.Begin(c.stored, c.started), T.Return(err, c.ended)]
  }

  function SuccessOps(c: Clock): seq<T.SlotOp> {
    [T.Complete(c.settled, c.stamped), T.StoreFinal(c.final), T.CountCompletion] + [T.SaveHistory]
  }

  function FailureOps(c: Clock): seq<T.SlotOp> {
    [T.MarkFailed(c.settled, c.stamped, c.attempted), T.Decide(c.decided), T.Release]
  }

  function WindUpOps(c: Clock): seq<T.SlotOp> {
    [T.CountOutcome, T.CountFailure, T.StoreFinal(c.final)] + [T.SaveHistory]
  }

  predicate InOrder(now: Time, c: Clock) {
    && now <= c.marked <= c.processed <= c.stored <= c.started <= c.ended <= c.settled <= c.stamped <= c.attempted
    && c.attempted <= c.decided <= c.final
  }

  /** The state after slot `k` alone performs the operations. */
  ghost function Alone(s: T.State, k: T.Slot, ops: seq<T.SlotOp>): Option<T.State>
    decreases |ops|
  {
    if ops == [] then Some(s)
    else if T.Enabled(s, T.Work(k, ops[0])) then Alone(T.Apply(s, T.Work(k, ops[0])), k, ops[1..])
    else None
  }

  lemma AloneFirst(s: T.State, k: T.Slot, op: T.SlotOp, rest: seq<T.SlotOp>)
    requires T.Enabled(s, T.Work(k, op))
    ensures Alone(s, k, [op] + rest) == Alone(T.Apply(s, T.Work(k, op)), k, rest)
  {
    assert ([op] + rest)[1..] == rest;
  }

  /** The handler has returned `err`. */
  ghost predicate Attempted(s: T.State, k: T.Slot, id: Id, err: Option<string>, c: Clock, s': T.State)
    requires id in s.cells
  {
    var attempt := s.cells[id].job.retry.currentAttempts + 1;
    var h := HistoryRecord(id, T.WorkerName(k), attempt, c.started, Some(c.ended), InProgress, "");
    && s'.slots == s.slots[k := T.Returned(id, h, err)]
    && id in s'.cells && s'.cells[id].job == Begun(s.cells[id].job, T.WorkerName(k), c)
    && s'.now == c.ended && s'.stored == s.stored && s'.oor == s.oor
    && s'.queue == s.queue && s'.counters == s.counters && s'.history == s.history
  }

  lemma AttemptAlone(s: T.State, k: T.Slot, id: Id, err: Option<string>, c: Clock, rest: seq<T.SlotOp>)
    returns (s': T.State)
    requires k in s.slots && s.slots[k] == T.Taken(id) && id in s.cells && id in s.stored && InOrder(s.now, c)
    requires s.cells[id].job.jobType !in s.handlers ==> err.Some?
    ensures Alone(s, k, AttemptOps(err, c) + rest) == Alone(s', k, rest)
    ensures Attempted(s, k, id, err, c, s')
  {
    var s2 := BegunAlone(s, k, id, c, [T.Return(err, c.ended)] + rest);
    s' := ReturnedAlone(s2, k, id, s2.slots[k].h, err, c.ended, rest);
    assert AttemptOps(err, c) + rest ==
           [T.Mark(c.marked, c.processed), T.Begin(c.stored, c.started)] + ([T.Return(err, c.ended)] + rest);
  }

  lemma ReturnedAlone(
    s: T.State, k: T.Slot, id: Id, h: HistoryRecord, err: Option<string>, t: Time, rest: seq<T.SlotOp>)
    returns (s': T.State)
    requires k in s.slots && s.slots[k] == T.Running(id, h) && id in s.cells && s.now <= t
    requires s.cells[id].job.jobType !in s.handlers ==> err.Some?
    ensures Alone(s, k, [T.Return(err, t)] + rest) == Alone(s', k, rest)
    ensures s' == s.(now := t, slots := s.slots[k := T.Returned(id, h.(completedAt := Some(t)), err)],
                     cells := s'.cells, returned := s'.returned)
    ensures id in s'.cells && s'.cells[id] == s.cells[id]
  {
    s' := T.Apply(s, T.Work(k, T.Return(err, t)));
    AloneFirst(s, k, T.Return(err, t), rest);
  }

  lemma MarkedAlone(s: T.State, k: T.Slot, id: Id, c: Clock, rest: seq<T.SlotOp>) returns (s': T.State)
    requires k in s.slots && s.slots[k] == T.Taken(id) && id in s.cells && InOrder(s.now, c)
    ensures Alone(s, k, [T.Mark(c.marked, c.processed)] + rest) == Alone(s', k, rest)
    ensures s' == s.(now := c.processed, slots := s.slots[k := T.Marked(id)], cells := s'.cells)
    ensures id in s'.cells && s'.cells[id].job == AsProcessing(s.cells[id].job, T.WorkerName(k), c.marked, c.processed)
  {
    s' := T.Apply(s, T.Work(k, T.Mark(c.marked, c.processed)));
    AloneFirst(s, k, T.Mark(c.marked, c.processed), rest);
  }

  lemma StartedAlone(s: T.State, k: T.Slot, id: Id, c: Clock, rest: seq<T.SlotOp>) returns (s': T.State)
    requires k in s.slots && s.slots[k] == T.Marked(id) && id in s.cells && id in s.stored
    requires s.now <= c.stored <= c.started
    ensures Alone(s, k, [T.Begin(c.stored, c.started)] + rest) == Alone(s', k, rest)
    ensures var attempt := s.cells[id].job.retry.currentAttempts + 1;
            var h := HistoryRecord(id, T.WorkerName(k), attempt, c.started, None, InProgress, "");
            s' == s.(now := c.started, slots := s.slots[k := T.Running(id, h)], cells := s'.cells)
    ensures id in s'.cells && s'.cells[id].job == s.cells[id].job.(updatedAt := c.stored)
  {
    s' := T.Apply(s, T.Work(k, T.Begin(c.stored, c.started)));
    AloneFirst(s, k, T.Begin(c.stored, c.started), rest);
  }

  /** The handler runs. */
  ghost predicate BegunBy(s: T.State, k: T.Slot, id: Id, c: Clock, s': T.State)
    requires id in s.cells
  {
    var attempt := s.cells[id].job.retry.currentAttempts + 1;
    var h := HistoryRecord(id, T.WorkerName(k), attempt, c.started, None, InProgress, "");
    && s' == s.(now := c.started, slots := s.slots[k := T.Running(id, h)], cells := s'.cells)
    && id in s'.cells && s'.cells[id].job == Begun(s.cells[id].job, T.WorkerName(k), c)
  }

  lemma MarkedStarted(s: T.State, k: T.Slot, id: Id, c: Clock, s1: T.State, s': T.State)
    requires id in s.cells && id in s1.cells && id in s'.cells
    requires s1 == s.(now := c.processed, slots := s.slots[k := T.Marked(id)], cells := s1.cells)
    requires s1.cells[id].job == AsProcessing(s.cells[id].job, T.WorkerName(k), c.marked, c.processed)
    requires var attempt := s1.cells[id].job.retry.currentAttempts + 1;
             var h := HistoryRecord(id, T.WorkerName(k), attempt, c.started, None, InProgress, "");
             s' == s1.(now := c.started, slots := s1.slots[k := T.Running(id, h)], cells := s'.cells)
    requires s'.cells[id].job == s1.cells[id].job.(updatedAt := c.stored)
    ensures BegunBy(s, k, id, c, s')
  {
    assert s.slots[k := T.Marked(id)][k := s'.slots[k]] == s.slots[k := s'.slots[k]];
  }

  lemma BegunAlone(s: T.State, k: T.Slot, id: Id, c: Clock, rest: seq<T.SlotOp>) returns (s': T.State)
    requires k in s.slots && s.slots[k] == T.Taken(id) && id in s.cells && id in s.stored && InOrder(s.now, c)
    ensures Alone(s, k, [T.Mark(c.marked, c.processed), T.Begin(c.stored, c.started)] + rest) == Alone(s', k, rest)
    ensures BegunBy(s, k, id, c, s')
  {
    var a, b := T.Mark(c.marked, c.processed), T.Begin(c.stored, c.started);
    var s1 := MarkedAlone(s, k, id, c, [b] + rest);
    s' := StartedAlone(s1, k, id, c, rest);
    MarkedStarted(s, k, id, c, s1, s');
    assert [a, b] + rest == [a] + ([b] + rest);
  }

  lemma SaveAlone(s: T.State, k: T.Slot, id: Id, h: HistoryRecord) returns (s': T.State)
    requires k in s.slots && s.slots[k] == T.Saving(id, h) && id in s.cells
    ensures Alone(s, k, [T.SaveHistory]) == Some(s')
    ensures id in s'.cells && s'.cells[id].job == s.cells[id].job
    ensures s'.slots == s.slots[k := T.Idle] && s'.queue == s.queue && s'.counters == s.counters
    ensures s'.history == s.history[id := T.Record(s, id) + [h]]
  {
    AloneFirst(s, k, T.SaveHistory, []);
    assert [T.SaveHistory] == [T.SaveHistory] + [];
    s' := T.Apply(s, T.Work(k, T.SaveHistory));
  }

  lemma SuccessAlone(s: T.State, k: T.Slot, id: Id, h: HistoryRecord, c: Clock) returns (s': T.State)
    requires k in s.slots && s.slots[k] == T.Returned(id, h, None) && id in s.cells && id in s.stored
    requires s.now <= c.settled <= c.stamped <= c.final
    ensures Alone(s, k, SuccessOps(c)) == Some(s')
    ensures Ended(s, k, id, None, c, h.(outcome := Succeeded), s')
  {
    var s3 := CompletedAlone(s, k, id, h, c, [T.SaveHistory]);
    s' := SaveAlone(s3, k, id, h.(outcome := Succeeded));
  }

  lemma CompletedAlone(s: T.State, k: T.Slot, id: Id, h: HistoryRecord, c: Clock, rest: seq<T.SlotOp>)
    returns (s': T.State)
    requires k in s.slots && s.slots[k] == T.Returned(id, h, None) && id in s.cells && id in s.stored
    requires s.now <= c.settled <= c.stamped <= c.final
    ensures Alone(s, k, [T.Complete(c.settled, c.stamped), T.StoreFinal(c.final), T.CountCompletion] + rest) ==
            Alone(s', k, rest)
    ensures id in s'.cells
    ensures s'.cells[id].job == AsCompleted(s.cells[id].job, c.settled, c.stamped).(updatedAt := c.final)
    ensures s'.slots == s.slots[k := T.Saving(id, h.(outcome := Succeeded))] && s'.queue == s.queue
    ensures s'.counters == CountersAfter(s.counters, Completed) && s'.history == s.history
  {
    var a, h', last := T.Complete(c.settled, c.stamped), h.(outcome := Succeeded), [T.CountCompletion] + rest;
    var s1 := T.Apply(s, T.Work(k, a));
    AloneFirst(s, k, a, [T.StoreFinal(c.final)] + last);
    var s2 := StoreAlone(s1, k, id, h', c.final, last);
    s' := T.Apply(s2, T.Work(k, T.CountCompletion));
    AloneFirst(s2, k, T.CountCompletion, rest);
    assert [a, T.StoreFinal(c.final), T.CountCompletion] + rest == [a] + ([T.StoreFinal(c.final)] + last);
  }

  /** Up to the queue call of a failed attempt. */
  lemma FailureAlone(s: T.State, k: T.Slot, id: Id, h: HistoryRecord, e: string, c: Clock, rest: seq<T.SlotOp>)
    returns (s': T.State)
    requires k in s.slots && s.slots[k] == T.Returned(id, h, Some(e)) && id in s.cells && s.cells[id].job.id == id
    requires s.now <= c.settled <= c.stamped <= c.attempted <= c.decided
    ensures Alone(s, k, FailureOps(c) + rest) == Alone(s', k, rest)
    ensures var r := Settled(s.cells[id].job, Some(e), c, s.oor);
            var h' := h.(outcome := Unsuccessful, error := e);
            && id in s'.cells && s'.cells[id].job == r
            && s'.slots == s.slots[k := if r.status == Scheduled then T.Requeued(id, h') else T.Interred(id, h')]
            && s'.queue == QueueAfter(s.queue, r)
    ensures s'.now == c.decided && s'.stored == s.stored && s'.counters == s.counters && s'.history == s.history
  {
    var s2 := DecidedAlone(s, k, id, h, e, c, [T.Release] + rest);
    s' := ReleaseAlone(s2, k, id, h.(outcome := Unsuccessful, error := e), rest);
    assert FailureOps(c) + rest ==
           [T.MarkFailed(c.settled, c.stamped, c.attempted), T.Decide(c.decided)] + ([T.Release] + rest);
  }

  lemma ReleaseAlone(s: T.State, k: T.Slot, id: Id, h: HistoryRecord, rest: seq<T.SlotOp>) returns (s': T.State)
    requires k in s.slots && id in s.cells && s.cells[id].job.id == id
    requires var status := s.cells[id].job.status;
             && (status == Scheduled || status == Dead)
             && s.slots[k] == if status == Scheduled then T.Retrying(id, h) else T.Burying(id, h)
    ensures Alone(s, k, [T.Release] + rest) == Alone(s', k, rest)
    ensures id in s'.cells && s'.cells[id].job == s.cells[id].job && s'.queue == QueueAfter(s.queue, s.cells[id].job)
    ensures s'.slots == s.slots[k := if s.slots[k].Retrying? then T.Requeued(id, h) else T.Interred(id, h)]
    ensures s'.now == s.now && s'.stored == s.stored && s'.counters == s.counters && s'.history == s.history
  {
    s' := T.Apply(s, T.Work(k, T.Release));
    AloneFirst(s, k, T.Release, rest);
  }

  lemma DecidedAlone(s: T.State, k: T.Slot, id: Id, h: HistoryRecord, e: string, c: Clock, rest: seq<T.SlotOp>)
    returns (s': T.State)
    requires k in s.slots && s.slots[k] == T.Returned(id, h, Some(e)) && id in s.cells
    requires s.now <= c.settled <= c.stamped <= c.attempted <= c.decided
    ensures Alone(s, k, [T.MarkFailed(c.settled, c.stamped, c.attempted), T.Decide(c.decided)] + rest) ==
            Alone(s', k, rest)
    ensures var r := Settled(s.cells[id].job, Some(e), c, s.oor);
            var h' := h.(outcome := Unsuccessful, error := e);
            && s'.cells == s.cells[id := s.cells[id].(job := r)]
            && s'.slots == s.slots[k := if r.status == Scheduled then T.Retrying(id, h') else T.Burying(id, h')]
            && (r.status == Scheduled || r.status == Dead)
    ensures s'.now == c.decided && s'.stored == s.stored && s'.counters == s.counters && s'.history == s.history
    ensures s'.queue == s.queue
  {
    var a, b := T.MarkFailed(c.settled, c.stamped, c.attempted), T.Decide(c.decided);
    var s1 := T.Apply(s, T.Work(k, a));
    s' := T.Apply(s1, T.Work(k, b));
    AloneFirst(s, k, a, [b] + rest);
    AloneFirst(s1, k, b, rest);
    assert [a, b] + rest == [a] + ([b] + rest);
  }

  lemma WindUpAlone(s: T.State, k: T.Slot, id: Id, h: HistoryRecord, c: Clock) returns (s': T.State)
    requires k in s.slots && (s.slots[k] == T.Requeued(id, h) || s.slots[k] == T.Interred(id, h))
    requires id in s.cells && id in s.stored && s.now <= c.final
    ensures Alone(s, k, WindUpOps(c)) == Some(s')
    ensures id in s'.cells && s'.cells[id].job == s.cells[id].job.(updatedAt := c.final)
    ensures s'.slots == s.slots[k := T.Idle] && s'.queue == s.queue
    ensures s'.counters == CountersAfter(s.counters, if s.slots[k].Requeued? then Scheduled else Dead)
    ensures s'.history == s.history[id := T.Record(s, id) + [h]]
  {
    var s3 := CountedAlone(s, k, id, h, c, [T.SaveHistory]);
    s' := SaveAlone(s3, k, id, h);
  }

  /** The metrics calls and the trailing UpdateJob. */
  lemma CountedAlone(s: T.State, k: T.Slot, id: Id, h: HistoryRecord, c: Clock, rest: seq<T.SlotOp>)
    returns (s': T.State)
    requires k in s.slots && (s.slots[k] == T.Requeued(id, h) || s.slots[k] == T.Interred(id, h))
    requires id in s.cells && id in s.stored && s.now <= c.final
    ensures Alone(s, k, [T.CountOutcome, T.CountFailure, T.StoreFinal(c.final)] + rest) == Alone(s', k, rest)
    ensures id in s'.cells && s'.cells[id].job == s.cells[id].job.(updatedAt := c.final)
    ensures s'.slots == s.slots[k := T.Saving(id, h)] && s'.queue == s.queue && s'.history == s.history
    ensures s'.counters == CountersAfter(s.counters, if s.slots[k].Requeued? then Scheduled else Dead)
  {
    var ops := [T.StoreFinal(c.final)] + rest;
    var s2 := MetricsAlone(s, k, id, h, ops);
    s' := StoreAlone(s2, k, id, h, c.final, rest);
    assert [T.CountOutcome, T.CountFailure, T.StoreFinal(c.final)] + rest == [T.CountOutcome, T.CountFailure] + ops;
  }

  lemma MetricsAlone(s: T.State, k: T.Slot, id: Id, h: HistoryRecord, rest: seq<T.SlotOp>) returns (s': T.State)
    requires k in s.slots && (s.slots[k] == T.Requeued(id, h) || s.slots[k] == T.Interred(id, h)) && id in s.cells
    ensures Alone(s, k, [T.CountOutcome, T.CountFailure] + rest) == Alone(s', k, rest)
    ensures s'.cells == s.cells && s'.slots == s.slots[k := T.Trailing(id, h)] && s'.queue == s.queue
    ensures s'.counters == CountersAfter(s.counters, if s.slots[k].Requeued? then Scheduled else Dead)
    ensures s'.history == s.history && s'.stored == s.stored && s'.now == s.now
  {
    var s1 := T.Apply(s, T.Work(k, T.CountOutcome));
    s' := T.Apply(s1, T.Work(k, T.CountFailure));
    AloneFirst(s, k, T.CountOutcome, [T.CountFailure] + rest);
    AloneFirst(s1, k, T.CountFailure, rest);
    assert [T.CountOutcome, T.CountFailure] + rest == [T.CountOutcome] + ([T.CountFailure] + rest);
  }

  lemma StoreAlone(s: T.State, k: T.Slot, id: Id, h: HistoryRecord, t: Time, rest: seq<T.SlotOp>) returns (s': T.State)
    requires k in s.slots && (s.slots[k] == T.Trailing(id, h) || s.slots[k] == T.Completing(id, h))
    requires id in s.cells && id in s.stored && s.now <= t
    ensures Alone(s, k, [T.StoreFinal(t)] + rest) == Alone(s', k, rest)
    ensures id in s'.cells && s'.cells[id].job == s.cells[id].job.(updatedAt := t)
    ensures s'.slots == s.slots[k := if s.slots[k].Trailing? then T.Saving(id, h) else T.Stored(id, h)]
    ensures s'.queue == s.queue && s'.counters == s.counters && s'.history == s.history
  {
    s' := T.Apply(s, T.Work(k, T.StoreFinal(t)));
    AloneFirst(s, k, T.StoreFinal(t), rest);
  }

  /** The outcome `err` is dealt with and the record `h` is saved. */
  ghost predicate Ended(s: T.State, k: T.Slot, id: Id, err: Option<string>, c: Clock, h: HistoryRecord, s': T.State)
    requires id in s.cells
  {
    var r := Settled(s.cells[id].job, err, c, s.oor);
    && id in s'.cells && s'.cells[id].job == r.(updatedAt := c.final)
    && s'.queue == QueueAfter(s.queue, r) && s'.counters == CountersAfter(s.counters, r.status)
    && s'.slots == s.slots[k := T.Idle]
    && s'.history == s.history[id := T.Record(s, id) + [h]]
  }

  lemma FailedAlone(s: T.State, k: T.Slot, id: Id, h: HistoryRecord, e: string, c: Clock) returns (s': T.State)
    requires k in s.slots && s.slots[k] == T.Returned(id, h, Some(e)) && id in s.cells && s.cells[id].job.id == id
    requires id in s.stored && s.now <= c.settled <= c.stamped <= c.attempted <= c.decided <= c.final
    ensures Alone(s, k, FailureOps(c) + WindUpOps(c)) == Some(s')
    ensures Ended(s, k, id, Some(e), c, h.(outcome := Unsuccessful, error := e), s')
  {
    var s2 := FailureAlone(s, k, id, h, e, c, WindUpOps(c));
    s' := WindUpAlone(s2, k, id, s2.slots[k].h, c);
  }

  /** What the method ProcessJob promises, said of the transition system's states. */
  ghost predicate Performed(s: T.State, k: T.Slot, id: Id, err: Option<string>, c: Clock, s': T.State)
    requires id in s.cells
  {
    var j := Begun(s.cells[id].job, T.WorkerName(k), c);
    var r := Settled(j, err, c, s.oor);
    && id in s'.cells && s'.cells[id].job == r.(updatedAt := c.final)
    && s'.queue == QueueAfter(s.queue, r)
    && s'.counters == CountersAfter(s.counters, r.status)
    && s'.history == s.history[id := T.Record(s, id) + [RecordOf(j, T.WorkerName(k), err, c)]]
    && s'.slots == s.slots[k := T.Idle]
  }

  lemma AttemptEnded(
    s: T.State, k: T.Slot, id: Id, err: Option<string>, c: Clock, s1: T.State, h: HistoryRecord, s': T.State)
    requires id in s.cells && s.cells[id].job.id == id && Attempted(s, k, id, err, c, s1) && k in s1.slots
    requires var r := s1.slots[k];
             r.Returned? && h == if err.None? then r.h.(outcome := Succeeded)
                                 else r.h.(outcome := Unsuccessful, error := err.value)
    requires Ended(s1, k, id, err, c, h, s')
    ensures Performed(s, k, id, err, c, s')
  {}

  lemma SuccessfulCall(s: T.State, k: T.Slot, id: Id, c: Clock) returns (s': T.State)
    requires k in s.slots && s.slots[k] == T.Taken(id) && id in s.cells && s.cells[id].job.id == id && id in s.stored
    requires s.cells[id].job.jobType in s.handlers && InOrder(s.now, c)
    ensures Alone(s, k, CallOps(None, c)) == Some(s') && Performed(s, k, id, None, c, s')
  {
    var s1 := AttemptAlone(s, k, id, None, c, SuccessOps(c));
    var h := s1.slots[k].h;
    s' := SuccessAlone(s1, k, id, h, c);
    AttemptEnded(s, k, id, None, c, s1, h.(outcome := Succeeded), s');
  }

  lemma FailedCall(s: T.State, k: T.Slot, id: Id, e: string, c: Clock) returns (s': T.State)
    requires k in s.slots && s.slots[k] == T.Taken(id) && id in s.cells && s.cells[id].job.id == id && id in s.stored
    requires InOrder(s.now, c)
    ensures Alone(s, k, CallOps(Some(e), c)) == Some(s') && Performed(s, k, id, Some(e), c, s')
  {
    var s1 := AttemptAlone(s, k, id, Some(e), c, FailureOps(c) + WindUpOps(c));
    var h := s1.slots[k].h;
    s' := FailedAlone(s1, k, id, h, e, c);
    AttemptEnded(s, k, id, Some(e), c, s1, h.(outcome := Unsuccessful, error := e), s');
  }

  /** A ProcessJob call that nothing interrupts: the slot's operations in a row change the
      job, the queue, the counters and the history exactly as the method ProcessJob does,
      whatever the handler answers; the job is completed exactly if its type has a handler
      and that returns no error. */
  lemma CallAlone(s: T.State, k: T.Slot, id: Id, answer: Option<string>, c: Clock)
    returns (err: Option<string>, s': T.State)
    requires k in s.slots && s.slots[k] == T.Taken(id) && id in s.cells && s.cells[id].job.id == id && id in s.stored
    requires InOrder(s.now, c)
    ensures var jobType := s.cells[id].job.jobType;
            && (jobType in s.handlers ==> err == answer)
            && (jobType !in s.handlers ==> err == Some("no handler registered for job type: " + jobType))
            && id in s'.cells
            && (s'.cells[id].job.status == Completed <==> jobType in s.handlers && answer.None?)
    ensures Alone(s, k, CallOps(err, c)) == Some(s') && Performed(s, k, id, err, c, s')
  {
    var jobType := s.cells[id].job.jobType;
    err := if jobType in s.handlers then answer else Some("no handler registered for job type: " + jobType);
    if err.None? {
      s' := SuccessfulCall(s, k, id, c);
    } else {
      s' := FailedCall(s, k, id, err.value, c);
      SettledFields(Begun(s.cells[id].job, T.WorkerName(k), c), err.value, c, s.oor);
    }
  }

  /** A schedule request that nothing interrupts: submitting, enqueueing and counting in a
      row change storage, queue and counter exactly as the method ScheduleJob does. */
  lemma RequestAlone(s: T.State, id: Id, req: Request, created: Time, updated: Time, stamped: Time, checked: Time)
    requires id !in s.cells && s.now <= created <= updated <= stamped <= checked
    ensures var job := NewJob(id, req, created, updated, stamped, checked);
            var s1 := T.Apply(s, T.Submit(id, req, created, updated, stamped, checked));
            && T.Enabled(s1, T.Dispatch(id))
            && var s2 := T.Apply(s1, T.Dispatch(id));
            && T.Enabled(s2, T.CountScheduled(id))
            && var s3 := T.Apply(s2, T.CountScheduled(id));
            && id in s3.cells && s3.cells[id].job == job && s3.stored == s.stored + {id}
            && s3.queue == (if job.status == Scheduled then Q.EnqueueDelayed(s.queue, id, job.priority, job.scheduledAt)
                            else Q.Enqueue(s.queue, id, job.priority))
            && s3.counters == s.counters.(scheduled := s.counters.scheduled + 1)
            && s3.requests == s.requests - {id} && s3.slots == s.slots && s3.history == s.history
  {
    assert s.requests[id := T.ToEnqueue][id := T.ToCount] - {id} == s.requests - {id};
  }
}
