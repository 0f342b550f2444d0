/** The whole service over the in-memory adapters as a transition system.

    Any number of schedule requests, promotion passes and worker slots interleave.
    One action is one access to shared state: a queue or storage call (each holds
    its mutex), a metrics call, or one update of the job that a worker holds.  The
    memory adapters share one job object per id, so a job exists once, in `cells`.

    `origin`, `ledger` and `place` of a cell record a job's journey for the proofs;
    no guard and no other field ever depends on them. */
module System {
  import opened Domain
  import Q = MemoryQueueSpec

  datatype Slot = Slot(runner: nat, number: nat)

  datatype Place = Saved | Active | Delayed | Held(slot: Slot) | Buried | Done | Lost

  /** Where the history record of an attempt is. */
  datatype Whereabouts = InSlot(slot: Slot) | InHistory(index: nat)

  datatype Cell = Cell(
    job: JobRecord,
    origin: RetryPolicy,         // the policy the job was submitted with
    ledger: seq<Whereabouts>,    // one entry per handler attempt begun
    place: Place)

  /** Where a worker slot is in ProcessJob, named after the call it made last. */
  datatype Pc =
    | Idle
    | Taken(id: Id)                                       // Dequeue returned the job
    | Marked(id: Id)                                      // MarkAsProcessing
    | Running(id: Id, h: HistoryRecord)                   // UpdateJob; the handler runs
    | Returned(id: Id, h: HistoryRecord, err: Option<string>)
    | Completing(id: Id, h: HistoryRecord)                // MarkAsCompleted
    | Stored(id: Id, h: HistoryRecord)                    // UpdateJob of a completed job
    | Failing(id: Id, h: HistoryRecord)                   // MarkAsFailed
    | Retrying(id: Id, h: HistoryRecord)                  // status and time of the retry set
    | Burying(id: Id, h: HistoryRecord)                   // MarkAsDead
    | Requeued(id: Id, h: HistoryRecord)                  // EnqueueDelayed
    | Interred(id: Id, h: HistoryRecord)                  // MoveToDeadLetter
    | Counted(id: Id, h: HistoryRecord)                   // retried or dead-lettered metric
    | Trailing(id: Id, h: HistoryRecord)                  // failed metric
    | Saving(id: Id, h: HistoryRecord)                    // all but SaveJobHistory

  /** A schedule request after SaveJob: still to be enqueued, or still to be counted. */
  datatype RequestPc = ToEnqueue | ToCount

  datatype Counters = Counters(scheduled: nat, completed: nat, failed: nat, retried: nat, deadLettered: nat)

  datatype State = State(
    now: Time,
    handlers: set<string>,           // job types with a registered handler
    oor: Int64,                      // see Domain.PowFactor
    cells: map<Id, Cell>,
    stored: set<Id>,                 // keys of the storage's job map
    queue: Q.MemQueue,
    requests: map<Id, RequestPc>,
    slots: map<Slot, Pc>,
    history: map<Id, seq<HistoryRecord>>,
    counters: Counters,
    returned: nat)                   // handler calls that have returned

  ghost predicate Init(s: State, runners: seq<nat>) {
    && s.cells == map[] && s.stored == {} && s.queue == Q.EMPTY && s.requests == map[] && s.history == map[]
    && s.counters == Counters(0, 0, 0, 0, 0) && s.returned == 0
    && (forall k: Slot :: k in s.slots <==> k.runner < |runners| && k.number < runners[k.runner])
    && forall k :: k in s.slots ==> s.slots[k] == Idle
  }

  // ----------------------------------------------------------------- actions

  /** What a slot does next; the times are the clock readings made on the way. */
  datatype SlotOp =
    | Dequeue
    | Mark(updated: Time, processed: Time)
    | Begin(updated: Time, started: Time)
    | Return(err: Option<string>, ended: Time)
    | Complete(updated: Time, completed: Time)
    | MarkFailed(updated: Time, failed: Time, attempted: Time)
    | Decide(read: Time)
    | Release
    | CountOutcome
    | CountFailure
    | StoreFinal(updated: Time)
    | CountCompletion
    | SaveHistory

  datatype Action =
    | Tick(t: Time)
    | Submit(id: Id, req: Request, created: Time, updated: Time, scheduled: Time, checked: Time)
    | Dispatch(id: Id)
    | CountScheduled(id: Id)
    | Promote(t: Time, iteration: seq<Id>)
    | Work(k: Slot, op: SlotOp)

  /** The program point at which each slot operation happens. */
  predicate At(pc: Pc, op: SlotOp) {
    match op
    case Dequeue => pc.Idle?
    case Mark(_, _) => pc.Taken?
    case Begin(_, _) => pc.Marked?
    case Return(_, _) => pc.Running?
    case Complete(_, _) => pc.Returned? && pc.err.None?
    case MarkFailed(_, _, _) => pc.Returned? && pc.err.Some?
    case Decide(_) => pc.Failing?
    case Release => pc.Retrying? || pc.Burying?
    case CountOutcome => pc.Requeued? || pc.Interred?
    case CountFailure => pc.Counted?
    case StoreFinal(_) => pc.Completing? || pc.Trailing?
    case CountCompletion => pc.Stored?
    case SaveHistory => pc.Saving?
  }

  /** Clock readings never go back. */
  predicate Timely(now: Time, op: SlotOp) {
    match op
    case Mark(u, t) => now <= u <= t
    case Begin(u, t) => now <= u <= t
    case Return(_, t) => now <= t
    case Complete(u, t) => now <= u <= t
    case MarkFailed(u, f, a) => now <= u <= f <= a
    case Decide(t) => now <= t
    case StoreFinal(u) => now <= u
    case _ => true
  }

  /** executeJob returns an error for a type without a handler; a handler may return anything. */
  predicate CanWork(s: State, k: Slot, op: SlotOp) {
    && k in s.slots && At(s.slots[k], op) && Timely(s.now, op)
    && (op.Return? && s.slots[k].id in s.cells && s.cells[s.slots[k].id].job.jobType !in s.handlers ==> op.err.Some?)
  }

  ghost predicate Enabled(s: State, a: Action) {
    match a
    case Tick(t) => s.now <= t
    case Submit(id, req, c, u, d, k) => id !in s.cells && s.now <= c <= u <= d <= k
    case Dispatch(id) => id in s.requests && s.requests[id].ToEnqueue? && id in s.cells
    case CountScheduled(id) => id in s.requests && s.requests[id].ToCount?
    case Promote(t, iteration) => s.now <= t && Q.Enumerates(iteration, s.queue.delayed.Keys)
    case Work(k, op) => CanWork(s, k, op) && (op.Dequeue? || s.slots[k].id in s.cells)
  }

  // ----------------------------------------------------- effects, one by one

  function Record(s: State, id: Id): seq<HistoryRecord> {
    if id in s.history then s.history[id] else []
  }

  function SubmitJob(s: State, id: Id, job: JobRecord): State {
    s.(cells := s.cells[id := Cell(job, job.retry, [], Saved)],
       stored := s.stored + {id},
       requests := s.requests[id := ToEnqueue])
  }

  /** enqueueJob: a scheduled job is delayed, any other goes to its active list. */
  function DispatchJob(s: State, id: Id): State
    requires id in s.cells
  {
    var c := s.cells[id];
    if c.job.status == Scheduled
    then s.(cells := s.cells[id := c.(place := Delayed)],
            queue := Q.EnqueueDelayed(s.queue, id, c.job.priority, c.job.scheduledAt),
            requests := s.requests[id := ToCount])
    else s.(cells := s.cells[id := c.(place := Active)],
            queue := Q.Enqueue(s.queue, id, c.job.priority),
            requests := s.requests[id := ToCount])
  }

  /** Promotion of one ready id: nothing happens without a job reference. */
  function PromoteOne(s: State, id: Id): State {
    if id in s.queue.index && id in s.cells
    then s.(cells := s.cells[id := s.cells[id].(job := s.cells[id].job.(status := Pending), place := Active)],
            queue := Q.PromoteOne(s.queue, id))
    else s
  }

  function PromoteAll(s: State, ids: seq<Id>): State {
    if ids == [] then s
    else PromoteOne(PromoteAll(s, ids[..|ids| - 1]), ids[|ids| - 1])
  }

  function TakeJob(s: State, k: Slot): State {
    var (q, got) := Q.Dequeue(s.queue, Q.RUNNER_ORDER);
    if got.Some? && got.value in s.cells
    then s.(queue := q,
            slots := s.slots[k := Taken(got.value)],
            cells := s.cells[got.value := s.cells[got.value].(place := Held(k))])
    else s.(queue := q)
  }

  function WorkerName(k: Slot): string {
    Digits(k.runner) + "-" + Digits(k.number)
  }

  function Digits(n: nat): string {
    (if n < 10 then "" else Digits(n / 10)) + ["0123456789"[n % 10]]
  }

  /** What an operation of a slot does to the job in its hands and to the slot. */
  datatype Effect = Effect(cell: Cell, pc: Pc)

  /** UpdateJob stamps the shared job. */
  function Stamp(c: Cell, updated: Time): Cell {
    c.(job := c.job.(updatedAt := updated))
  }

  /** The ledger once the record `h` is the `n`-th of the saved history. */
  function Filed(c: Cell, h: HistoryRecord, n: nat): Cell {
    var i := h.attempt - c.origin.currentAttempts - 1;
    if 0 <= i < |c.ledger| then c.(ledger := c.ledger[i := InHistory(n)]) else c
  }

  /** One operation of slot `k` at `pc` on job `c`.  `known` says whether UpdateJob
      finds the job: if the first one does not, ProcessJob gives up and the job is
      in no collection any more; if the last one does not, that is only logged. */
  function Local(k: Slot, pc: Pc, c: Cell, op: SlotOp, known: bool, oor: Int64, saved: nat): Effect
    requires At(pc, op) && !op.Dequeue?
  {
    var id := pc.id;
    match op
    case Mark(u, t) =>
      Effect(c.(job := AsProcessing(c.job, WorkerName(k), u, t)), Marked(id))
    case Begin(u, t) =>
      if !known then Effect(c.(place := Lost), Idle)
      else Effect(Stamp(c, u).(ledger := c.ledger + [InSlot(k)]),
                  Running(id, HistoryRecord(id, WorkerName(k), c.job.retry.currentAttempts + 1, t,
                                            None, InProgress, "")))
    case Return(err, t) =>
      Effect(c, Returned(id, pc.h.(completedAt := Some(t)), err))
    case Complete(u, t) =>
      Effect(c.(job := AsCompleted(c.job, u, t), place := Done), Completing(id, pc.h.(outcome := Succeeded)))
    case MarkFailed(u, f, a) =>
      Effect(c.(job := AsFailed(c.job, pc.err.value, u, f, a)),
             Failing(id, pc.h.(outcome := Unsuccessful, error := pc.err.value)))
    case Decide(t) =>
      if CanRetry(c.job) then Effect(c.(job := AsRetry(c.job, t, oor)), Retrying(id, pc.h))
      else Effect(c.(job := AsDead(c.job, t)), Burying(id, pc.h))
    case Release =>
      if pc.Retrying? then Effect(c.(place := Delayed), Requeued(id, pc.h))
      else Effect(c.(place := Buried), Interred(id, pc.h))
    case CountOutcome =>
      Effect(c, Counted(id, pc.h))
    case CountFailure =>
      Effect(c, Trailing(id, pc.h))
    case StoreFinal(u) =>
      Effect(if known then Stamp(c, u) else c, if pc.Completing? then Stored(id, pc.h) else Saving(id, pc.h))
    case CountCompletion =>
      Effect(c, Saving(id, pc.h))
    case SaveHistory =>
      Effect(Filed(c, pc.h, saved), Idle)
  }

  /** The queue calls of ProcessJob: EnqueueDelayed or MoveToDeadLetter. */
  function QueueAfter(q: Q.MemQueue, pc: Pc, job: JobRecord, op: SlotOp): Q.MemQueue
    requires !pc.Idle?
  {
    if !op.Release? then q
    else if pc.Retrying? then Q.EnqueueDelayed(q, pc.id, job.priority, job.scheduledAt)
    else Q.MoveToDeadLetter(q, pc.id)
  }

  /** The metrics calls of ProcessJob. */
  function CountersAfter(c: Counters, pc: Pc, op: SlotOp): Counters {
    match op
    case CountOutcome =>
      if pc.Requeued? then c.(retried := c.retried + 1) else c.(deadLettered := c.deadLettered + 1)
    case CountFailure => c.(failed := c.failed + 1)
    case CountCompletion => c.(completed := c.completed + 1)
    case _ => c
  }

  /** The clock after an operation: its last reading. */
  function LastReading(now: Time, op: SlotOp): Time {
    match op
    case Mark(_, t) => t
    case Begin(_, t) => t
    case Return(_, t) => t
    case Complete(_, t) => t
    case MarkFailed(_, _, t) => t
    case Decide(t) => t
    case StoreFinal(t) => t
    case _ => now
  }

  /** One operation of slot `k`, which has job `id` in hand. */
  function WorkOn(s: State, k: Slot, id: Id, op: SlotOp): State
    requires CanWork(s, k, op) && !op.Dequeue? && id == s.slots[k].id && id in s.cells
  {
    var (pc, c) := (s.slots[k], s.cells[id]);
    var e := Local(k, pc, c, op, id in s.stored, s.oor, |Record(s, id)|);
    s.(cells := s.cells[id := e.cell],
       slots := s.slots[k := e.pc],
       queue := QueueAfter(s.queue, pc, c.job, op),
       counters := CountersAfter(s.counters, pc, op),
       returned := if op.Return? then s.returned + 1 else s.returned,
       history := if op.SaveHistory? then s.history[id := Record(s, id) + [pc.h]] else s.history,
       now := LastReading(s.now, op))
  }

  ghost function Apply(s: State, a: Action): State
    requires Enabled(s, a)
  {
    match a
    case Tick(t) => s.(now := t)
    case Submit(id, req, c, u, d, k) => SubmitJob(s, id, NewJob(id, req, c, u, d, k)).(now := k)
    case Dispatch(id) => DispatchJob(s, id)
    case CountScheduled(id) =>
      s.(requests := s.requests - {id}, counters := s.counters.(scheduled := s.counters.scheduled + 1))
    case Promote(t, iteration) => PromoteAll(s.(now := t), Q.Due(s.queue, t, iteration))
    case Work(k, op) => if op.Dequeue? then TakeJob(s, k) else WorkOn(s, k, s.slots[k].id, op)
  }

  // -------------------------------------------------------------------- runs

  /** A run: its states and the actions between them. */
  ghost predicate IsRun(trace: seq<State>, acts: seq<Action>) {
    && |trace| == |acts| + 1
    && forall i :: 0 <= i < |acts| ==> Enabled(trace[i], acts[i]) && trace[i + 1] == Apply(trace[i], acts[i])
  }

  ghost predicate IsSystemRun(trace: seq<State>, acts: seq<Action>, runners: seq<nat>) {
    IsRun(trace, acts) && Init(trace[0], runners)
  }
}
