/** The services over adapters that copy jobs: a queue of encoded copies and a
    storage that writes whole records by id.  Promotion pushes a delayed entry and
    removes it with a second command.  Which copies agree with the stored record, and
    when a promoted job may start. */
module ByValue {
  import opened Domain
  import R = RedisSpec

  /** Where a worker is in ProcessJob, with its own copy of the job. */
  datatype Pc =
    | Idle
    | Taken(job: JobRecord)           // Dequeue
    | Running(job: JobRecord)         // MarkAsProcessing and the first UpdateJob
    | Settling(job: JobRecord)        // failed: the retry or the burial is decided
    | Trailing(job: JobRecord)        // EnqueueDelayed or MoveToDeadLetter done

  /** A promoting process: between passes, at the head of its loop over the reply, or
      between the push of an entry and its removal. */
  datatype Promoter =
    | Resting
    | Looping(todo: seq<JobRecord>)
    | Pushed(job: JobRecord, todo: seq<JobRecord>)

  /** Lists may hold equal copies, so they are multisets, from which workers may take
      any copy; the sorted set holds equal copies once, each with the second of its
      scheduled time as score. */
  datatype State = State(
    now: Time,
    store: map<Id, JobRecord>,
    active: multiset<JobRecord>,
    delayed: set<JobRecord>,
    dead: multiset<JobRecord>,
    requests: map<Id, JobRecord>,     // saved, not yet enqueued
    slots: map<nat, Pc>,
    promoters: map<nat, Promoter>)

  datatype Action =
    | Tick(t: Time)
    | Submit(id: Id, req: Request, t: Time)
    | Dispatch(id: Id)
    | Scan(p: nat, t: Time, reply: seq<JobRecord>)
    | Push(p: nat, ok: bool)
    | Remove(p: nat, ok: bool)
    | Finish(p: nat)
    | Crash(p: nat)
    | Dequeue(k: nat, job: JobRecord)
    | Start(k: nat, worker: string, t: Time)
    | Succeed(k: nat, t: Time)
    | Fail(k: nat, error: string, t: Time, oor: Int64)
    | Release(k: nat)
    | StoreFinal(k: nat, t: Time)

  ghost predicate NoRepeats(jobs: seq<JobRecord>) {
    forall i, j :: 0 <= i < j < |jobs| ==> jobs[i] != jobs[j]
  }

  /** ZRANGEBYSCORE: the entries whose whole second has come, each once. */
  ghost predicate DueReply(delayed: set<JobRecord>, t: Time, reply: seq<JobRecord>) {
    && NoRepeats(reply)
    && forall j :: j in reply <==> j in delayed && 0 <= R.Unix(j.scheduledAt) <= R.Unix(t)
  }

  ghost predicate Enabled(s: State, a: Action) {
    match a
    case Tick(t) => s.now <= t
    case Submit(id, _, t) => id !in s.store && s.now <= t
    case Dispatch(id) => id in s.requests
    case Scan(p, t, reply) =>
      p in s.promoters && s.promoters[p].Resting? && s.now <= t && DueReply(s.delayed, t, reply)
    case Push(p, _) => p in s.promoters && s.promoters[p].Looping? && s.promoters[p].todo != []
    case Remove(p, _) => p in s.promoters && s.promoters[p].Pushed?
    case Finish(p) => p in s.promoters && s.promoters[p] == Looping([])
    case Crash(p) => p in s.promoters
    case Dequeue(k, job) => k in s.slots && s.slots[k].Idle? && job in s.active
    case Start(k, _, t) => k in s.slots && s.slots[k].Taken? && s.now <= t
    case Succeed(k, t) => k in s.slots && s.slots[k].Running? && s.now <= t
    case Fail(k, _, t, _) => k in s.slots && s.slots[k].Running? && s.now <= t
    case Release(k) => k in s.slots && s.slots[k].Settling?
    case StoreFinal(k, t) => k in s.slots && s.slots[k].Trailing? && s.now <= t
  }

  /** A failed job: rescheduled if it may be retried, else dead. */
  function Settled(job: JobRecord, error: string, t: Time, oor: Int64): JobRecord {
    var j := AsFailed(job, error, t, t, t);
    if CanRetry(j) then AsRetry(j, t, oor) else AsDead(j, t)
  }

  function SetSlot(s: State, k: nat, pc: Pc): State {
    s.(slots := s.slots[k := pc])
  }

  function SetPromoter(s: State, p: nat, pc: Promoter): State {
    s.(promoters := s.promoters[p := pc])
  }

  /** UpdateJob: the whole record, with the time of writing. */
  function Write(s: State, job: JobRecord, t: Time): State {
    s.(store := s.store[job.id := job.(updatedAt := t)], now := t)
  }

  ghost function Apply(s: State, a: Action): State
    requires Enabled(s, a)
  {
    match a
    case Tick(t) => s.(now := t)
    case Submit(id, req, t) =>
      var job := NewJob(id, req, t, t, t, t);
      Write(s, job, t).(requests := s.requests[id := job])
    case Dispatch(id) =>
      var job := s.requests[id];
      if job.status == Scheduled
      then s.(requests := s.requests - {id}, delayed := s.delayed + {job})
      else s.(requests := s.requests - {id}, active := s.active + multiset{job})
    case Scan(p, t, reply) => SetPromoter(s, p, Looping(reply)).(now := t)
    case Push(p, ok) =>
      var (job, rest) := (s.promoters[p].todo[0], s.promoters[p].todo[1..]);
      if ok then SetPromoter(s, p, Pushed(job, rest)).(active := s.active + multiset{job})
      else SetPromoter(s, p, Looping(rest))
    case Remove(p, ok) =>
      SetPromoter(s, p, Looping(s.promoters[p].todo)).(
        delayed := if ok then s.delayed - {s.promoters[p].job} else s.delayed)
    case Finish(p) => SetPromoter(s, p, Resting)
    case Crash(p) => SetPromoter(s, p, Resting)
    case Dequeue(k, job) => SetSlot(s, k, Taken(job)).(active := s.active - multiset{job})
    case Start(k, worker, t) =>
      var job := AsProcessing(s.slots[k].job, worker, t, t);
      SetSlot(Write(s, job, t), k, Running(job))
    case Succeed(k, t) => SetSlot(Write(s, AsCompleted(s.slots[k].job, t, t), t), k, Idle)
    case Fail(k, error, t, oor) => SetSlot(s, k, Settling(Settled(s.slots[k].job, error, t, oor))).(now := t)
    case Release(k) =>
      var job := s.slots[k].job;
      if job.status == Scheduled
      then SetSlot(s, k, Trailing(job)).(delayed := s.delayed + {job})
      else SetSlot(s, k, Trailing(job)).(dead := s.dead + multiset{job})
    case StoreFinal(k, t) => SetSlot(Write(s, s.slots[k].job, t), k, Idle)
  }

  predicate Has(pc: Pc, id: Id) {
    !pc.Idle? && pc.job.id == id
  }

  /** A ProcessJob call for the job has not made its last UpdateJob yet. */
  ghost predicate Busy(slots: map<nat, Pc>, id: Id) {
    exists k :: k in slots && Has(slots[k], id)
  }

  /** Equal but for the time of the last write. */
  predicate Agree(copy: JobRecord, record: JobRecord) {
    copy == record.(updatedAt := copy.updatedAt)
  }

  /** The delayed entries that have been pushed and are still to be removed. */
  ghost function Awaiting(s: State): set<JobRecord> {
    set p | p in s.promoters && s.promoters[p].Pushed? :: s.promoters[p].job
  }

  /** All copies but the delayed entries that await their removal. */
  ghost function Live(s: State): multiset<JobRecord> {
    s.active + s.dead + multiset(s.delayed - Awaiting(s))
  }

  // ------------------------------------------------------------- disciplines

  /** One promotion pass at a time, no removal fails, and no pass is cut off between
      the push of an entry and its removal. */
  ghost predicate Orderly(s: State, a: Action) {
    match a
    case Scan(_, _, _) => forall p :: p in s.promoters ==> s.promoters[p].Resting?
    case Remove(_, ok) => ok
    case Crash(p) => p in s.promoters ==> !s.promoters[p].Pushed?
    case _ => true
  }

  /** What a run keeps to besides: nothing; the ProcessJob calls for a job do not
      overlap; or no job is promoted while a ProcessJob call for it is in progress. */
  datatype Discipline = Free | NoOverlap | NotEarly

  ghost predicate Allowed(d: Discipline, s: State, a: Action)
    requires Enabled(s, a)
  {
    && Orderly(s, a)
    && (d.NoOverlap? && a.Dequeue? ==> !Busy(s.slots, a.job.id))
    && (d.NotEarly? && a.Push? && a.ok ==> !Busy(s.slots, s.promoters[a.p].todo[0].id))
  }

  // --------------------------------------------------------------- invariant

  /** A job has one live copy, or is in one worker's hands, or both only while the
      worker that put it back has its last UpdateJob still to make. */
  ghost predicate LiveUnique(live: multiset<JobRecord>) {
    && (forall i, j :: i in live && j in live && i.id == j.id ==> i == j)
    && forall j :: j in live ==> live[j] == 1
  }

  ghost predicate SlotsUnique(slots: map<nat, Pc>) {
    forall j, k :: j in slots && k in slots && !slots[j].Idle? && Has(slots[k], slots[j].job.id) ==> j == k
  }

  ghost predicate SlotsApart(live: multiset<JobRecord>, slots: map<nat, Pc>) {
    forall k, j :: k in slots && j in live && Has(slots[k], j.id) ==> slots[k] == Trailing(j)
  }

  ghost predicate RequestsApart(live: multiset<JobRecord>, slots: map<nat, Pc>, requests: map<Id, JobRecord>) {
    && (forall j :: j in live ==> j.id !in requests)
    && (forall k, id :: k in slots && Has(slots[k], id) ==> id !in requests)
  }

  ghost predicate RequestsStored(requests: map<Id, JobRecord>, store: map<Id, JobRecord>) {
    forall id :: id in requests ==> id in store && requests[id].id == id && Agree(requests[id], store[id])
  }

  ghost predicate SlotsStored(slots: map<nat, Pc>, store: map<Id, JobRecord>) {
    forall k, id :: k in slots && Has(slots[k], id) ==> id in store
  }

  ghost predicate LiveStored(live: multiset<JobRecord>, store: map<Id, JobRecord>) {
    forall j :: j in live ==> j.id in store
  }

  ghost predicate Agreed(live: multiset<JobRecord>, slots: map<nat, Pc>, store: map<Id, JobRecord>) {
    forall j :: j in live ==> Busy(slots, j.id) || (j.id in store && Agree(j, store[j.id]))
  }

  /** One place for each job. */
  ghost predicate PlacesOk(live: multiset<JobRecord>, slots: map<nat, Pc>, requests: map<Id, JobRecord>) {
    LiveUnique(live) && SlotsUnique(slots) && SlotsApart(live, slots) && RequestsApart(live, slots, requests)
  }

  /** A record for each job. */
  ghost predicate RecordsOk(
    live: multiset<JobRecord>, slots: map<nat, Pc>, requests: map<Id, JobRecord>, store: map<Id, JobRecord>)
  {
    RequestsStored(requests, store) && SlotsStored(slots, store) && LiveStored(live, store)
  }

  ghost predicate CopiesOk(
    live: multiset<JobRecord>, slots: map<nat, Pc>, requests: map<Id, JobRecord>, store: map<Id, JobRecord>)
  {
    PlacesOk(live, slots, requests) && RecordsOk(live, slots, requests, store) && Agreed(live, slots, store)
  }

  /** Delayed copies say so, and so do dead ones. */
  ghost predicate StatusOk(s: State) {
    && (forall j :: j in s.delayed ==> j.status == Scheduled)
    && (forall j :: j in s.dead ==> j.status == Dead)
    && (forall k :: k in s.slots && s.slots[k].Settling? ==>
          s.slots[k].job.status == Scheduled || s.slots[k].job.status == Dead)
  }

  /** What a pass still has to do is in the delayed set. */
  ghost predicate PassOk(delayed: set<JobRecord>, pc: Promoter) {
    match pc
    case Resting => true
    case Looping(todo) => NoRepeats(todo) && forall j :: j in todo ==> j in delayed
    case Pushed(job, todo) =>
      NoRepeats(todo) && job in delayed && job !in todo && forall j :: j in todo ==> j in delayed
  }

  ghost predicate PassesOk(s: State) {
    && (forall p, q ::
          p in s.promoters && q in s.promoters && !s.promoters[p].Resting? && !s.promoters[q].Resting? ==> p == q)
    && forall p :: p in s.promoters ==> PassOk(s.delayed, s.promoters[p])
  }

  function Attempts(j: JobRecord): int {
    j.retry.currentAttempts
  }

  /** A slot that has the job of the pushed entry `j` in hand. */
  predicate SlotSince(j: JobRecord, pc: Pc, active: multiset<JobRecord>)
    requires !pc.Idle?
  {
    && Attempts(j) <= Attempts(pc.job)
    && (pc.Settling? ==> Attempts(j) < Attempts(pc.job))
    && (pc.Trailing? ==> Attempts(j) < Attempts(pc.job) || j in active)
  }

  /** The record shows an attempt later than the copy knows of. */
  predicate MovedOn(j: JobRecord, record: JobRecord) {
    record.status == Completed || Attempts(j) < Attempts(record)
  }

  /** What has become of the job since its delayed entry `j` was pushed. */
  ghost predicate Since(
    j: JobRecord, live: multiset<JobRecord>, active: multiset<JobRecord>, slots: map<nat, Pc>,
    requests: map<Id, JobRecord>, store: map<Id, JobRecord>)
  {
    && (forall i :: i in live && i.id == j.id ==> i == j || Attempts(j) < Attempts(i))
    && (forall k :: k in slots && Has(slots[k], j.id) ==> SlotSince(j, slots[k], active))
    && j.id !in requests && j.id in store
    && (j in active || Busy(slots, j.id) || MovedOn(j, store[j.id]))
  }

  ghost predicate SinceOk(s: State, live: multiset<JobRecord>, awaiting: set<JobRecord>) {
    forall j :: j in awaiting ==> Since(j, live, s.active, s.slots, s.requests, s.store)
  }

  ghost predicate InvFor(s: State, live: multiset<JobRecord>, awaiting: set<JobRecord>) {
    CopiesOk(live, s.slots, s.requests, s.store) && StatusOk(s) && PassesOk(s) && SinceOk(s, live, awaiting)
  }

  ghost predicate Inv(s: State) {
    InvFor(s, Live(s), Awaiting(s))
  }

  /** No worker is busy with a job that is up for taking. */
  ghost predicate ActiveFree(s: State) {
    forall k, j :: k in s.slots && j in s.active ==> !Has(s.slots[k], j.id)
  }
}
