/** Conservation over whole runs: the metrics counters agree with each other and
    with the jobs, and the queue statistics account for every job. */
module Conservation {
  import opened Domain
  import opened System
  import opened Invariant
  import opened MapSum
  import S = Safety
  import Q = MemoryQueueSpec

  predicate IsSaved(c: Cell) { c.place == Saved }
  predicate IsActive(c: Cell) { c.place == Active }
  predicate IsDelayed(c: Cell) { c.place == Delayed }
  predicate IsHeld(c: Cell) { c.place.Held? }
  predicate IsBuried(c: Cell) { c.place == Buried }
  predicate IsDone(c: Cell) { c.place == Done }

  predicate IsHolding(pc: Pc) { Holds(pc) }

  /** Completed, and the completed metric is still to come. */
  predicate IsFinishing(pc: Pc) { pc.Completing? || pc.Stored? }

  predicate IsInterred(pc: Pc) { pc.Interred? }
  predicate IsCounted(pc: Pc) { pc.Counted? }

  /** The handler has returned, and the completed or failed metric is still to come. */
  predicate IsUnsettled(pc: Pc) {
    || pc.Returned? || pc.Completing? || pc.Stored? || pc.Failing? || pc.Retrying? || pc.Burying?
    || pc.Requeued? || pc.Interred? || pc.Counted?
  }

  predicate IsToEnqueue(r: RequestPc) { r.ToEnqueue? }

  function Length(ids: seq<Id>): int { |ids| }

  ghost predicate QueueBalanced(s: State) {
    && Sum(s.queue.queues, Length) == Count(s.cells, IsActive)
    && |s.queue.delayed| == Count(s.cells, IsDelayed)
    && |s.queue.dead| == Count(s.cells, IsBuried)
    && Count(s.slots, IsHolding) == Count(s.cells, IsHeld)
    && Count(s.requests, IsToEnqueue) == Count(s.cells, IsSaved)
  }

  ghost predicate CountersBalanced(s: State) {
    && Count(s.cells, IsDone) == s.counters.completed + Count(s.slots, IsFinishing)
    && Count(s.cells, IsBuried) == s.counters.deadLettered + Count(s.slots, IsInterred)
    && s.counters.retried + s.counters.deadLettered == s.counters.failed + Count(s.slots, IsCounted)
    && s.returned == s.counters.completed + s.counters.failed + Count(s.slots, IsUnsettled)
    && s.counters.scheduled + |s.requests| == |s.cells|
  }

  ghost predicate Balanced(s: State) {
    QueueBalanced(s) && CountersBalanced(s)
  }

  // ----------------------------------------------------- changes of the sums

  lemma CellSums(m: map<Id, Cell>, id: Id, c: Cell)
    requires id in m
    ensures var m' := m[id := c];
            && Count(m', IsSaved) == Count(m, IsSaved) - Unit(IsSaved(m[id])) + Unit(IsSaved(c))
            && Count(m', IsActive) == Count(m, IsActive) - Unit(IsActive(m[id])) + Unit(IsActive(c))
            && Count(m', IsDelayed) == Count(m, IsDelayed) - Unit(IsDelayed(m[id])) + Unit(IsDelayed(c))
            && Count(m', IsHeld) == Count(m, IsHeld) - Unit(IsHeld(m[id])) + Unit(IsHeld(c))
            && Count(m', IsBuried) == Count(m, IsBuried) - Unit(IsBuried(m[id])) + Unit(IsBuried(c))
            && Count(m', IsDone) == Count(m, IsDone) - Unit(IsDone(m[id])) + Unit(IsDone(c))
            && |m'| == |m|
  {
    CountUpdate(m, IsSaved, id, c);
    CountUpdate(m, IsActive, id, c);
    CountUpdate(m, IsDelayed, id, c);
    CountUpdate(m, IsHeld, id, c);
    CountUpdate(m, IsBuried, id, c);
    CountUpdate(m, IsDone, id, c);
    assert m[id := c].Keys == m.Keys;
  }

  lemma SlotSums(m: map<Slot, Pc>, k: Slot, pc: Pc)
    requires k in m
    ensures var m' := m[k := pc];
            && Count(m', IsHolding) == Count(m, IsHolding) - Unit(IsHolding(m[k])) + Unit(IsHolding(pc))
            && Count(m', IsFinishing) == Count(m, IsFinishing) - Unit(IsFinishing(m[k])) + Unit(IsFinishing(pc))
            && Count(m', IsInterred) == Count(m, IsInterred) - Unit(IsInterred(m[k])) + Unit(IsInterred(pc))
            && Count(m', IsCounted) == Count(m, IsCounted) - Unit(IsCounted(m[k])) + Unit(IsCounted(pc))
            && Count(m', IsUnsettled) == Count(m, IsUnsettled) - Unit(IsUnsettled(m[k])) + Unit(IsUnsettled(pc))
  {
    CountUpdate(m, IsHolding, k, pc);
    CountUpdate(m, IsFinishing, k, pc);
    CountUpdate(m, IsInterred, k, pc);
    CountUpdate(m, IsCounted, k, pc);
    CountUpdate(m, IsUnsettled, k, pc);
  }

  /** The total length of the lists after one list is replaced. */
  lemma ListSum(q: Q.MemQueue, p: int, ids: seq<Id>)
    ensures Sum(q.queues[p := ids], Length) == Sum(q.queues, Length) - |Q.Listed(q, p)| + |ids|
  {
    if p in q.queues {
      Update(q.queues, Length, p, ids);
    } else {
      Insert(q.queues, Length, p, ids);
    }
  }

  lemma DelayedSize(delayed: map<Id, Time>, id: Id, t: Time)
    ensures |delayed[id := t]| == |delayed| + Unit(id !in delayed)
    ensures |delayed - {id}| == |delayed| - Unit(id in delayed)
  {
    assert delayed[id := t].Keys == delayed.Keys + {id};
    assert (delayed - {id}).Keys == delayed.Keys - {id};
  }

  // ------------------------------------------------------------------- steps

  lemma NewCellSums(m: map<Id, Cell>, id: Id, c: Cell)
    requires id !in m && c.place == Saved
    ensures var m' := m[id := c];
            && Count(m', IsSaved) == Count(m, IsSaved) + 1
            && Count(m', IsActive) == Count(m, IsActive)
            && Count(m', IsDelayed) == Count(m, IsDelayed)
            && Count(m', IsHeld) == Count(m, IsHeld)
            && Count(m', IsBuried) == Count(m, IsBuried)
            && Count(m', IsDone) == Count(m, IsDone)
            && |m'| == |m| + 1
  {
    CountInsert(m, IsSaved, id, c);
    CountInsert(m, IsActive, id, c);
    CountInsert(m, IsDelayed, id, c);
    CountInsert(m, IsHeld, id, c);
    CountInsert(m, IsBuried, id, c);
    CountInsert(m, IsDone, id, c);
    Grows(m, id, c);
  }

  lemma SubmitBalances(s: State, id: Id, job: JobRecord, t: Time)
    requires Balanced(s) && id !in s.cells && id !in s.requests
    ensures Balanced(SubmitJob(s, id, job).(now := t))
  {
    SubmitQueue(s, id, job, t);
    SubmitCounters(s, id, job, t);
  }

  lemma SubmitQueue(s: State, id: Id, job: JobRecord, t: Time)
    requires QueueBalanced(s) && id !in s.cells && id !in s.requests
    ensures QueueBalanced(SubmitJob(s, id, job).(now := t))
  {
    NewCellSums(s.cells, id, Cell(job, job.retry, [], Saved));
    CountInsert(s.requests, IsToEnqueue, id, ToEnqueue);
  }

  lemma SubmitCounters(s: State, id: Id, job: JobRecord, t: Time)
    requires CountersBalanced(s) && id !in s.cells && id !in s.requests
    ensures CountersBalanced(SubmitJob(s, id, job).(now := t))
  {
    var c := Cell(job, job.retry, [], Saved);
    CountInsert(s.cells, IsDone, id, c);
    CountInsert(s.cells, IsBuried, id, c);
    Grows(s.cells, id, c);
    Grows(s.requests, id, ToEnqueue);
  }

  /** A step of one job: the sums follow if the collections follow its place. */
  lemma CellStepBalances(s: State, id: Id, c: Cell, s': State)
    requires QueueBalanced(s) && id in s.cells && s'.cells == s.cells[id := c]
    requires var b := s.cells[id];
             && Sum(s'.queue.queues, Length) == Sum(s.queue.queues, Length) - Unit(IsActive(b)) + Unit(IsActive(c))
             && |s'.queue.delayed| == |s.queue.delayed| - Unit(IsDelayed(b)) + Unit(IsDelayed(c))
             && |s'.queue.dead| == |s.queue.dead| - Unit(IsBuried(b)) + Unit(IsBuried(c))
             && Count(s'.slots, IsHolding) == Count(s.slots, IsHolding) - Unit(IsHeld(b)) + Unit(IsHeld(c))
             && Count(s'.requests, IsToEnqueue) == Count(s.requests, IsToEnqueue) - Unit(IsSaved(b)) + Unit(IsSaved(c))
    ensures QueueBalanced(s')
  {
    CellSums(s.cells, id, c);
  }

  lemma DispatchBalances(s: State, id: Id)
    requires Balanced(s) && id in s.requests && s.requests[id].ToEnqueue? && Located(s, id, Saved)
    requires id !in s.queue.delayed
    ensures Balanced(DispatchJob(s, id))
  {
    DispatchQueue(s, id);
    assert s.requests[id := ToCount].Keys == s.requests.Keys;
    CellSums(s.cells, id, DispatchJob(s, id).cells[id]);
  }

  lemma DispatchQueue(s: State, id: Id)
    requires QueueBalanced(s) && id in s.requests && s.requests[id].ToEnqueue? && Located(s, id, Saved)
    requires id !in s.queue.delayed
    ensures QueueBalanced(DispatchJob(s, id))
  {
    var job := s.cells[id].job;
    var s' := DispatchJob(s, id);
    assert Count(s'.requests, IsToEnqueue) == Count(s.requests, IsToEnqueue) - 1 by {
      CountUpdate(s.requests, IsToEnqueue, id, ToCount);
    }
    if job.status == Scheduled {
      DelayedSize(s.queue.delayed, id, job.scheduledAt);
    } else {
      ListSum(s.queue, job.priority, Q.Listed(s.queue, job.priority) + [id]);
    }
    CellStepBalances(s, id, s'.cells[id], s');
  }

  lemma CountScheduledBalances(s: State, id: Id)
    requires Balanced(s) && id in s.requests && s.requests[id].ToCount?
    ensures Balanced(Apply(s, CountScheduled(id)))
  {
    CountedQueueBalances(s, id, Apply(s, CountScheduled(id)));
    CountedBalances(s, id, Apply(s, CountScheduled(id)));
  }

  lemma CountedQueueBalances(s: State, id: Id, s': State)
    requires QueueBalanced(s) && id in s.requests && s.requests[id].ToCount?
    requires s'.cells == s.cells && s'.slots == s.slots && s'.queue == s.queue && s'.requests == s.requests - {id}
    ensures QueueBalanced(s')
  {
    CountRemove(s.requests, IsToEnqueue, id);
  }

  lemma CountedBalances(s: State, id: Id, s': State)
    requires CountersBalanced(s) && id in s.requests
    requires s'.cells == s.cells && s'.slots == s.slots && s'.returned == s.returned
    requires s'.requests == s.requests - {id}
    requires s'.counters == s.counters.(scheduled := s.counters.scheduled + 1)
    ensures CountersBalanced(s')
  {
    Shrinks(s.requests, id);
  }

  lemma PromoteOneBalances(s: State, id: Id)
    requires Balanced(s) && id in s.queue.delayed && id in s.queue.index && Located(s, id, Delayed)
    ensures Balanced(PromoteOne(s, id))
  {
    PromoteOneQueue(s, id);
    CellSums(s.cells, id, PromoteOne(s, id).cells[id]);
  }

  lemma PromoteOneQueue(s: State, id: Id)
    requires QueueBalanced(s) && id in s.queue.delayed && id in s.queue.index && Located(s, id, Delayed)
    ensures QueueBalanced(PromoteOne(s, id))
  {
    var p := s.queue.index[id];
    ListSum(s.queue, p, Q.Listed(s.queue, p) + [id]);
    DelayedSize(s.queue.delayed, id, 0);
    CellStepBalances(s, id, PromoteOne(s, id).cells[id], PromoteOne(s, id));
  }

  lemma {:induction false} PromoteAllBalances(s: State, ids: seq<Id>)
    requires Balanced(s) && Q.NoDup(ids)
    requires forall id :: id in ids ==> id in s.queue.delayed && id in s.queue.index && Located(s, id, Delayed)
    ensures Balanced(PromoteAll(s, ids))
  {
    if ids != [] {
      assert forall id :: id in ids[..|ids| - 1] ==> id in ids;
      PromoteAllBalances(s, ids[..|ids| - 1]);
      PromoteLastBalances(s, ids);
    }
  }

  lemma PromoteLastBalances(s: State, ids: seq<Id>)
    requires ids != [] && Q.NoDup(ids) && Balanced(PromoteAll(s, ids[..|ids| - 1]))
    requires forall id :: id in ids ==> id in s.queue.delayed && id in s.queue.index && Located(s, id, Delayed)
    ensures Balanced(PromoteAll(s, ids))
  {
    PromotedRest(s, ids);
    PromoteOneBalances(PromoteAll(s, ids[..|ids| - 1]), ids[|ids| - 1]);
  }

  /** When all but the last id are promoted, the last is still where it was. */
  lemma PromotedRest(s: State, ids: seq<Id>)
    requires ids != [] && Q.NoDup(ids)
    requires forall id :: id in ids ==> id in s.queue.delayed && id in s.queue.index && Located(s, id, Delayed)
    ensures var (m, id) := (PromoteAll(s, ids[..|ids| - 1]), ids[|ids| - 1]);
            id in m.queue.delayed && id in m.queue.index && Located(m, id, Delayed)
  {
    var n := |ids| - 1;
    assert ids == ids[..n] + [ids[n]] && ids[n] !in ids[..n];
    PromoteAllEffect(s, ids[..n]);
    Q.PromoteAllEffect(s.queue, ids[..n]);
  }

  lemma TakeBalances(s: State, k: Slot, id: Id, s': State)
    requires Balanced(s) && k in s.slots && s.slots[k].Idle? && Located(s, id, Active)
    requires var p := s.cells[id].job.priority;
             && Q.Listed(s.queue, p) != []
             && s' == s.(queue := s.queue.(queues := s.queue.queues[p := Q.Listed(s.queue, p)[1..]]),
                         slots := s.slots[k := Taken(id)],
                         cells := s.cells[id := s.cells[id].(place := Held(k))])
    ensures Balanced(s')
  {
    var p := s.cells[id].job.priority;
    CellSums(s.cells, id, s'.cells[id]);
    SlotSums(s.slots, k, Taken(id));
    ListSum(s.queue, p, Q.Listed(s.queue, p)[1..]);
    CellStepBalances(s, id, s'.cells[id], s');
  }

  lemma DequeueBalances(s: State, k: Slot)
    requires ListsOk(s) && IndexOk(s) && Balanced(s) && k in s.slots && s.slots[k].Idle?
    ensures Balanced(TakeJob(s, k))
  {
    HeadTaken(s);
    var got := Q.Dequeue(s.queue, Q.RUNNER_ORDER).1;
    if got.Some? {
      TakeBalances(s, k, got.value, TakeJob(s, k));
    }
  }

  /** How a slot's operation moves its job between places. */
  ghost predicate Moves(s: State, k: Slot, id: Id, op: SlotOp, s': State)
    requires id in s.cells && k in s.slots
  {
    && id in s'.cells && s'.cells == s.cells[id := s'.cells[id]]
    && k in s'.slots && s'.slots == s.slots[k := s'.slots[k]]
    && s'.requests == s.requests && s'.queue.queues == s.queue.queues
    && var (b, c) := (s.cells[id].place, s'.cells[id].place);
       match op
       case Complete(_, _) => b.Held? && c == Done && s'.queue == s.queue
       case Release =>
         if s.slots[k].Retrying?
         then b.Held? && c == Delayed && |s'.queue.delayed| == |s.queue.delayed| + 1 && s'.queue.dead == s.queue.dead
         else b.Held? && c == Buried && s'.queue.delayed == s.queue.delayed && |s'.queue.dead| == |s.queue.dead| + 1
       case _ => b == c && s'.queue == s.queue
  }

  lemma WorkMoves(s: State, k: Slot, id: Id, op: SlotOp)
    requires CanWork(s, k, op) && !op.Dequeue? && id == s.slots[k].id
    requires id in s.cells && id in s.stored && (Holds(s.slots[k]) ==> s.cells[id].place == Held(k))
    requires Holds(s.slots[k]) ==> id !in s.queue.delayed
    ensures Moves(s, k, id, op, WorkOn(s, k, id, op))
  {
    LocalPlace(k, s.slots[k], s.cells[id], op, s.oor, |Record(s, id)|);
    DelayedSize(s.queue.delayed, id, s.cells[id].job.scheduledAt);
  }

  lemma LocalPlace(k: Slot, pc: Pc, c: Cell, op: SlotOp, oor: Int64, saved: nat)
    requires At(pc, op) && !op.Dequeue? && (Holds(pc) ==> c.place == Held(k))
    ensures var e := Local(k, pc, c, op, true, oor, saved);
            e.cell.place == match op
                            case Complete(_, _) => Done
                            case Release => if pc.Retrying? then Delayed else Buried
                            case _ => c.place
    ensures op.Complete? || op.Release? ==> Holds(pc)
  {}

  lemma WorkPcs(s: State, k: Slot, id: Id, op: SlotOp)
    requires CanWork(s, k, op) && !op.Dequeue? && id == s.slots[k].id && id in s.cells && id in s.stored
    ensures var s' := WorkOn(s, k, id, op);
            k in s'.slots && (Holds(s'.slots[k]) <==> Holds(s.slots[k]) && !op.Complete? && !op.Release?)
    ensures op.Complete? || op.Release? ==> Holds(s.slots[k])
  {}

  lemma WorkOnQueue(s: State, k: Slot, id: Id, op: SlotOp)
    requires QueueBalanced(s) && CanWork(s, k, op) && !op.Dequeue? && id == s.slots[k].id
    requires id in s.cells && id in s.stored && (Holds(s.slots[k]) ==> s.cells[id].place == Held(k))
    requires Holds(s.slots[k]) ==> id !in s.queue.delayed
    ensures QueueBalanced(WorkOn(s, k, id, op))
  {
    var s' := WorkOn(s, k, id, op);
    WorkMoves(s, k, id, op);
    WorkPcs(s, k, id, op);
    QueueMoves(s, k, id, op, s');
  }

  lemma QueueMoves(s: State, k: Slot, id: Id, op: SlotOp, s': State)
    requires QueueBalanced(s) && id in s.cells && k in s.slots && Moves(s, k, id, op, s')
    requires Holds(s'.slots[k]) <==> Holds(s.slots[k]) && !op.Complete? && !op.Release?
    requires op.Complete? || op.Release? ==> Holds(s.slots[k])
    ensures QueueBalanced(s')
  {
    SlotSums(s.slots, k, s'.slots[k]);
    CellStepBalances(s, id, s'.cells[id], s');
  }

  /** What a slot's operation does to the counters. */
  ghost predicate Counts(s: State, pc: Pc, op: SlotOp, s': State) {
    var (c, d) := (s.counters, s'.counters);
    && d.scheduled == c.scheduled
    && d.completed - c.completed == Unit(op.CountCompletion?)
    && d.failed - c.failed == Unit(op.CountFailure?)
    && d.retried + d.deadLettered - c.retried - c.deadLettered == Unit(op.CountOutcome?)
    && d.deadLettered - c.deadLettered == Unit(op.CountOutcome? && pc.Interred?)
    && s'.returned - s.returned == Unit(op.Return?)
  }

  /** What it does to the slot's backlog of metrics calls, from `a` to `b`. */
  predicate Backlog(a: Pc, op: SlotOp, b: Pc) {
    && Unit(IsFinishing(b)) - Unit(IsFinishing(a)) == Unit(op.Complete?) - Unit(op.CountCompletion?)
    && Unit(IsInterred(b)) - Unit(IsInterred(a)) ==
       Unit(op.Release? && a.Burying?) - Unit(op.CountOutcome? && a.Interred?)
    && Unit(IsCounted(b)) - Unit(IsCounted(a)) == Unit(op.CountOutcome?) - Unit(op.CountFailure?)
    && Unit(IsUnsettled(b)) - Unit(IsUnsettled(a)) ==
       Unit(op.Return?) - Unit(op.CountCompletion?) - Unit(op.CountFailure?)
  }

  lemma HeldBacklog(k: Slot, pc: Pc, c: Cell, op: SlotOp, oor: Int64, saved: nat)
    requires At(pc, op) && !op.Dequeue? && Holds(pc)
    ensures Backlog(pc, op, Local(k, pc, c, op, true, oor, saved).pc)
  {}

  lemma LocalBacklog(k: Slot, pc: Pc, c: Cell, op: SlotOp, oor: Int64, saved: nat)
    requires At(pc, op) && !op.Dequeue?
    ensures Backlog(pc, op, Local(k, pc, c, op, true, oor, saved).pc)
  {
    if Holds(pc) {
      HeldBacklog(k, pc, c, op, oor, saved);
    }
  }

  lemma CounterMoves(s: State, k: Slot, id: Id, op: SlotOp, s': State)
    requires CountersBalanced(s) && id in s.cells && k in s.slots && Moves(s, k, id, op, s')
    requires Counts(s, s.slots[k], op, s') && Backlog(s.slots[k], op, s'.slots[k])
    requires op.Release? ==> s.slots[k].Retrying? || s.slots[k].Burying?
    ensures CountersBalanced(s')
  {
    CellSums(s.cells, id, s'.cells[id]);
    SlotSums(s.slots, k, s'.slots[k]);
  }

  lemma WorkOnCounters(s: State, k: Slot, id: Id, op: SlotOp)
    requires CountersBalanced(s) && CanWork(s, k, op) && !op.Dequeue? && id == s.slots[k].id
    requires id in s.cells && id in s.stored && (Holds(s.slots[k]) ==> s.cells[id].place == Held(k))
    requires Holds(s.slots[k]) ==> id !in s.queue.delayed
    ensures CountersBalanced(WorkOn(s, k, id, op))
  {
    WorkMoves(s, k, id, op);
    LocalBacklog(k, s.slots[k], s.cells[id], op, s.oor, |Record(s, id)|);
    CounterMoves(s, k, id, op, WorkOn(s, k, id, op));
  }

  lemma StepBalances(s: State, a: Action)
    requires Inv(s) && Balanced(s) && Enabled(s, a)
    ensures Balanced(Apply(s, a))
  {
    match a
    case Tick(t) =>
    case Submit(id, req, c, u, d, k) => SubmitBalances(s, id, NewJob(id, req, c, u, d, k), k);
    case Dispatch(id) => DispatchBalances(s, id);
    case CountScheduled(id) => CountScheduledBalances(s, id);
    case Promote(t, iteration) =>
      TickKeeps(s, t);
      Q.DueIsExact(s.queue, t, iteration);
      PromoteAllBalances(s.(now := t), Q.Due(s.queue, t, iteration));
    case Work(k, op) =>
      if op.Dequeue? {
        DequeueBalances(s, k);
      } else {
        WorkOnQueue(s, k, s.slots[k].id, op);
        WorkOnCounters(s, k, s.slots[k].id, op);
      }
  }

  lemma InitBalanced(s: State, runners: seq<nat>)
    requires Init(s, runners)
    ensures Balanced(s)
  {
    CountNone(s.slots, IsHolding);
    CountNone(s.slots, IsFinishing);
    CountNone(s.slots, IsInterred);
    CountNone(s.slots, IsCounted);
    CountNone(s.slots, IsUnsettled);
    CountNone(s.requests, IsToEnqueue);
    CountNone(s.cells, IsSaved);
    CountNone(s.cells, IsActive);
    CountNone(s.cells, IsDelayed);
    CountNone(s.cells, IsHeld);
    CountNone(s.cells, IsBuried);
    CountNone(s.cells, IsDone);
  }

  lemma RunStep(trace: seq<State>, acts: seq<Action>, i: nat)
    requires IsRun(trace, acts) && 0 < i < |trace|
    ensures Enabled(trace[i - 1], acts[i - 1]) && trace[i] == Apply(trace[i - 1], acts[i - 1])
  {}

  lemma NextBalanced(trace: seq<State>, acts: seq<Action>, i: nat)
    requires IsRun(trace, acts) && 0 < i < |trace| && Inv(trace[i - 1]) && Balanced(trace[i - 1])
    ensures Balanced(trace[i])
  {
    RunStep(trace, acts, i);
    StepBalances(trace[i - 1], acts[i - 1]);
  }

  lemma ReachedBalanced(trace: seq<State>, acts: seq<Action>, i: nat)
    requires IsRun(trace, acts) && Inv(trace[0]) && 0 < i < |trace| && Balanced(trace[i - 1])
    ensures Balanced(trace[i])
  {
    RunKeeps(trace, acts, i - 1);
    NextBalanced(trace, acts, i);
  }

  lemma {:induction false} RunBalanced(trace: seq<State>, acts: seq<Action>, i: nat)
    requires IsRun(trace, acts) && Inv(trace[0]) && Balanced(trace[0]) && i < |trace|
    ensures Balanced(trace[i])
  {
    if i > 0 {
      RunBalanced(trace, acts, i - 1);
      ReachedBalanced(trace, acts, i);
    }
  }

  predicate IsStarted(c: Cell) { c.place != Saved }
  predicate IsQueued(c: Cell) { c.place == Active || c.place == Delayed }
  predicate IsFinal(c: Cell) { c.place == Buried || c.place == Done }
  predicate IsUnfinished(c: Cell) { c.place == Active || c.place == Delayed || c.place.Held? }

  /** Every job is in one of the six places. */
  lemma PlacesAddUp(s: State)
    requires CellsOk(s)
    ensures |s.cells| == Count(s.cells, IsSaved) + Count(s.cells, IsActive) + Count(s.cells, IsDelayed)
                         + Count(s.cells, IsHeld) + Count(s.cells, IsBuried) + Count(s.cells, IsDone)
  {
    assert forall id :: id in s.cells ==> PlaceOk(s.cells[id], s.now, s.oor);
    CountSplits(s.cells, IsQueued, IsActive, IsDelayed);
    CountSplits(s.cells, IsUnfinished, IsQueued, IsHeld);
    CountSplits(s.cells, IsFinal, IsBuried, IsDone);
    CountSplits(s.cells, IsStarted, IsUnfinished, IsFinal);
    CountSplits(s.cells, (c: Cell) => true, IsSaved, IsStarted);
    CountAll(s.cells, (c: Cell) => true);
  }

  /** No call is in progress: no slot in ProcessJob and no schedule request. */
  ghost predicate Quiescent(s: State) {
    s.requests == map[] && forall k :: k in s.slots ==> s.slots[k].Idle?
  }

  function Itself(n: nat): int { n }

  /** The total over all priorities of the statistics' active counts. */
  ghost function TotalActive(stats: Q.Stats): int {
    Sum(stats.active, Itself)
  }

  ghost function Lengths(queues: map<int, seq<Id>>): map<int, nat> {
    map p | p in queues :: |queues[p]|
  }

  lemma {:induction false} LengthsSum(queues: map<int, seq<Id>>)
    ensures Sum(Lengths(queues), Itself) == Sum(queues, Length)
    decreases |queues|
  {
    assert Lengths(queues).Keys == queues.Keys;
    if |queues| != 0 {
      var p := Pick(queues);
      Shrinks(queues, p);
      Remove(queues, Length, p);
      Remove(Lengths(queues), Itself, p);
      LengthsSum(queues - {p});
      assert Lengths(queues) - {p} == Lengths(queues - {p});
    }
  }

  lemma ActiveTotal(q: Q.MemQueue)
    ensures TotalActive(Q.QueueStats(q)) == Sum(q.queues, Length)
  {
    LengthsSum(q.queues);
    assert Q.QueueStats(q).active == Lengths(q.queues);
  }

  lemma ReachableBalanced(trace: seq<State>, acts: seq<Action>, runners: seq<nat>, i: nat)
    requires IsSystemRun(trace, acts, runners) && i < |trace|
    ensures Inv(trace[i]) && Balanced(trace[i])
  {
    Always(trace, acts, runners, i);
    InitInv(trace[0], runners);
    InitBalanced(trace[0], runners);
    RunBalanced(trace, acts, i);
  }

  predicate IsCompleted(c: Cell) { c.job.status == Completed }

  lemma CompletedAreDone(s: State)
    requires Inv(s)
    ensures Count(s.cells, IsCompleted) == Count(s.cells, IsDone)
  {
    forall id | id in s.cells
      ensures s.cells[id].job.status == Completed <==> s.cells[id].place == Done
    {
      HeldPhase(s, id);
    }
    CountSame(s.cells, IsCompleted, IsDone);
  }

  lemma PlacesCounted(s: State)
    requires CellsOk(s) && QueueBalanced(s) && Count(s.cells, IsCompleted) == Count(s.cells, IsDone)
    ensures TotalActive(Q.QueueStats(s.queue)) + |s.queue.delayed| + |s.queue.dead|
            + Count(s.slots, IsHolding) + Count(s.cells, IsCompleted)
            == |s.cells| - Count(s.requests, IsToEnqueue)
  {
    PlacesAddUp(s);
    ActiveTotal(s.queue);
  }

  /** The queue statistics, the jobs in workers' hands and the completed jobs
      account for every job enqueued, in every reachable state. */
  lemma StatisticsAccount(trace: seq<State>, acts: seq<Action>, runners: seq<nat>, i: nat)
    requires IsSystemRun(trace, acts, runners) && i < |trace|
    ensures var s := trace[i];
            var stats := Q.QueueStats(s.queue);
            TotalActive(stats) + stats.delayed + stats.dead
            + Count(s.slots, IsHolding) + Count(s.cells, IsCompleted)
            == |s.cells| - Count(s.requests, IsToEnqueue)
  {
    ReachableBalanced(trace, acts, runners, i);
    CompletedAreDone(trace[i]);
    PlacesCounted(trace[i]);
  }

  // ---------------------------------------- what each of the statistics counts

  /** Waiting outside the workers' hands, with its schedule request past the queue call. */
  ghost predicate AtRest(s: State, id: Id) {
    S.HoldersOf(s, id) == {} && !(id in s.requests && s.requests[id].ToEnqueue?)
  }

  /** The jobs with a status that are at rest. */
  ghost function RestingWith(s: State, status: Status): set<Id> {
    set id | id in s.cells && s.cells[id].job.status == status && AtRest(s, id)
  }

  ghost function PendingWith(s: State, p: int): set<Id> {
    set id | id in s.cells && s.cells[id].job.status == Pending && s.cells[id].job.priority == p && AtRest(s, id)
  }

  lemma {:induction false} SizeOf(ids: seq<Id>, members: set<Id>)
    requires Q.NoDup(ids) && forall id :: id in ids <==> id in members
    ensures |ids| == |members|
  {
    if ids != [] {
      var n := |ids| - 1;
      assert ids == ids[..n] + [ids[n]];
      SizeOf(ids[..n], members - {ids[n]});
    } else {
      assert forall id :: id in members ==> id in ids;
    }
  }

  /** Where the jobs at rest are, by status. */
  lemma RestingPlace(s: State, id: Id)
    requires CellsOk(s) && SlotsOk(s) && RequestsOk(s) && id in s.cells
    ensures var (c, status) := (s.cells[id], s.cells[id].job.status);
            && (c.place == Buried <==> status == Dead && AtRest(s, id))
            && (c.place == Delayed <==> status == Scheduled && AtRest(s, id))
            && (c.place == Active <==> status == Pending && AtRest(s, id))
  {
    S.HoldersCount(s, id);
    assert CellOk(id, s.cells[id], s.now, s.oor);
  }

  lemma StatsAtRest(s: State)
    requires Inv(s)
    ensures |s.queue.delayed| == |RestingWith(s, Scheduled)| && |s.queue.dead| == |RestingWith(s, Dead)|
  {
    forall id
      ensures id in s.queue.delayed <==> id in RestingWith(s, Scheduled)
      ensures id in s.queue.dead <==> id in RestingWith(s, Dead)
    {
      if id in s.cells {
        RestingPlace(s, id);
      }
    }
    assert s.queue.delayed.Keys == RestingWith(s, Scheduled);
    SizeOf(s.queue.dead, RestingWith(s, Dead));
  }

  lemma ListAtRest(s: State, p: int)
    requires Inv(s)
    ensures |Q.Listed(s.queue, p)| == |PendingWith(s, p)|
  {
    forall id
      ensures id in Q.Listed(s.queue, p) <==> id in PendingWith(s, p)
    {
      if id in s.cells {
        RestingPlace(s, id);
      }
    }
    SizeOf(Q.Listed(s.queue, p), PendingWith(s, p));
  }

  /** In every reachable state, each of the statistics is the number of enqueued jobs in
      no worker's hands that have its status: dead, scheduled, or pending under the
      priority. */
  lemma StatisticsMeaning(trace: seq<State>, acts: seq<Action>, runners: seq<nat>, i: nat)
    requires IsSystemRun(trace, acts, runners) && i < |trace|
    ensures var (s, stats) := (trace[i], Q.QueueStats(trace[i].queue));
            && stats.dead == |RestingWith(s, Dead)| && stats.delayed == |RestingWith(s, Scheduled)|
            && forall p :: (if p in stats.active then stats.active[p] else 0) == |PendingWith(s, p)|
  {
    Always(trace, acts, runners, i);
    StatsAtRest(trace[i]);
    forall p
      ensures |Q.Listed(trace[i].queue, p)| == |PendingWith(trace[i], p)|
    {
      ListAtRest(trace[i], p);
    }
  }

  lemma NothingInProgress(s: State)
    requires Quiescent(s)
    ensures Count(s.slots, IsHolding) == Count(s.slots, IsFinishing) == Count(s.slots, IsInterred) == 0
    ensures Count(s.slots, IsCounted) == Count(s.slots, IsUnsettled) == Count(s.requests, IsToEnqueue) == 0
  {
    CountNone(s.slots, IsHolding);
    CountNone(s.slots, IsFinishing);
    CountNone(s.slots, IsInterred);
    CountNone(s.slots, IsCounted);
    CountNone(s.slots, IsUnsettled);
    CountNone(s.requests, IsToEnqueue);
  }

  /** Whenever no call is in progress: failures are retried or dead-lettered,
      handler returns are completed or failed, and every scheduled job is completed,
      dead-lettered, active or delayed. */
  lemma CountersConserved(trace: seq<State>, acts: seq<Action>, runners: seq<nat>, i: nat)
    requires IsSystemRun(trace, acts, runners) && i < |trace| && Quiescent(trace[i])
    ensures var s := trace[i];
            var c := s.counters;
            && c.failed == c.retried + c.deadLettered
            && s.returned == c.completed + c.failed
            && c.scheduled == |s.cells|
            && c.scheduled == c.completed + c.deadLettered + TotalActive(Q.QueueStats(s.queue)) + |s.queue.delayed|
  {
    ReachableBalanced(trace, acts, runners, i);
    QuiescentCounters(trace[i]);
  }

  lemma QuiescentCounters(s: State)
    requires CellsOk(s) && Balanced(s) && Quiescent(s)
    ensures var c := s.counters;
            && c.failed == c.retried + c.deadLettered
            && s.returned == c.completed + c.failed
            && c.scheduled == |s.cells|
            && c.scheduled == c.completed + c.deadLettered + TotalActive(Q.QueueStats(s.queue)) + |s.queue.delayed|
  {
    PlacesAddUp(s);
    ActiveTotal(s.queue);
    NothingInProgress(s);
  }
}
