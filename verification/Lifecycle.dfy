/** One job followed through a whole run: what never changes, how many attempts it
    gets, when they start, and which states it cannot leave. */
module Lifecycle {
  import opened Domain
  import opened System
  import opened Invariant
  import opened BackoffTheorems
  import S = Safety
  import Q = MemoryQueueSpec

  predicate SameJob(c: Cell, d: Cell) {
    && d.origin == c.origin && d.job.id == c.job.id && d.job.jobType == c.job.jobType
    && d.job.priority == c.job.priority && d.job.payload == c.job.payload && d.job.createdAt == c.job.createdAt
  }

  predicate Final(c: Cell) {
    c.place == Buried || c.place == Done
  }

  /** In an active list that no worker ever asks for. */
  predicate Parked(c: Cell) {
    c.place == Active && !Named(c.job.priority)
  }

  lemma LocalCell(k: Slot, pc: Pc, c: Cell, op: SlotOp, oor: Int64, saved: nat)
    requires At(pc, op) && !op.Dequeue?
    ensures SameJob(c, Local(k, pc, c, op, true, oor, saved).cell)
  {}

  lemma WorkCell(s: State, k: Slot, id: Id, op: SlotOp)
    requires CellsOk(s) && SlotsOk(s) && s.stored == s.cells.Keys
    requires CanWork(s, k, op) && !op.Dequeue? && id == s.slots[k].id
    ensures var s' := WorkOn(s, k, id, op);
            && s'.cells == s.cells[id := s'.cells[id]] && SameJob(s.cells[id], s'.cells[id])
            && (!Holds(s.slots[k]) ==> Alike(s.cells[id], s'.cells[id]))
  {
    WorkReady(s, k, id, op);
    WorkHandled(k, s.slots[k], s.cells[id], op, s.now, s.oor, |Record(s, id)|);
    LocalCell(k, s.slots[k], s.cells[id], op, s.oor, |Record(s, id)|);
  }

  lemma TakeCell(s: State, k: Slot, id: Id)
    requires Inv(s) && k in s.slots && s.slots[k].Idle? && id in s.cells
    ensures id in TakeJob(s, k).cells && SameJob(s.cells[id], TakeJob(s, k).cells[id])
    ensures Final(s.cells[id]) || Parked(s.cells[id]) ==> TakeJob(s, k).cells[id] == s.cells[id]
  {
    IndexedQueue(s);
    Q.RunnerTakesHighest(s.queue);
    var (q, got) := Q.Dequeue(s.queue, Q.RUNNER_ORDER);
    assert got.Some? ==> got.value in Q.Listed(s.queue, s.queue.index[got.value]);
  }

  lemma WorkOtherCell(s: State, k: Slot, op: SlotOp, id: Id)
    requires CellsOk(s) && SlotsOk(s) && s.stored == s.cells.Keys && CanWork(s, k, op) && !op.Dequeue? && id in s.cells
    ensures var s' := WorkOn(s, k, s.slots[k].id, op);
            && id in s'.cells && SameJob(s.cells[id], s'.cells[id])
            && (Final(s.cells[id]) || Parked(s.cells[id]) ==> Alike(s.cells[id], s'.cells[id]))
  {
    WorkCell(s, k, s.slots[k].id, op);
    if s.slots[k].id == id && Holds(s.slots[k]) {
      assert s.cells[id].place == Held(k);
    }
  }

  lemma RequestCell(s: State, a: Action, id: Id)
    requires RequestsOk(s) && Enabled(s, a) && !a.Promote? && !a.Work? && id in s.cells
    ensures id in Apply(s, a).cells && SameJob(s.cells[id], Apply(s, a).cells[id])
    ensures Final(s.cells[id]) || Parked(s.cells[id]) ==> Alike(s.cells[id], Apply(s, a).cells[id])
  {}

  /** What any action does to a job that is there already. */
  lemma StepCell(s: State, a: Action, id: Id)
    requires Inv(s) && Enabled(s, a) && id in s.cells
    ensures id in Apply(s, a).cells && SameJob(s.cells[id], Apply(s, a).cells[id])
    ensures Final(s.cells[id]) || Parked(s.cells[id]) ==> Alike(s.cells[id], Apply(s, a).cells[id])
  {
    if a.Promote? {
      S.PromoteStep(s, a.t, a.iteration);
    } else if !a.Work? {
      RequestCell(s, a, id);
    } else if a.op.Dequeue? {
      TakeCell(s, a.k, id);
    } else {
      WorkOtherCell(s, a.k, a.op, id);
    }
  }

  lemma NextCell(trace: seq<State>, acts: seq<Action>, j: nat, id: Id)
    requires IsRun(trace, acts) && Inv(trace[0]) && 0 < j < |trace| && id in trace[j - 1].cells
    ensures id in trace[j].cells && SameJob(trace[j - 1].cells[id], trace[j].cells[id])
    ensures var (c, d) := (trace[j - 1].cells[id], trace[j].cells[id]); Final(c) || Parked(c) ==> Alike(c, d)
  {
    RunKeeps(trace, acts, j - 1);
    StepCell(trace[j - 1], acts[j - 1], id);
  }

  /** Identity, type, priority, creation time and submitted policy never change;
      completed and dead jobs stay so, with no further attempt; and a job listed
      under a priority that has no name is never taken. */
  lemma {:induction false} RunCell(trace: seq<State>, acts: seq<Action>, i: nat, j: nat, id: Id)
    requires IsRun(trace, acts) && Inv(trace[0]) && i <= j < |trace| && id in trace[i].cells
    ensures id in trace[j].cells && SameJob(trace[i].cells[id], trace[j].cells[id])
    ensures Final(trace[i].cells[id]) || Parked(trace[i].cells[id]) ==> Alike(trace[i].cells[id], trace[j].cells[id])
    decreases j
  {
    if i < j {
      RunCell(trace, acts, i, j - 1, id);
      NextCell(trace, acts, j, id);
    }
  }

  /** Completed is final, and so is dead once in the dead letters. */
  lemma FinalStays(trace: seq<State>, acts: seq<Action>, runners: seq<nat>, i: nat, j: nat, id: Id)
    requires IsSystemRun(trace, acts, runners) && i <= j < |trace| && id in trace[i].cells
    requires trace[i].cells[id].job.status == Completed || id in trace[i].queue.dead
    ensures id in trace[j].cells
    ensures trace[j].cells[id].job == trace[i].cells[id].job.(updatedAt := trace[j].cells[id].job.updatedAt)
    ensures |trace[j].cells[id].ledger| == |trace[i].cells[id].ledger|
    ensures id in trace[j].queue.dead <==> id in trace[i].queue.dead
  {
    Always(trace, acts, runners, i);
    Always(trace, acts, runners, j);
    InitInv(trace[0], runners);
    HeldPhase(trace[i], id);
    RunCell(trace, acts, i, j, id);
  }

  /** An unnamed priority parks a job for good: once active, always active. */
  lemma UnnamedPriorityParks(trace: seq<State>, acts: seq<Action>, runners: seq<nat>, i: nat, j: nat, id: Id, p: int)
    requires IsSystemRun(trace, acts, runners) && i <= j < |trace|
    requires !Named(p) && id in Q.Listed(trace[i].queue, p)
    ensures id in Q.Listed(trace[j].queue, p) && id in trace[j].cells && trace[j].cells[id].job.status == Pending
  {
    Always(trace, acts, runners, i);
    Always(trace, acts, runners, j);
    InitInv(trace[0], runners);
    RunCell(trace, acts, i, j, id);
  }

  // -------------------------------------------------- from the request on

  /** The job that the request of action `b` creates. */
  function Created(a: Action): JobRecord
    requires a.Submit?
  {
    NewJob(a.id, a.req, a.created, a.updated, a.scheduled, a.checked)
  }

  /** A job's submitted policy and creation time, at any later point of the run. */
  lemma Provenance(trace: seq<State>, acts: seq<Action>, runners: seq<nat>, b: nat, j: nat)
    requires IsSystemRun(trace, acts, runners) && b < j < |trace| && acts[b].Submit?
    ensures var job := Created(acts[b]);
            && job.id in trace[j].cells
            && trace[j].cells[job.id].origin == job.retry
            && trace[j].cells[job.id].job.createdAt == acts[b].created
            && trace[j].cells[job.id].job.priority == job.priority
            && trace[j].cells[job.id].job.jobType == job.jobType
    ensures var (req, c) := (acts[b].req, trace[j].cells[acts[b].id]);
            && c.job.jobType == req.jobType && c.job.payload == req.payload
            && c.job.priority == (if req.priority == 0 then 2 else req.priority)
            && (req.policy.Some? ==> c.origin == req.policy.value)
            && (req.policy.None? ==>
                  && c.origin.maxAttempts == 3 && c.origin.currentAttempts == 0 && c.origin.strategy == Exponential
                  && c.origin.baseDelay == 30 * 1_000_000_000 && c.origin.maxDelay == 30 * 60 * 1_000_000_000)
  {
    InitInv(trace[0], runners);
    assert trace[b + 1] == Apply(trace[b], acts[b]);
    RunCell(trace, acts, b + 1, j, acts[b].id);
  }

  /** A job's handler is attempted at most max(1, MaxAttempts - c0) times, and it is
      in the dead letters exactly when that many attempts have been made, all have
      failed and its worker has let it go. */
  lemma AttemptsBounded(trace: seq<State>, acts: seq<Action>, runners: seq<nat>, b: nat, j: nat)
    requires IsSystemRun(trace, acts, runners) && b < j < |trace| && acts[b].Submit?
    ensures var policy := Created(acts[b]).retry;
            var id := acts[b].id;
            var s := trace[j];
            && id in s.cells
            && var failures := s.cells[id].job.retry.currentAttempts - policy.currentAttempts;
            && 0 <= failures <= |s.cells[id].ledger| <= failures + 1
            && |s.cells[id].ledger| <= Max(1, policy.maxAttempts - policy.currentAttempts)
            && (id in s.queue.dead <==>
                  failures == Max(1, policy.maxAttempts - policy.currentAttempts) && S.HoldersOf(s, id) == {})
  {
    Provenance(trace, acts, runners, b, j);
    Always(trace, acts, runners, j);
    var s := trace[j];
    S.HoldersCount(s, acts[b].id);
    HeldPhase(s, acts[b].id);
  }

  // ----------------------------------------------------------- retry spacing

  /** Whenever a worker marks a job as processing after `m` failures, the time is no
      earlier than its creation plus the delays that follow attempts c0+1 .. c0+m. */
  lemma RetrySpacing(trace: seq<State>, acts: seq<Action>, runners: seq<nat>, b: nat, j: nat)
    requires IsSystemRun(trace, acts, runners) && b < j < |acts| && acts[b].Submit?
    requires acts[j].Work? && acts[j].op.Mark? && trace[j].slots[acts[j].k].id == acts[b].id
    ensures var policy := Created(acts[b]).retry;
            && acts[b].id in trace[j].cells
            && var m := trace[j].cells[acts[b].id].job.retry.currentAttempts - policy.currentAttempts;
            acts[j].op.updated >= acts[b].created + DelaySum(policy, m, trace[j].oor)
  {
    Provenance(trace, acts, runners, b, j);
    ReachableJobs(trace, acts, runners, j);
    assert Enabled(trace[j], acts[j]);
    MarkedAfter(trace[j], acts[j].k, acts[j].op, acts[b].id);
  }

  lemma MarkedAfter(s: State, k: Slot, op: SlotOp, id: Id)
    requires CellsOk(s) && SlotsOk(s) && CanWork(s, k, op) && op.Mark? && s.slots[k].id == id
    ensures id in s.cells && op.updated >= ReadyAt(s.cells[id], Failures(s.cells[id]), s.oor)
  {
    WorkReady(s, k, id, op);
  }

  /** For exponential backoff that neither overflows nor meets its cap, that is at
      least BaseDelay * (2^(m+1) - 2) after the creation. */
  lemma ExponentialSpacing(trace: seq<State>, acts: seq<Action>, runners: seq<nat>, b: nat, j: nat, m: nat)
    requires IsSystemRun(trace, acts, runners) && b < j < |acts| && acts[b].Submit?
    requires acts[j].Work? && acts[j].op.Mark? && trace[j].slots[acts[j].k].id == acts[b].id
    requires acts[b].id in trace[j].cells && trace[j].cells[acts[b].id].job.retry.currentAttempts == m
    requires var policy := Created(acts[b]).retry;
             && policy.strategy == Exponential && policy.baseDelay >= 0 && policy.currentAttempts == 0
             && Pow2(m) * policy.baseDelay < TWO_63 && Pow2(m) * policy.baseDelay <= policy.maxDelay
    ensures acts[j].op.updated >= acts[b].created + Created(acts[b]).retry.baseDelay * (Pow2(m + 1) - 2)
  {
    RetrySpacing(trace, acts, runners, b, j);
    ExponentialSum(Created(acts[b]).retry, m, trace[j].oor);
  }

  /** MarkFailed is the only way to a failed job in hand; it counts the attempt and notes
      the time read last. */
  lemma LocalFailing(k: Slot, pc: Pc, c: Cell, op: SlotOp, oor: Int64, saved: nat)
    requires At(pc, op) && !op.Dequeue? && Local(k, pc, c, op, true, oor, saved).pc.Failing?
    ensures op.MarkFailed?
    ensures var retry := Local(k, pc, c, op, true, oor, saved).cell.job.retry;
            retry == c.job.retry.(currentAttempts := c.job.retry.currentAttempts + 1,
                                  lastAttemptAt := Some(op.attempted))
  {}

  lemma IntoFailing(s: State, k: Slot, op: SlotOp)
    requires CanWork(s, k, op) && !op.Dequeue? && s.slots[k].id in s.cells && s.slots[k].id in s.stored
    requires var s' := WorkOn(s, k, s.slots[k].id, op); k in s'.slots && s'.slots[k].Failing?
    ensures var (id, s') := (s.slots[k].id, WorkOn(s, k, s.slots[k].id, op));
            && op.MarkFailed? && s'.slots[k].id == id
            && id in s'.cells
            && s'.cells[id].job.retry ==
               s.cells[id].job.retry.(currentAttempts := s.cells[id].job.retry.currentAttempts + 1,
                                      lastAttemptAt := Some(op.attempted))
  {
    LocalFailing(k, s.slots[k], s.cells[s.slots[k].id], op, s.oor, |Record(s, s.slots[k].id)|);
  }

  /** The other slots leave the policy of a job in hand alone. */
  lemma WorkLeaves(s: State, k: Slot, op: SlotOp, id: Id)
    requires CellsOk(s) && SlotsOk(s) && s.stored == s.cells.Keys && CanWork(s, k, op) && !op.Dequeue?
    requires id in s.cells && s.cells[id].place.Held? && s.cells[id].place != Held(k)
    ensures var s' := WorkOn(s, k, s.slots[k].id, op);
            id in s'.cells && s'.cells[id].job.retry == s.cells[id].job.retry
  {
    WorkCell(s, k, s.slots[k].id, op);
  }

  lemma RestLeaves(s: State, a: Action, id: Id)
    requires Enabled(s, a) && !a.Promote? && (a.Work? ==> a.op.Dequeue?) && id in s.cells
    ensures id in Apply(s, a).cells && Apply(s, a).cells[id].job.retry == s.cells[id].job.retry
  {}

  /** So do all other actions. */
  lemma RetryKept(s: State, a: Action, id: Id, k: Slot)
    requires Inv(s) && Enabled(s, a) && id in s.cells && s.cells[id].place == Held(k) && (a.Work? ==> a.k != k)
    ensures id in Apply(s, a).cells && Apply(s, a).cells[id].job.retry == s.cells[id].job.retry
  {
    if a.Promote? {
      S.PromoteStep(s, a.t, a.iteration);
    } else if a.Work? && !a.op.Dequeue? {
      WorkLeaves(s, a.k, a.op, id);
    } else {
      RestLeaves(s, a, id);
    }
  }

  /** A slot with a failed job in hand: when it last marked the job as failed. */
  lemma {:induction false} LastFailure(trace: seq<State>, acts: seq<Action>, runners: seq<nat>, j: nat, k: Slot)
    returns (i: nat)
    requires IsSystemRun(trace, acts, runners) && j < |trace| && k in trace[j].slots && trace[j].slots[k].Failing?
    ensures i < j && acts[i].Work? && acts[i].k == k && acts[i].op.MarkFailed?
    ensures forall m :: i < m < j && acts[m].Work? ==> acts[m].k != k
    ensures var id := trace[j].slots[k].id;
            && k in trace[i].slots && trace[i].slots[k].Returned? && trace[i].slots[k].id == id
            && id in trace[i].cells && id in trace[j].cells
            && trace[j].cells[id].job.retry ==
               trace[i].cells[id].job.retry.(currentAttempts := trace[i].cells[id].job.retry.currentAttempts + 1,
                                             lastAttemptAt := Some(acts[i].op.attempted))
    decreases j
  {
    i := j - 1;
    var s, a := trace[i], acts[i];
    assert Enabled(s, a) && trace[j] == Apply(s, a);
    if a.Work? && a.k == k {
      MarkedFailed(trace, acts, runners, i);
    } else {
      FailingBefore(trace, acts, runners, i, k);
      i := LastFailure(trace, acts, runners, i, k);
    }
  }

  lemma MarkedFailed(trace: seq<State>, acts: seq<Action>, runners: seq<nat>, i: nat)
    requires IsSystemRun(trace, acts, runners) && i < |acts| && acts[i].Work?
    requires acts[i].k in trace[i + 1].slots && trace[i + 1].slots[acts[i].k].Failing?
    ensures var (k, op, s, s') := (acts[i].k, acts[i].op, trace[i], trace[i + 1]);
            && op.MarkFailed? && k in s.slots && s.slots[k].Returned? && s'.slots[k].id == s.slots[k].id
            && var id := s.slots[k].id;
               && id in s.cells && id in s'.cells
               && s'.cells[id].job.retry ==
                  s.cells[id].job.retry.(currentAttempts := s.cells[id].job.retry.currentAttempts + 1,
                                         lastAttemptAt := Some(op.attempted))
  {
    Always(trace, acts, runners, i);
    assert Enabled(trace[i], acts[i]) && trace[i + 1] == Apply(trace[i], acts[i]);
    if !acts[i].op.Dequeue? {
      IntoFailing(trace[i], acts[i].k, acts[i].op);
    }
  }

  lemma FailingBefore(trace: seq<State>, acts: seq<Action>, runners: seq<nat>, i: nat, k: Slot)
    requires IsSystemRun(trace, acts, runners) && i < |acts| && (acts[i].Work? ==> acts[i].k != k)
    requires k in trace[i + 1].slots && trace[i + 1].slots[k].Failing?
    ensures var (s, s') := (trace[i], trace[i + 1]);
            && k in s.slots && s'.slots[k] == s.slots[k]
            && var id := s.slots[k].id;
               id in s.cells && id in s'.cells && s'.cells[id].job.retry == s.cells[id].job.retry
  {
    Always(trace, acts, runners, i);
    assert Enabled(trace[i], acts[i]) && trace[i + 1] == Apply(trace[i], acts[i]);
    S.OtherSlots(trace[i], acts[i], k);
    RetryKept(trace[i], acts[i], trace[i].slots[k].id, k);
  }

  /** No retry overflows when c0 >= 0 and the largest delay of the budget fits: for
      exponential backoff 2^(MaxAttempts-1) * BaseDelay < 2^63, for linear backoff
      (MaxAttempts-1) * BaseDelay < 2^63, and for any other always.  Every delayed retry
      was then set to the exact, capped delay after the clock reading of the MarkFailed
      with which the same slot counted the attempt. */
  lemma RetriesExact(trace: seq<State>, acts: seq<Action>, runners: seq<nat>, b: nat, j: nat) returns (i: nat)
    requires IsSystemRun(trace, acts, runners) && b < j < |acts| && acts[b].Submit?
    requires acts[j].Work? && acts[j].op.Decide? && trace[j].slots[acts[j].k].id == acts[b].id
    requires var policy := Created(acts[b]).retry;
             && policy.baseDelay >= 0 && policy.currentAttempts >= 0
             && policy.maxAttempts >= 1 && ExactDelay(policy, policy.maxAttempts - 1) < TWO_63
    requires acts[j].k in trace[j + 1].slots && trace[j + 1].slots[acts[j].k].Retrying?
    ensures i < j && acts[i].Work? && acts[i].k == acts[j].k && acts[i].op.MarkFailed?
    ensures forall m :: i < m < j && acts[m].Work? ==> acts[m].k != acts[j].k
    ensures acts[i].k in trace[i].slots && trace[i].slots[acts[i].k].Returned?
    ensures trace[i].slots[acts[i].k].id == acts[b].id && acts[b].id in trace[i].cells
    ensures var policy := Created(acts[b]).retry;
            && acts[b].id in trace[j + 1].cells
            && var job := trace[j + 1].cells[acts[b].id].job;
            && job.retry.currentAttempts == trace[i].cells[acts[b].id].job.retry.currentAttempts + 1 >= 0
            && var exact := ExactDelay(policy, job.retry.currentAttempts);
            && job.scheduledAt == acts[i].op.attempted + if exact > policy.maxDelay then policy.maxDelay else exact
  {
    Provenance(trace, acts, runners, b, j);
    assert Enabled(trace[j], acts[j]) && trace[j + 1] == Apply(trace[j], acts[j]);
    ReachableJobs(trace, acts, runners, j);
    i := LastFailure(trace, acts, runners, j, acts[j].k);
    DecidedExact(trace[j], acts[j].k, acts[j].op, acts[b].id, Created(acts[b]).retry);
  }

  lemma ReachableJobs(trace: seq<State>, acts: seq<Action>, runners: seq<nat>, j: nat)
    requires IsSystemRun(trace, acts, runners) && j < |trace|
    ensures CellsOk(trace[j]) && SlotsOk(trace[j])
  {
    Always(trace, acts, runners, j);
  }

  /** One decision for a retry. */
  lemma DecidedExact(s: State, k: Slot, op: SlotOp, id: Id, policy: RetryPolicy)
    requires SlotsOk(s) && CellsOk(s) && CanWork(s, k, op) && op.Decide? && s.slots[k].id == id && id in s.cells
    requires s.cells[id].origin == policy && policy.baseDelay >= 0 && policy.currentAttempts >= 0
    requires policy.maxAttempts >= 1 && ExactDelay(policy, policy.maxAttempts - 1) < TWO_63
    requires k in WorkOn(s, k, id, op).slots && WorkOn(s, k, id, op).slots[k].Retrying?
    ensures id in WorkOn(s, k, id, op).cells
    ensures var job := WorkOn(s, k, id, op).cells[id].job;
            && job.retry == s.cells[id].job.retry && job.retry.lastAttemptAt.Some? && job.retry.currentAttempts >= 0
            && var exact := ExactDelay(policy, job.retry.currentAttempts);
            && job.scheduledAt ==
               job.retry.lastAttemptAt.value + if exact > policy.maxDelay then policy.maxDelay else exact
  {
    var c := s.cells[id];
    assert HoldOk(s.slots[k], c, s.now, s.oor);
    RetryPathExact(c.job, s.oor);
  }

  // -------------------------------------------------- jobs without a handler

  ghost predicate ReturnsOk(s: State) {
    forall k :: k in s.slots && s.slots[k].Returned? && s.slots[k].err.None? ==>
      s.slots[k].id in s.cells && s.cells[s.slots[k].id].job.jobType in s.handlers
  }

  ghost predicate DoneOk(s: State) {
    forall id :: id in s.cells && s.cells[id].place == Done ==> s.cells[id].job.jobType in s.handlers
  }

  /** Success needs a handler. */
  ghost predicate HandlersOk(s: State) {
    ReturnsOk(s) && DoneOk(s)
  }

  lemma LocalHandlers(k: Slot, pc: Pc, c: Cell, op: SlotOp, known: bool, oor: Int64, saved: nat)
    requires At(pc, op) && !op.Dequeue?
    ensures var e := Local(k, pc, c, op, known, oor, saved);
            && e.cell.job.jobType == c.job.jobType && (e.pc.Idle? || e.pc.id == pc.id)
            && (e.cell.place == Done ==> c.place == Done || (pc.Returned? && pc.err.None?))
            && (e.pc.Returned? ==> op.Return? && e.pc.err == op.err)
  {}

  lemma HandlersFrame(s: State, k: Slot, id: Id, c: Cell, pc: Pc, s': State)
    requires HandlersOk(s) && k in s.slots && id in s.cells && c.job.jobType == s.cells[id].job.jobType
    requires s'.cells == s.cells[id := c] && s'.slots == s.slots[k := pc] && s'.handlers == s.handlers
    requires c.place == Done ==> c.job.jobType in s.handlers
    requires pc.Returned? && pc.err.None? ==> pc.id == id && c.job.jobType in s.handlers
    ensures HandlersOk(s')
  {}

  lemma HandlersWork(s: State, k: Slot, op: SlotOp)
    requires HandlersOk(s) && CanWork(s, k, op) && !op.Dequeue? && s.slots[k].id in s.cells
    ensures HandlersOk(WorkOn(s, k, s.slots[k].id, op))
  {
    var id := s.slots[k].id;
    var s' := WorkOn(s, k, id, op);
    LocalHandlers(k, s.slots[k], s.cells[id], op, id in s.stored, s.oor, |Record(s, id)|);
    HandlersFrame(s, k, id, s'.cells[id], s'.slots[k], s');
  }

  lemma HandlersPromote(s: State, t: Time, iteration: seq<Id>)
    requires Inv(s) && HandlersOk(s) && Enabled(s, Promote(t, iteration))
    ensures HandlersOk(Apply(s, Promote(t, iteration)))
  {
    S.PromoteStep(s, t, iteration);
  }

  lemma HandlersRest(s: State, a: Action)
    requires HandlersOk(s) && Enabled(s, a) && !a.Promote? && (a.Work? ==> a.op.Dequeue?)
    ensures HandlersOk(Apply(s, a))
  {}

  lemma HandlersStep(s: State, a: Action)
    requires Inv(s) && HandlersOk(s) && Enabled(s, a)
    ensures HandlersOk(Apply(s, a))
  {
    if a.Promote? {
      HandlersPromote(s, a.t, a.iteration);
    } else if a.Work? && !a.op.Dequeue? {
      HandlersWork(s, a.k, a.op);
    } else {
      HandlersRest(s, a);
    }
  }

  lemma {:induction false} HandlersRun(trace: seq<State>, acts: seq<Action>, i: nat)
    requires IsRun(trace, acts) && Inv(trace[0]) && HandlersOk(trace[0]) && i < |trace|
    ensures HandlersOk(trace[i])
  {
    if i > 0 {
      HandlersRun(trace, acts, i - 1);
      RunKeeps(trace, acts, i - 1);
      HandlersStep(trace[i - 1], acts[i - 1]);
    }
  }

  /** A job whose type has no handler is never completed; once it is out of the
      queue, the delayed map and the workers' hands it is a dead letter, after
      exactly max(1, MaxAttempts - c0) attempts. */
  lemma NoHandlerEndsDead(trace: seq<State>, acts: seq<Action>, runners: seq<nat>, b: nat, j: nat)
    requires IsSystemRun(trace, acts, runners) && b < j < |trace| && acts[b].Submit?
    requires acts[b].req.jobType !in trace[0].handlers
    ensures var id := acts[b].id;
            var s := trace[j];
            && id in s.cells && s.cells[id].job.status != Completed
            && ((forall p :: id !in Q.Listed(s.queue, p)) && id !in s.queue.delayed && S.HoldersOf(s, id) == {}
                && id !in s.requests ==>
                  id in s.queue.dead && |s.cells[id].ledger| == Budget(Created(acts[b]).retry))
  {
    Provenance(trace, acts, runners, b, j);
    Always(trace, acts, runners, j);
    InitInv(trace[0], runners);
    HandlersRun(trace, acts, j);
    S.RunSlots(trace, acts, j);
    var s := trace[j];
    S.HoldersCount(s, acts[b].id);
    HeldPhase(s, acts[b].id);
  }
}
