/** Requests for a later time: where the job waits, and that it never starts early. */
module ScheduledStart {
  import opened Domain
  import opened System
  import opened Invariant
  import L = Lifecycle
  import S = Safety
  import Q = MemoryQueueSpec

  /** Saved or delayed, with the time asked for. */
  predicate Awaits(c: Cell, t: Time) {
    (c.place == Saved || c.place == Delayed) && c.job.status == Scheduled && c.job.scheduledAt == t
  }

  ghost predicate NotBefore(s: State, id: Id, t: Time) {
    id in s.cells && (Awaits(s.cells[id], t) || t <= s.now)
  }

  lemma PromoteAwaits(s: State, now: Time, iteration: seq<Id>, id: Id, t: Time)
    requires Inv(s) && Enabled(s, Promote(now, iteration)) && id in s.cells && Awaits(s.cells[id], t)
    ensures NotBefore(Apply(s, Promote(now, iteration)), id, t)
  {
    S.PromoteStep(s, now, iteration);
  }

  lemma WorkAwaits(s: State, k: Slot, op: SlotOp, id: Id, t: Time)
    requires CellsOk(s) && SlotsOk(s) && s.stored == s.cells.Keys && CanWork(s, k, op) && !op.Dequeue?
    requires id in s.cells && Awaits(s.cells[id], t)
    ensures var s' := WorkOn(s, k, s.slots[k].id, op); id in s'.cells && Awaits(s'.cells[id], t)
  {
    L.WorkCell(s, k, s.slots[k].id, op);
  }

  lemma TakeAwaits(s: State, k: Slot, id: Id, t: Time)
    requires ListsOk(s) && IndexOk(s) && k in s.slots && id in s.cells && Awaits(s.cells[id], t)
    ensures id in TakeJob(s, k).cells && TakeJob(s, k).cells[id] == s.cells[id]
  {
    HeadTaken(s);
  }

  lemma RequestAwaits(s: State, a: Action, id: Id, t: Time)
    requires Enabled(s, a) && !a.Promote? && !a.Work? && id in s.cells && Awaits(s.cells[id], t)
    ensures id in Apply(s, a).cells && Awaits(Apply(s, a).cells[id], t)
  {}

  lemma StepAwaits(s: State, a: Action, id: Id, t: Time)
    requires Inv(s) && Enabled(s, a) && id in s.cells && Awaits(s.cells[id], t)
    ensures NotBefore(Apply(s, a), id, t)
  {
    if a.Promote? {
      PromoteAwaits(s, a.t, a.iteration, id, t);
    } else if !a.Work? {
      RequestAwaits(s, a, id, t);
    } else if a.op.Dequeue? {
      TakeAwaits(s, a.k, id, t);
    } else {
      WorkAwaits(s, a.k, a.op, id, t);
    }
  }

  lemma StepNotBefore(s: State, a: Action, id: Id, t: Time)
    requires Inv(s) && Enabled(s, a) && NotBefore(s, id, t)
    ensures NotBefore(Apply(s, a), id, t)
  {
    if t <= s.now {
      S.StepSlots(s, a);
      L.StepCell(s, a, id);
    } else {
      StepAwaits(s, a, id, t);
    }
  }

  predicate AsSaved(c: Cell, d: Cell) {
    && c.place == Saved && d.job.status == c.job.status && d.job.priority == c.job.priority
    && d.job.scheduledAt == c.job.scheduledAt
  }

  /** A job that is still saved is as its request left it. */
  lemma StepSaved(s: State, a: Action, id: Id)
    requires Inv(s) && Enabled(s, a) && id in s.cells && id in Apply(s, a).cells
    requires Apply(s, a).cells[id].place == Saved
    ensures AsSaved(s.cells[id], Apply(s, a).cells[id])
  {
    if a.Promote? {
      S.PromoteStep(s, a.t, a.iteration);
    } else if a.Work? && !a.op.Dequeue? {
      WorkSaved(s, a.k, a.op, id);
    } else {
      RestSaved(s, a, id);
    }
  }

  lemma WorkSaved(s: State, k: Slot, op: SlotOp, id: Id)
    requires CellsOk(s) && SlotsOk(s) && s.stored == s.cells.Keys && CanWork(s, k, op) && !op.Dequeue? && id in s.cells
    requires var s' := WorkOn(s, k, s.slots[k].id, op); id in s'.cells && s'.cells[id].place == Saved
    ensures var s' := WorkOn(s, k, s.slots[k].id, op); Alike(s.cells[id], s'.cells[id])
  {
    var i := s.slots[k].id;
    L.WorkCell(s, k, i, op);
    WorkReady(s, k, i, op);
    LocalSaved(k, s.slots[k], s.cells[i], op, s.oor, |Record(s, i)|);
  }

  /** No worker puts a job back to where its request left it. */
  lemma LocalSaved(k: Slot, pc: Pc, c: Cell, op: SlotOp, oor: Int64, saved: nat)
    requires At(pc, op) && !op.Dequeue? && (Holds(pc) ==> c.place == Held(k))
    ensures Holds(pc) ==> Local(k, pc, c, op, true, oor, saved).cell.place != Saved
  {}

  lemma RestSaved(s: State, a: Action, id: Id)
    requires Enabled(s, a) && !a.Promote? && (a.Work? ==> a.op.Dequeue?) && id in s.cells
    requires id in Apply(s, a).cells && Apply(s, a).cells[id].place == Saved
    ensures Apply(s, a).cells[id] == s.cells[id]
  {}

  // -------------------------------------------------------------------- runs

  /** What the request of action `b` asks for, in the words of its own fields. */
  lemma SubmittedAs(trace: seq<State>, acts: seq<Action>, b: nat)
    requires IsRun(trace, acts) && b < |acts| && acts[b].Submit?
    ensures acts[b].id in trace[b + 1].cells && trace[b + 1].now == acts[b].checked
    ensures var (req, c) := (acts[b].req, trace[b + 1].cells[acts[b].id]);
            && c.place == Saved && c.job.priority == (if req.priority == 0 then 2 else req.priority)
            && if req.scheduleAt.Some? && req.scheduleAt.value > acts[b].checked
               then c.job.status == Scheduled && c.job.scheduledAt == req.scheduleAt.value
               else c.job.status == Pending && c.job.scheduledAt == acts[b].scheduled
  {
    assert Enabled(trace[b], acts[b]) && trace[b + 1] == Apply(trace[b], acts[b]);
  }

  lemma {:induction false} RunNotBefore(
    trace: seq<State>, acts: seq<Action>, runners: seq<nat>, b: nat, j: nat, t: Time)
    requires IsSystemRun(trace, acts, runners) && b < j < |trace| && acts[b].Submit?
    requires acts[b].req.scheduleAt == Some(t) && t > acts[b].checked
    ensures NotBefore(trace[j], acts[b].id, t)
    decreases j
  {
    if j == b + 1 {
      SubmittedAs(trace, acts, b);
    } else {
      RunNotBefore(trace, acts, runners, b, j - 1, t);
      Always(trace, acts, runners, j - 1);
      NextNotBefore(trace, acts, j, acts[b].id, t);
    }
  }

  lemma NextNotBefore(trace: seq<State>, acts: seq<Action>, j: nat, id: Id, t: Time)
    requires IsRun(trace, acts) && 0 < j < |trace| && Inv(trace[j - 1]) && NotBefore(trace[j - 1], id, t)
    ensures NotBefore(trace[j], id, t)
  {
    assert Enabled(trace[j - 1], acts[j - 1]) && trace[j] == Apply(trace[j - 1], acts[j - 1]);
    StepNotBefore(trace[j - 1], acts[j - 1], id, t);
  }

  /** A job asked for a later time waits for it, scheduled for that very time, and no
      worker ever marks it as processing before. */
  lemma NeverEarly(trace: seq<State>, acts: seq<Action>, runners: seq<nat>, b: nat, j: nat, t: Time)
    requires IsSystemRun(trace, acts, runners) && b < j < |trace| && acts[b].Submit?
    requires acts[b].req.scheduleAt == Some(t) && t > acts[b].checked
    ensures var (id, s) := (acts[b].id, trace[j]);
            s.now < t ==>
              && id in s.cells && s.cells[id].job.status == Scheduled && s.cells[id].job.scheduledAt == t
              && (|| (id in s.requests && s.requests[id].ToEnqueue?)
                  || (id in s.queue.delayed && s.queue.delayed[id] == t))
    ensures j < |acts| && acts[j].Work? && acts[j].op.Mark? && trace[j].slots[acts[j].k].id == acts[b].id ==>
              t <= acts[j].op.updated
  {
    RunNotBefore(trace, acts, runners, b, j, t);
    Always(trace, acts, runners, j);
    if j < |acts| && acts[j].Work? && acts[j].op.Mark? {
      assert Enabled(trace[j], acts[j]);
      HeldPhase(trace[j], acts[b].id);
    }
  }

  /** As long as the job is saved, it is as `first`. */
  ghost predicate Fresh(s: State, id: Id, first: Cell) {
    id in s.cells && (s.cells[id].place == Saved ==> AsSaved(first, s.cells[id]))
  }

  lemma StepFresh(s: State, a: Action, id: Id, first: Cell)
    requires Inv(s) && Enabled(s, a) && Fresh(s, id, first)
    ensures Fresh(Apply(s, a), id, first)
  {
    L.StepCell(s, a, id);
    if Apply(s, a).cells[id].place == Saved {
      StepSaved(s, a, id);
    }
  }

  lemma NextFresh(trace: seq<State>, acts: seq<Action>, j: nat, id: Id, first: Cell)
    requires IsRun(trace, acts) && 0 < j < |trace| && Inv(trace[j - 1]) && Fresh(trace[j - 1], id, first)
    ensures Fresh(trace[j], id, first)
  {
    assert Enabled(trace[j - 1], acts[j - 1]) && trace[j] == Apply(trace[j - 1], acts[j - 1]);
    StepFresh(trace[j - 1], acts[j - 1], id, first);
  }

  lemma {:induction false} RunFresh(trace: seq<State>, acts: seq<Action>, runners: seq<nat>, b: nat, j: nat)
    requires IsSystemRun(trace, acts, runners) && b < j < |trace| && acts[b].Submit?
    ensures acts[b].id in trace[b + 1].cells && Fresh(trace[j], acts[b].id, trace[b + 1].cells[acts[b].id])
    decreases j
  {
    SubmittedAs(trace, acts, b);
    if j > b + 1 {
      RunFresh(trace, acts, runners, b, j - 1);
      Always(trace, acts, runners, j - 1);
      NextFresh(trace, acts, j, acts[b].id, trace[b + 1].cells[acts[b].id]);
    }
  }

  /** The queue call of a request follows what it asks for: a job for a later time goes to
      the delayed map with that time, any other to the end of the list of its priority. */
  lemma DispatchedAsAsked(trace: seq<State>, acts: seq<Action>, runners: seq<nat>, b: nat, j: nat)
    requires IsSystemRun(trace, acts, runners) && b < j < |acts| && acts[b].Submit? && acts[j] == Dispatch(acts[b].id)
    ensures var (id, req, q, q') := (acts[b].id, acts[b].req, trace[j].queue, trace[j + 1].queue);
            var p := if req.priority == 0 then 2 else req.priority;
            if req.scheduleAt.Some? && req.scheduleAt.value > acts[b].checked
            then q'.delayed == q.delayed[id := req.scheduleAt.value] && q'.queues == q.queues
            else q'.delayed == q.delayed && Q.Listed(q', p) == Q.Listed(q, p) + [id]
  {
    Always(trace, acts, runners, j);
    assert Enabled(trace[j], acts[j]) && trace[j + 1] == Apply(trace[j], acts[j]);
    RunFresh(trace, acts, runners, b, j);
    SubmittedAs(trace, acts, b);
  }
}
