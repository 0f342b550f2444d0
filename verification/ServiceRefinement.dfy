/** The running service makes only calls that the abstract queue allows, so every run
    of it follows a run of the abstract queue and workers are handed what that queue
    hands out. */
module ServiceRefinement {
  import opened Domain
  import opened System
  import opened Invariant
  import S = Safety
  import Q = MemoryQueueSpec
  import A = QueueRefinement

  /** The queue call that an action makes, if any. */
  ghost function CallOf(s: State, a: Action): Option<A.MemoryCall>
    requires Enabled(s, a)
  {
    match a
    case Dispatch(id) => Some(EnqueueCall(s.cells[id].job))
    case Promote(t, iteration) => Some(A.MPromote(t, iteration))
    case Work(k, op) =>
      if op.Dequeue? then Some(A.MTake(Q.RUNNER_ORDER))
      else if op.Release? then Some(ReleaseCall(s.slots[k], s.cells[s.slots[k].id].job))
      else None
    case _ => None
  }

  function EnqueueCall(job: JobRecord): A.MemoryCall {
    if job.status == Scheduled then A.MDelay(job, job.scheduledAt) else A.MPut(job)
  }

  function ReleaseCall(pc: Pc, job: JobRecord): A.MemoryCall {
    if pc.Retrying? then A.MDelay(job, job.scheduledAt) else A.MBury(job)
  }

  /** An action changes the queue by its call and in no other way. */
  lemma QueueCalled(s: State, a: Action)
    requires Inv(s) && Enabled(s, a)
    ensures Apply(s, a).queue ==
            match CallOf(s, a)
            case None => s.queue
            case Some(call) => A.MemoryStep(s.queue, call)
  {
    match a
    case Promote(t, iteration) => S.PromoteStep(s, t, iteration);
    case Work(k, op) =>
      if !op.Dequeue? {
        WorkCalled(s, k, op);
      }
    case Dispatch(id) => assert s.cells[id].job.id == id;
    case _ =>
  }

  lemma WorkCalled(s: State, k: Slot, op: SlotOp)
    requires CellsOk(s) && CanWork(s, k, op) && !op.Dequeue? && s.slots[k].id in s.cells
    ensures WorkOn(s, k, s.slots[k].id, op).queue ==
            if op.Release? then A.MemoryStep(s.queue, ReleaseCall(s.slots[k], s.cells[s.slots[k].id].job)) else s.queue
  {
    assert s.cells[s.slots[k].id].job.id == s.slots[k].id;
  }

  ghost predicate AllNamed(s: State) {
    forall id :: id in s.cells ==> Named(s.cells[id].job.priority)
  }

  /** No job is delayed twice, none changes its priority, and a promotion pass moves
      only delayed jobs, each once. */
  lemma CallLegal(s: State, a: Action, b: A.Abstract)
    requires Inv(s) && AllNamed(s) && Enabled(s, a) && CallOf(s, a).Some? && A.MemoryRefines(s.queue, b)
    ensures A.LegalAll(b, A.MemoryOps(s.queue, CallOf(s, a).value))
  {
    if a.Promote? {
      PassLegal(s, a.t, a.iteration, b);
    } else {
      OneLegal(s, a, b);
      A.OneOp(b, A.MemoryOps(s.queue, CallOf(s, a).value)[0]);
    }
  }

  lemma PassLegal(s: State, t: Time, iteration: seq<Id>, b: A.Abstract)
    requires Q.Enumerates(iteration, s.queue.delayed.Keys) && A.MemoryRefines(s.queue, b)
    ensures A.LegalAll(b, A.MemoryOps(s.queue, A.MPromote(t, iteration)))
  {
    Q.DueIsExact(s.queue, t, iteration);
    A.PromotionsLegal(b, Q.Due(s.queue, t, iteration));
  }

  lemma OneLegal(s: State, a: Action, b: A.Abstract)
    requires Inv(s) && AllNamed(s) && Enabled(s, a) && A.MemoryRefines(s.queue, b)
    requires !a.Promote? && CallOf(s, a).Some?
    ensures A.Legal(b, A.MemoryOps(s.queue, CallOf(s, a).value)[0])
  {
    if a.Dispatch? {
      JobLegal(s, a.id, b);
    } else if a.op.Release? {
      WorkReady(s, a.k, s.slots[a.k].id, a.op);
      JobLegal(s, s.slots[a.k].id, b);
    }
  }

  lemma JobLegal(s: State, id: Id, b: A.Abstract)
    requires CellsOk(s) && DelayedOk(s) && IndexOk(s) && AllNamed(s) && id in s.cells && A.MemoryRefines(s.queue, b)
    ensures var job := s.cells[id].job;
            && job.id == id && Named(job.priority) && A.Consistent(b, job)
            && (s.cells[id].place != Delayed ==> id !in b.delayed)
  {
    assert CellOk(id, s.cells[id], s.now, s.oor);
  }

  /** Which requests keep to the named priorities (0 stands for medium). */
  predicate NamedRequests(acts: seq<Action>) {
    forall i :: 0 <= i < |acts| && acts[i].Submit? ==> acts[i].req.priority == 0 || Named(acts[i].req.priority)
  }

  lemma StepNamed(s: State, a: Action)
    requires Inv(s) && AllNamed(s) && Enabled(s, a)
    requires a.Submit? ==> a.req.priority == 0 || Named(a.req.priority)
    ensures AllNamed(Apply(s, a))
  {
    if a.Promote? {
      S.PromoteStep(s, a.t, a.iteration);
    } else if !a.Work? {
      RequestNamed(s, a);
    } else if !a.op.Dequeue? {
      WorkNamed(s, a.k, a.op);
    }
  }

  lemma RequestNamed(s: State, a: Action)
    requires AllNamed(s) && Enabled(s, a) && !a.Promote? && !a.Work?
    requires a.Submit? ==> a.req.priority == 0 || Named(a.req.priority)
    ensures AllNamed(Apply(s, a))
  {
    if a.Submit? {
      NewNamed(a.id, a.req, a.created, a.updated, a.scheduled, a.checked);
    }
  }

  lemma NewNamed(id: Id, req: Request, c: Time, u: Time, d: Time, t: Time)
    requires req.priority == 0 || Named(req.priority)
    ensures Named(NewJob(id, req, c, u, d, t).priority)
  {}

  lemma WorkNamed(s: State, k: Slot, op: SlotOp)
    requires AllNamed(s) && CanWork(s, k, op) && !op.Dequeue? && s.slots[k].id in s.cells
    ensures AllNamed(WorkOn(s, k, s.slots[k].id, op))
  {
    var id := s.slots[k].id;
    LocalPriority(k, s.slots[k], s.cells[id], op, id in s.stored, s.oor, |Record(s, id)|);
  }

  lemma LocalPriority(k: Slot, pc: Pc, c: Cell, op: SlotOp, known: bool, oor: Int64, saved: nat)
    requires At(pc, op) && !op.Dequeue?
    ensures Local(k, pc, c, op, known, oor, saved).cell.job.priority == c.job.priority
  {}

  lemma {:induction false} RunNamed(trace: seq<State>, acts: seq<Action>, i: nat)
    requires IsRun(trace, acts) && Inv(trace[0]) && AllNamed(trace[0]) && NamedRequests(acts) && i < |trace|
    ensures AllNamed(trace[i])
  {
    if i > 0 {
      RunNamed(trace, acts, i - 1);
      RunKeeps(trace, acts, i - 1);
      StepNamed(trace[i - 1], acts[i - 1]);
    }
  }

  /** The abstract queue after the first `i` actions. */
  ghost function AbstractAt(trace: seq<State>, acts: seq<Action>, i: nat): A.Abstract
    requires IsRun(trace, acts) && i < |trace|
  {
    if i == 0 then A.NOTHING
    else
      var b := AbstractAt(trace, acts, i - 1);
      match CallOf(trace[i - 1], acts[i - 1])
      case None => b
      case Some(call) => A.Steps(b, A.MemoryOps(trace[i - 1].queue, call))
  }

  lemma StepFollows(s: State, a: Action, b: A.Abstract)
    requires Inv(s) && AllNamed(s) && Enabled(s, a) && A.MemoryRefines(s.queue, b)
    ensures match CallOf(s, a)
            case None => A.MemoryRefines(Apply(s, a).queue, b)
            case Some(call) => A.MemoryRefines(Apply(s, a).queue, A.Steps(b, A.MemoryOps(s.queue, call)))
  {
    QueueCalled(s, a);
    if CallOf(s, a).Some? {
      CallLegal(s, a, b);
      A.MemoryStepRefines(s.queue, b, CallOf(s, a).value);
    }
  }

  lemma {:induction false} RunFollows(trace: seq<State>, acts: seq<Action>, i: nat)
    requires IsRun(trace, acts) && Inv(trace[0]) && AllNamed(trace[0]) && NamedRequests(acts) && i < |trace|
    requires A.MemoryRefines(trace[0].queue, A.NOTHING)
    ensures A.MemoryRefines(trace[i].queue, AbstractAt(trace, acts, i))
  {
    if i > 0 {
      RunFollows(trace, acts, i - 1);
      RunKeeps(trace, acts, i - 1);
      RunNamed(trace, acts, i - 1);
      StepFollows(trace[i - 1], acts[i - 1], AbstractAt(trace, acts, i - 1));
    }
  }

  lemma StartFollows(s: State, runners: seq<nat>)
    requires Init(s, runners)
    ensures A.MemoryRefines(s.queue, A.NOTHING) && AllNamed(s)
  {
    assert forall p :: Q.Listed(s.queue, p) == A.Line(A.NOTHING, p) == [];
  }

  /** What a worker is handed by the memory queue. */
  lemma Handed(s: State, k: Slot)
    requires ListsOk(s) && IndexOk(s) && Enabled(s, Work(k, Dequeue))
    ensures var s' := Apply(s, Work(k, Dequeue));
            k in s'.slots &&
            s'.slots[k] == match Q.Dequeue(s.queue, Q.RUNNER_ORDER).1 case None => Idle case Some(id) => Taken(id)
  {
    HeadTaken(s);
  }

  /** In every run whose requests keep to the named priorities, whatever interleaves, the
      queue follows the abstract queue, every call is one the abstract queue allows, and a
      worker that asks for a job gets exactly the id that the abstract queue gives out. */
  lemma ServiceRefines(trace: seq<State>, acts: seq<Action>, runners: seq<nat>, i: nat)
    requires IsSystemRun(trace, acts, runners) && NamedRequests(acts) && i < |acts|
    ensures var (s, b) := (trace[i], AbstractAt(trace, acts, i));
            && A.MemoryRefines(s.queue, b)
            && (CallOf(s, acts[i]).Some? ==> A.LegalAll(b, A.MemoryOps(s.queue, CallOf(s, acts[i]).value)))
            && (acts[i].Work? && acts[i].op.Dequeue? ==>
                  && acts[i].k in trace[i + 1].slots
                  && trace[i + 1].slots[acts[i].k] ==
                     match A.TakeFirst(b, Q.RUNNER_ORDER).1 case None => Idle case Some(id) => Taken(id))
  {
    var (s, b) := (trace[i], AbstractAt(trace, acts, i));
    Always(trace, acts, runners, i);
    InitInv(trace[0], runners);
    StartFollows(trace[0], runners);
    RunFollows(trace, acts, i);
    RunNamed(trace, acts, i);
    if CallOf(s, acts[i]).Some? {
      CallLegal(s, acts[i], b);
    }
    if acts[i].Work? && acts[i].op.Dequeue? {
      A.MemoryTakes(s.queue, b, Q.RUNNER_ORDER);
      Handed(s, acts[i].k);
    }
  }
}
