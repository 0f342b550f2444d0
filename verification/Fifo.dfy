/** Order of service over whole runs: first in, first out within a priority, and
    never a lower priority before a higher one. */
module Fifo {
  import opened Domain
  import opened System
  import opened Invariant
  import S = Safety
  import Q = MemoryQueueSpec

  /** The ids that an action appends to the list of priority `p`, in order. */
  ghost function AddedBy(s: State, a: Action, p: int): seq<Id>
    requires Enabled(s, a)
  {
    match a
    case Dispatch(id) =>
      if s.cells[id].job.status != Scheduled && s.cells[id].job.priority == p then [id] else []
    case Promote(t, iteration) => Q.OfPriority(s.queue, Q.Due(s.queue, t, iteration), p)
    case _ => []
  }

  /** The id that an action hands to a worker from the list of priority `p`. */
  ghost function TakenBy(s: State, a: Action, p: int): seq<Id>
    requires Enabled(s, a)
  {
    if a.Work? && a.op.Dequeue? then
      var got := Q.Dequeue(s.queue, Q.RUNNER_ORDER).1;
      if got.Some? && got.value in s.cells && s.cells[got.value].job.priority == p then [got.value] else []
    else []
  }

  ghost function Added(trace: seq<State>, acts: seq<Action>, p: int, n: nat): seq<Id>
    requires IsRun(trace, acts) && n <= |acts|
  {
    if n == 0 then [] else Added(trace, acts, p, n - 1) + AddedBy(trace[n - 1], acts[n - 1], p)
  }

  ghost function Taken(trace: seq<State>, acts: seq<Action>, p: int, n: nat): seq<Id>
    requires IsRun(trace, acts) && n <= |acts|
  {
    if n == 0 then [] else Taken(trace, acts, p, n - 1) + TakenBy(trace[n - 1], acts[n - 1], p)
  }

  lemma DequeueOrder(s: State, k: Slot, p: int)
    requires ListsOk(s) && IndexOk(s) && Enabled(s, Work(k, Dequeue))
    ensures Q.Listed(s.queue, p) == TakenBy(s, Work(k, Dequeue), p) + Q.Listed(TakeJob(s, k).queue, p)
  {
    HeadTaken(s);
    var got := Q.Dequeue(s.queue, Q.RUNNER_ORDER).1;
    if got.Some? {
      var ids := Q.Listed(s.queue, s.cells[got.value].job.priority);
      assert ids == [ids[0]] + ids[1..];
    }
  }

  lemma WorkLists(s: State, k: Slot, op: SlotOp, p: int)
    requires CanWork(s, k, op) && !op.Dequeue? && s.slots[k].id in s.cells
    ensures Q.Listed(WorkOn(s, k, s.slots[k].id, op).queue, p) == Q.Listed(s.queue, p)
  {}

  lemma RequestLists(s: State, a: Action, p: int)
    requires Enabled(s, a) && !a.Promote? && !a.Work?
    ensures Q.Listed(Apply(s, a).queue, p) == Q.Listed(s.queue, p) + AddedBy(s, a, p)
  {}

  lemma PassLists(s: State, t: Time, iteration: seq<Id>, p: int)
    requires Inv(s) && Enabled(s, Promote(t, iteration))
    ensures Q.Listed(Apply(s, Promote(t, iteration)).queue, p) ==
            Q.Listed(s.queue, p) + Q.OfPriority(s.queue, Q.Due(s.queue, t, iteration), p)
  {
    S.PromoteStep(s, t, iteration);
    Q.PromoteAllEffect(s.queue, Q.Due(s.queue, t, iteration));
  }

  /** One action adds at the back and takes from the front. */
  lemma StepOrder(s: State, a: Action, p: int)
    requires Inv(s) && Enabled(s, a)
    ensures Q.Listed(s.queue, p) + AddedBy(s, a, p) == TakenBy(s, a, p) + Q.Listed(Apply(s, a).queue, p)
  {
    if a.Promote? {
      PassLists(s, a.t, a.iteration, p);
    } else if !a.Work? {
      RequestLists(s, a, p);
    } else if a.op.Dequeue? {
      DequeueOrder(s, a.k, p);
    } else {
      WorkLists(s, a.k, a.op, p);
    }
  }

  lemma Regroup(taken: seq<Id>, list: seq<Id>, added: seq<Id>, got: seq<Id>, rest: seq<Id>)
    requires list + added == got + rest
    ensures taken + list + added == taken + got + rest
  {
    assert taken + list + added == taken + (list + added);
    assert taken + got + rest == taken + (got + rest);
  }

  lemma {:induction false} RunOrder(trace: seq<State>, acts: seq<Action>, p: int, n: nat)
    requires IsRun(trace, acts) && n <= |acts| && Inv(trace[0]) && Q.Listed(trace[0].queue, p) == []
    ensures Added(trace, acts, p, n) == Taken(trace, acts, p, n) + Q.Listed(trace[n].queue, p)
    decreases n
  {
    if n > 0 {
      RunOrder(trace, acts, p, n - 1);
      RunKeeps(trace, acts, n - 1);
      var s, a := trace[n - 1], acts[n - 1];
      StepOrder(s, a, p);
      Regroup(Taken(trace, acts, p, n - 1), Q.Listed(s.queue, p), AddedBy(s, a, p),
              TakenBy(s, a, p), Q.Listed(trace[n].queue, p));
    }
  }

  /** For each priority, the ids ever added are those taken so far followed by the
      current list: nothing overtakes within a priority. */
  lemma FirstInFirstOut(trace: seq<State>, acts: seq<Action>, runners: seq<nat>, p: int, n: nat)
    requires IsSystemRun(trace, acts, runners) && n <= |acts|
    ensures Added(trace, acts, p, n) == Taken(trace, acts, p, n) + Q.Listed(trace[n].queue, p)
  {
    InitInv(trace[0], runners);
    RunOrder(trace, acts, p, n);
  }

  /** In every run, a worker that gets a job gets the first of its list while every
      higher list is empty, and gets none only if all named lists are empty. */
  lemma PriorityRespected(trace: seq<State>, acts: seq<Action>, runners: seq<nat>, i: nat)
    requires IsSystemRun(trace, acts, runners) && i < |acts| && acts[i].Work? && acts[i].op.Dequeue?
    ensures var s, s', k := trace[i], trace[i + 1], acts[i].k;
            && k in s'.slots
            && (s'.slots[k].Idle? <==> forall p :: Named(p) ==> Q.Listed(s.queue, p) == [])
            && (!s'.slots[k].Idle? ==>
                  && s'.slots[k].Taken? && s'.slots[k].id in s.cells
                  && var p := s.cells[s'.slots[k].id].job.priority;
                     && Named(p) && Q.Listed(s.queue, p) != [] && Q.Listed(s.queue, p)[0] == s'.slots[k].id
                     && forall h :: p < h <= CRITICAL ==> Q.Listed(s.queue, h) == [])
  {
    var s := trace[i];
    Always(trace, acts, runners, i);
    assert Enabled(s, acts[i]) && trace[i + 1] == Apply(s, acts[i]);
    IndexedQueue(s);
    Q.RunnerTakesHighest(s.queue);
    var got := Q.Dequeue(s.queue, Q.RUNNER_ORDER).1;
    assert got.Some? ==> got.value in Q.Listed(s.queue, s.queue.index[got.value]);
  }
}
