/** Draining: without new requests the service does a bounded amount of work, and
    when there is nothing left to do every job is completed or dead, except those
    parked under a priority that no worker asks for. */
module Drain {
  import opened Domain
  import opened System
  import opened Invariant
  import MapSum
  import S = Safety
  import Q = MemoryQueueSpec

  // ------------------------------------------------------------- the measure

  /** What a job may still cost: each attempt left, and the way to its next one. */
  function JobWeight(c: Cell): int {
    var left := 100 * (Budget(c.origin) - Failures(c));
    match c.place
    case Saved => left + 23
    case Delayed => left + 22
    case Active => left + 21
    case Held(_) => left
    case _ => 0
  }

  /** What a slot has still to do for the job of its current ProcessJob call. */
  function SlotWeight(pc: Pc): int {
    match pc
    case Idle => 0
    case Taken(_) => 20
    case Marked(_) => 19
    case Running(_, _) => 18
    case Returned(_, _, _) => 17
    case Failing(_, _) => 60
    case Retrying(_, _) => 59
    case Burying(_, _) => 59
    case Requeued(_, _) => 5
    case Interred(_, _) => 5
    case Counted(_, _) => 4
    case Trailing(_, _) => 3
    case Completing(_, _) => 4
    case Stored(_, _) => 3
    case Saving(_, _) => 1
  }

  function RequestWeight(r: RequestPc): int {
    if r.ToEnqueue? then 2 else 1
  }

  ghost function CellWork(s: State): int { MapSum.Sum(s.cells, JobWeight) }
  ghost function SlotWork(s: State): int { MapSum.Sum(s.slots, SlotWeight) }
  ghost function RequestWork(s: State): int { MapSum.Sum(s.requests, RequestWeight) }

  ghost function Measure(s: State): int {
    CellWork(s) + SlotWork(s) + RequestWork(s)
  }

  /** Everything but the passing of time, new requests, a promotion pass that finds
      nothing due and a Dequeue that finds no job. */
  ghost predicate Productive(s: State, a: Action)
    requires Enabled(s, a)
  {
    match a
    case Tick(_) => false
    case Submit(_, _, _, _, _, _) => false
    case Promote(t, iteration) => Q.Due(s.queue, t, iteration) != []
    case Work(k, op) => op.Dequeue? ==> Q.Dequeue(s.queue, Q.RUNNER_ORDER).1.Some?
    case _ => true
  }

  // -------------------------------------------------------------- decreasing

  lemma JobWeightNatural(s: State, id: Id)
    requires CellsOk(s) && SlotsOk(s) && id in s.cells
    ensures JobWeight(s.cells[id]) >= 0
  {
    HeldPhase(s, id);
  }

  lemma CellWorkNatural(s: State)
    requires CellsOk(s) && SlotsOk(s)
    ensures CellWork(s) >= 0
  {
    forall id | id in s.cells
      ensures JobWeight(s.cells[id]) >= 0
    {
      JobWeightNatural(s, id);
    }
    MapSum.Bounds(s.cells, JobWeight);
  }

  lemma SlotWorkNatural(s: State)
    ensures SlotWork(s) >= 0 && RequestWork(s) >= 0
  {
    MapSum.Bounds(s.slots, SlotWeight);
    MapSum.Bounds(s.requests, RequestWeight);
  }

  lemma WeightsNatural(s: State)
    requires CellsOk(s) && SlotsOk(s)
    ensures Measure(s) >= 0
  {
    CellWorkNatural(s);
    SlotWorkNatural(s);
  }

  /** The weights of the job and the slot together drop with every operation. */
  lemma LocalDecreases(k: Slot, pc: Pc, c: Cell, op: SlotOp, now: Time, oor: Int64, saved: nat)
    requires At(pc, op) && !op.Dequeue?
    requires Holds(pc) ==> c.place == Held(k) && HoldOk(pc, c, now, oor)
    ensures var e := Local(k, pc, c, op, true, oor, saved);
            JobWeight(e.cell) + SlotWeight(e.pc) < JobWeight(c) + SlotWeight(pc)
  {}

  lemma CellPaid(s: State, id: Id, c: Cell, s': State)
    requires id in s.cells && s'.cells == s.cells[id := c]
    ensures CellWork(s') == CellWork(s) - JobWeight(s.cells[id]) + JobWeight(c)
  {
    MapSum.Update(s.cells, JobWeight, id, c);
  }

  lemma SlotPaid(s: State, k: Slot, pc: Pc, s': State)
    requires k in s.slots && s'.slots == s.slots[k := pc] && s'.requests == s.requests
    ensures SlotWork(s') == SlotWork(s) - SlotWeight(s.slots[k]) + SlotWeight(pc)
    ensures RequestWork(s') == RequestWork(s)
  {
    MapSum.Update(s.slots, SlotWeight, k, pc);
  }

  lemma RequestPaid(s: State, id: Id, r: RequestPc, s': State)
    requires id in s.requests && s'.requests == s.requests[id := r] && s'.slots == s.slots
    ensures RequestWork(s') == RequestWork(s) - RequestWeight(s.requests[id]) + RequestWeight(r)
    ensures SlotWork(s') == SlotWork(s)
  {
    MapSum.Update(s.requests, RequestWeight, id, r);
  }

  lemma WorkDecreases(s: State, k: Slot, op: SlotOp)
    requires Inv(s) && CanWork(s, k, op) && !op.Dequeue?
    ensures Measure(WorkOn(s, k, s.slots[k].id, op)) < Measure(s)
  {
    var id := s.slots[k].id;
    WorkReady(s, k, id, op);
    var s' := WorkOn(s, k, id, op);
    LocalDecreases(k, s.slots[k], s.cells[id], op, s.now, s.oor, |Record(s, id)|);
    CellPaid(s, id, s'.cells[id], s');
    SlotPaid(s, k, s'.slots[k], s');
  }

  lemma TakeDecreases(s: State, k: Slot, id: Id, s': State)
    requires k in s.slots && s.slots[k].Idle? && Located(s, id, Active)
    requires s'.cells == s.cells[id := s.cells[id].(place := Held(k))] && s'.slots == s.slots[k := Taken(id)]
    requires s'.requests == s.requests
    ensures Measure(s') < Measure(s)
  {
    CellPaid(s, id, s.cells[id].(place := Held(k)), s');
    SlotPaid(s, k, Taken(id), s');
  }

  lemma DequeueDecreases(s: State, k: Slot)
    requires ListsOk(s) && IndexOk(s) && k in s.slots && s.slots[k].Idle?
    ensures Q.Dequeue(s.queue, Q.RUNNER_ORDER).1.Some? ==> Measure(TakeJob(s, k)) < Measure(s)
    ensures Q.Dequeue(s.queue, Q.RUNNER_ORDER).1.None? ==> TakeJob(s, k) == s
  {
    HeadTaken(s);
    var got := Q.Dequeue(s.queue, Q.RUNNER_ORDER).1;
    if got.Some? {
      TakeDecreases(s, k, got.value, TakeJob(s, k));
    }
  }

  lemma PromoteOneDecreases(s: State, id: Id)
    requires id in s.queue.index && Located(s, id, Delayed)
    ensures Measure(PromoteOne(s, id)) == Measure(s) - 1
  {
    MapSum.Update(s.cells, JobWeight, id, PromoteOne(s, id).cells[id]);
  }

  lemma {:induction false} PromoteDecreases(s: State, ids: seq<Id>)
    requires Q.NoDup(ids) && forall id :: id in ids ==> id in s.queue.index && Located(s, id, Delayed)
    ensures Measure(PromoteAll(s, ids)) == Measure(s) - |ids|
  {
    if ids != [] {
      var n := |ids| - 1;
      assert ids == ids[..n] + [ids[n]];
      PromoteDecreases(s, ids[..n]);
      PromoteAllEffect(s, ids[..n]);
      Q.PromoteAllEffect(s.queue, ids[..n]);
      assert ids[n] in ids && ids[n] !in ids[..n];
      PromoteOneDecreases(PromoteAll(s, ids[..n]), ids[n]);
    }
  }

  lemma DispatchDecreases(s: State, id: Id)
    requires Located(s, id, Saved) && id in s.requests && s.requests[id].ToEnqueue?
    ensures Measure(DispatchJob(s, id)) < Measure(s)
  {
    CellPaid(s, id, DispatchJob(s, id).cells[id], DispatchJob(s, id));
    RequestPaid(s, id, ToCount, DispatchJob(s, id));
  }

  /** Every productive action lowers the measure; no other action short of a new
      request changes it. */
  lemma StepDecreases(s: State, a: Action)
    requires Inv(s) && Enabled(s, a) && !a.Submit?
    ensures if Productive(s, a) then Measure(Apply(s, a)) < Measure(s) else Measure(Apply(s, a)) == Measure(s)
  {
    match a
    case Tick(t) =>
    case Dispatch(id) => DispatchDecreases(s, id);
    case CountScheduled(id) => MapSum.Remove(s.requests, RequestWeight, id);
    case Promote(t, iteration) =>
      TickKeeps(s, t);
      Q.DueIsExact(s.queue, t, iteration);
      PromoteDecreases(s.(now := t), Q.Due(s.queue, t, iteration));
    case Work(k, op) =>
      if op.Dequeue? {
        DequeueDecreases(s, k);
      } else {
        WorkDecreases(s, k, op);
      }
  }

  ghost predicate NoSubmits(acts: seq<Action>) {
    forall i :: 0 <= i < |acts| ==> !acts[i].Submit?
  }

  ghost function ProductiveCount(trace: seq<State>, acts: seq<Action>, n: nat): nat
    requires IsRun(trace, acts) && n <= |acts|
  {
    if n == 0 then 0
    else ProductiveCount(trace, acts, n - 1) + if Productive(trace[n - 1], acts[n - 1]) then 1 else 0
  }

  lemma {:induction false} WorkPaid(trace: seq<State>, acts: seq<Action>, n: nat)
    requires IsRun(trace, acts) && Inv(trace[0]) && NoSubmits(acts) && n <= |acts|
    ensures ProductiveCount(trace, acts, n) + Measure(trace[n]) <= Measure(trace[0])
    decreases n
  {
    if n > 0 {
      WorkPaid(trace, acts, n - 1);
      RunKeeps(trace, acts, n - 1);
      var s, a := trace[n - 1], acts[n - 1];
      assert Enabled(s, a) && trace[n] == Apply(s, a);
      StepDecreases(s, a);
    }
  }

  /** Without new requests, a run from any reachable state does at most as much
      productive work as the measure of that state says, whatever the handlers return. */
  lemma WorkBounded(trace: seq<State>, acts: seq<Action>)
    requires IsRun(trace, acts) && Inv(trace[0]) && NoSubmits(acts)
    ensures ProductiveCount(trace, acts, |acts|) <= Measure(trace[0])
  {
    WorkPaid(trace, acts, |acts|);
    RunKeeps(trace, acts, |acts|);
    WeightsNatural(trace[|acts|]);
  }

  // ------------------------------------------------------- nothing left to do

  /** No productive action is enabled. */
  ghost predicate Stuck(s: State) {
    forall a :: Enabled(s, a) ==> !Productive(s, a)
  }

  function SomeOp(pc: Pc, now: Time): (op: SlotOp)
    requires !pc.Idle?
    ensures At(pc, op) && !op.Dequeue? && Timely(now, op) && (op.Return? ==> op.err.Some?)
  {
    match pc
    case Taken(_) => Mark(now, now)
    case Marked(_) => Begin(now, now)
    case Running(_, _) => Return(Some(""), now)
    case Returned(_, _, err) => if err.None? then Complete(now, now) else MarkFailed(now, now, now)
    case Completing(_, _) => StoreFinal(now)
    case Stored(_, _) => CountCompletion
    case Failing(_, _) => Decide(now)
    case Retrying(_, _) => Release
    case Burying(_, _) => Release
    case Requeued(_, _) => CountOutcome
    case Interred(_, _) => CountOutcome
    case Counted(_, _) => CountFailure
    case Trailing(_, _) => StoreFinal(now)
    case Saving(_, _) => SaveHistory
  }

  lemma StuckSlotsIdle(s: State, k: Slot)
    requires Inv(s) && Stuck(s) && k in s.slots
    ensures s.slots[k].Idle?
  {
    if !s.slots[k].Idle? {
      assert Enabled(s, Work(k, SomeOp(s.slots[k], s.now)));
    }
  }

  lemma StuckNoRequests(s: State)
    requires Inv(s) && Stuck(s)
    ensures s.requests == map[]
  {
    if |s.requests| != 0 {
      var id := MapSum.Pick(s.requests);
      assert Enabled(s, if s.requests[id].ToEnqueue? then Dispatch(id) else CountScheduled(id));
    }
  }

  /** A finite map can be visited in some order. */
  lemma {:induction false} SomeIteration(m: map<Id, Time>) returns (iteration: seq<Id>)
    ensures Q.Enumerates(iteration, m.Keys)
    decreases |m|
  {
    if |m| == 0 {
      iteration := [];
    } else {
      var id := MapSum.Pick(m);
      MapSum.Shrinks(m, id);
      var rest := SomeIteration(m - {id});
      iteration := rest + [id];
    }
  }

  /** Nothing is delayed: the clock may still pass any due time before a promotion pass. */
  lemma StuckNothingDelayed(s: State)
    requires Inv(s) && Stuck(s)
    ensures s.queue.delayed == map[]
  {
    if |s.queue.delayed| != 0 {
      var id := MapSum.Pick(s.queue.delayed);
      var t := Max(s.now, s.queue.delayed[id]);
      var iteration := SomeIteration(s.queue.delayed);
      Q.DueIsExact(s.queue, t, iteration);
      assert id in Q.Due(s.queue, t, iteration);
      assert Enabled(s, Promote(t, iteration));
    }
  }

  lemma StuckListsEmpty(s: State, k: Slot)
    requires Inv(s) && Stuck(s) && k in s.slots && s.slots[k].Idle?
    ensures forall p :: Named(p) ==> Q.Listed(s.queue, p) == []
  {
    assert Enabled(s, Work(k, Dequeue));
    IndexedQueue(s);
    Q.RunnerTakesHighest(s.queue);
  }

  /** The job is listed under a priority that no worker asks for. */
  ghost predicate ParkedIn(q: Q.MemQueue, id: Id) {
    exists p :: !Named(p) && id in Q.Listed(q, p)
  }

  /** When nothing productive is left, with at least one worker slot, no call is in
      progress and each job is completed or dead, exactly unless it is parked under a
      priority without a name. */
  lemma StuckIsDrained(s: State)
    requires Inv(s) && Stuck(s) && s.slots.Keys != {}
    ensures s.requests == map[] && forall k :: k in s.slots ==> s.slots[k].Idle?
    ensures forall id :: id in s.cells ==>
              (s.cells[id].job.status == Completed || id in s.queue.dead <==> !ParkedIn(s.queue, id))
    ensures forall id :: id in s.cells && ParkedIn(s.queue, id) ==> !Named(s.cells[id].job.priority)
  {
    forall k | k in s.slots
      ensures s.slots[k].Idle?
    {
      StuckSlotsIdle(s, k);
    }
    var k :| k in s.slots.Keys;
    StuckListsEmpty(s, k);
    StuckNoRequests(s);
    StuckNothingDelayed(s);
    forall id | id in s.cells
      ensures s.cells[id].job.status == Completed || id in s.queue.dead <==> !ParkedIn(s.queue, id)
      ensures ParkedIn(s.queue, id) ==> !Named(s.cells[id].job.priority)
    {
      HeldPhase(s, id);
      assert s.cells[id].place == Active ==> id in Q.Listed(s.queue, s.cells[id].job.priority);
    }
  }

  /** Draining: from any reachable state, a run without new requests does at most as much
      productive work as the initial measure says; and if it goes on until nothing
      productive is enabled, every job is completed or dead, exactly but for those parked
      under a priority without a name. */
  lemma DrainTerminates(trace: seq<State>, acts: seq<Action>)
    requires IsRun(trace, acts) && Inv(trace[0]) && NoSubmits(acts) && trace[0].slots.Keys != {}
    requires Stuck(trace[|acts|])
    ensures ProductiveCount(trace, acts, |acts|) <= Measure(trace[0])
    ensures var s := trace[|acts|];
            forall id :: id in s.cells ==>
              (s.cells[id].job.status == Completed || id in s.queue.dead <==> !ParkedIn(s.queue, id))
  {
    WorkBounded(trace, acts);
    RunKeeps(trace, acts, |acts|);
    S.RunSlots(trace, acts, |acts|);
    StuckIsDrained(trace[|acts|]);
  }

  // ------------------------------------------------- and draining is possible

  ghost predicate Drains(s: State, trace: seq<State>, acts: seq<Action>) {
    && IsRun(trace, acts) && trace[0] == s && NoSubmits(acts)
    && Stuck(trace[|acts|])
  }

  lemma PrependAction(s: State, a: Action, trace: seq<State>, acts: seq<Action>)
    requires Enabled(s, a) && !a.Submit? && Drains(Apply(s, a), trace, acts)
    ensures Drains(s, [s] + trace, [a] + acts)
  {}

  lemma ProductiveStep(s: State, a: Action)
    requires Inv(s) && Enabled(s, a) && Productive(s, a)
    ensures !a.Submit? && Inv(Apply(s, a)) && 0 <= Measure(Apply(s, a)) < Measure(s)
  {
    StepKeeps(s, a);
    StepDecreases(s, a);
    WeightsNatural(Apply(s, a));
  }

  /** From every reachable state some run without new requests drains the service. */
  lemma {:induction false} DrainPossible(s: State) returns (trace: seq<State>, acts: seq<Action>)
    requires Inv(s)
    ensures Drains(s, trace, acts)
    decreases Measure(s)
  {
    if Stuck(s) {
      trace, acts := [s], [];
    } else {
      var a :| Enabled(s, a) && Productive(s, a);
      ProductiveStep(s, a);
      trace, acts := DrainPossible(Apply(s, a));
      PrependAction(s, a, trace, acts);
      trace, acts := [s] + trace, [a] + acts;
    }
  }
}
