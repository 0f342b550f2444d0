/** The inductive invariant of the service: every job is in exactly one place, its
    status says which, and its attempts and times fit its retry policy. */
module Invariant {
  import opened Domain
  import opened System
  import Q = MemoryQueueSpec

  // ------------------------------------------------------- one job by itself

  function Failures(c: Cell): int {
    c.job.retry.currentAttempts - c.origin.currentAttempts
  }

  /** The earliest time for processing after `m` failures. */
  ghost function ReadyAt(c: Cell, m: int, oor: Int64): Time {
    c.job.createdAt + DelaySum(c.origin, m, oor)
  }

  /** Only the attempt counter and the last attempt's time differ from the policy submitted. */
  predicate PolicyKept(c: Cell) {
    Failures(c) >= 0 &&
    c.job.retry == c.origin.(currentAttempts := c.job.retry.currentAttempts, lastAttemptAt := c.job.retry.lastAttemptAt)
  }

  /** Between attempts, with at least one left. */
  predicate Waiting(c: Cell) {
    |c.ledger| == Failures(c) < Budget(c.origin)
  }

  predicate Exhausted(c: Cell) {
    |c.ledger| == Failures(c) == Budget(c.origin)
  }

  /** Status, attempts and times of a job that no worker holds. */
  ghost predicate PlaceOk(c: Cell, now: Time, oor: Int64) {
    match c.place
    case Saved =>
      && Waiting(c) && Failures(c) == 0
      && (c.job.status == Pending || (c.job.status == Scheduled && c.job.createdAt <= c.job.scheduledAt))
    case Active => c.job.status == Pending && Waiting(c) && ReadyAt(c, Failures(c), oor) <= now
    case Delayed => c.job.status == Scheduled && Waiting(c) && ReadyAt(c, Failures(c), oor) <= c.job.scheduledAt
    case Held(_) => true
    case Buried => c.job.status == Dead && Exhausted(c)
    case Done => c.job.status == Completed && |c.ledger| == Failures(c) + 1 <= Budget(c.origin)
    case Lost => false
  }

  predicate Holds(pc: Pc) {
    pc.Taken? || pc.Marked? || pc.Running? || pc.Returned? || pc.Failing? || pc.Retrying? || pc.Burying?
  }

  /** Status, attempts and times of the job that a slot holds at `pc`. */
  ghost predicate HoldOk(pc: Pc, c: Cell, now: Time, oor: Int64)
    requires Holds(pc)
  {
    match pc
    case Taken(_) =>
      c.job.status == Pending && Waiting(c) && ReadyAt(c, Failures(c), oor) <= now
    case Marked(_) =>
      c.job.status == Processing && Waiting(c) && ReadyAt(c, Failures(c), oor) <= now
    case Running(_, _) =>
      && c.job.status == Processing && |c.ledger| == Failures(c) + 1 <= Budget(c.origin)
      && ReadyAt(c, Failures(c), oor) <= now
    case Returned(_, _, _) =>
      && c.job.status == Processing && |c.ledger| == Failures(c) + 1 <= Budget(c.origin)
      && ReadyAt(c, Failures(c), oor) <= now
    case Failing(_, _) =>
      && c.job.status == Failed && 1 <= |c.ledger| == Failures(c) <= Budget(c.origin)
      && c.job.retry.lastAttemptAt.Some? && ReadyAt(c, Failures(c) - 1, oor) <= c.job.retry.lastAttemptAt.value
    case Retrying(_, _) =>
      c.job.status == Scheduled && Waiting(c) && ReadyAt(c, Failures(c), oor) <= c.job.scheduledAt
    case Burying(_, _) =>
      c.job.status == Dead && Exhausted(c)
  }

  ghost predicate CellOk(id: Id, c: Cell, now: Time, oor: Int64) {
    c.job.id == id && PolicyKept(c) && c.job.createdAt <= now && PlaceOk(c, now, oor)
  }

  // ------------------------------------------------------ all jobs together

  ghost predicate CellsOk(s: State) {
    forall id :: id in s.cells ==> CellOk(id, s.cells[id], s.now, s.oor)
  }

  ghost predicate SlotsOk(s: State) {
    && (forall k :: k in s.slots && !s.slots[k].Idle? ==> s.slots[k].id in s.cells)
    && (forall k :: k in s.slots && Holds(s.slots[k]) ==>
          s.cells[s.slots[k].id].place == Held(k) && HoldOk(s.slots[k], s.cells[s.slots[k].id], s.now, s.oor))
    && (forall id :: id in s.cells && s.cells[id].place.Held? ==>
          var k := s.cells[id].place.slot;
          k in s.slots && Holds(s.slots[k]) && s.slots[k].id == id)
  }

  ghost predicate ListsOk(s: State) {
    && (forall p, id :: id in Q.Listed(s.queue, p) ==>
          id in s.cells && s.cells[id].place == Active && s.cells[id].job.priority == p)
    && (forall id :: id in s.cells && s.cells[id].place == Active ==> id in Q.Listed(s.queue, s.cells[id].job.priority))
    && (forall p :: Q.NoDup(Q.Listed(s.queue, p)))
  }

  ghost predicate DelayedOk(s: State) {
    && (forall id :: id in s.queue.delayed ==>
          id in s.cells && s.cells[id].place == Delayed && s.queue.delayed[id] == s.cells[id].job.scheduledAt)
    && (forall id :: id in s.cells && s.cells[id].place == Delayed ==> id in s.queue.delayed)
  }

  ghost predicate DeadOk(s: State) {
    && (forall id :: id in s.queue.dead ==> id in s.cells && s.cells[id].place == Buried)
    && (forall id :: id in s.cells && s.cells[id].place == Buried ==> id in s.queue.dead)
    && Q.NoDup(s.queue.dead)
  }

  ghost predicate RequestsOk(s: State) {
    && (forall id :: id in s.requests ==> id in s.cells && (s.requests[id].ToEnqueue? <==> s.cells[id].place == Saved))
    && (forall id :: id in s.cells && s.cells[id].place == Saved ==> id in s.requests)
  }

  ghost predicate IndexOk(s: State) {
    && s.stored == s.cells.Keys
    && (forall id :: id in s.queue.index ==> id in s.cells && s.queue.index[id] == s.cells[id].job.priority)
    && (forall id :: id in s.cells && s.cells[id].place != Saved ==> id in s.queue.index)
  }

  ghost predicate Inv(s: State) {
    CellsOk(s) && SlotsOk(s) && ListsOk(s) && DelayedOk(s) && DeadOk(s) && RequestsOk(s) && IndexOk(s)
  }

  /** What a worker's program point says about the job it holds. */
  lemma HeldPhase(s: State, id: Id)
    requires SlotsOk(s) && id in s.cells
    ensures s.cells[id].place.Held? ==>
              var k := s.cells[id].place.slot;
              k in s.slots && Holds(s.slots[k]) && s.slots[k].id == id && HoldOk(s.slots[k], s.cells[id], s.now, s.oor)
  {}

  // ------------------------------------------------------ steps, by their kind

  lemma InitInv(s: State, runners: seq<nat>)
    requires Init(s, runners)
    ensures Inv(s)
  {}

  /** Time passing changes nothing. */
  lemma TickKeeps(s: State, t: Time)
    requires Inv(s) && s.now <= t
    ensures Inv(s.(now := t))
  {
    TickCells(s, t);
    TickSlots(s, t);
    assert ListsOk(s.(now := t));
  }

  lemma TickCells(s: State, t: Time)
    requires CellsOk(s) && s.now <= t
    ensures CellsOk(s.(now := t))
  {}

  lemma TickSlots(s: State, t: Time)
    requires SlotsOk(s) && s.now <= t
    ensures SlotsOk(s.(now := t))
  {}

  /** The collections do not notice a change of a job that stays where it is. */
  ghost predicate CollectionsOk(s: State) {
    ListsOk(s) && DelayedOk(s) && DeadOk(s) && RequestsOk(s) && IndexOk(s)
  }

  lemma CollectionsFrame(s: State, id: Id, c: Cell, s': State)
    requires CollectionsOk(s) && id in s.cells
    requires s'.cells == s.cells[id := c]
    requires s'.queue == s.queue && s'.requests == s.requests && s'.stored == s.stored
    requires c.place == s.cells[id].place && c.job.priority == s.cells[id].job.priority
    requires c.job.scheduledAt == s.cells[id].job.scheduledAt || !c.place.Delayed?
    ensures CollectionsOk(s')
  {}

  lemma CellsFrame(s: State, id: Id, c: Cell, s': State)
    requires CellsOk(s) && s.now <= s'.now && s'.oor == s.oor
    requires s'.cells == s.cells[id := c]
    requires CellOk(id, c, s'.now, s'.oor)
    ensures CellsOk(s')
  {}

  lemma SlotsFrame(s: State, k: Slot, id: Id, c: Cell, pc: Pc, s': State)
    requires SlotsOk(s) && k in s.slots && id in s.cells && s.now <= s'.now && s'.oor == s.oor
    requires s'.cells == s.cells[id := c] && s'.slots == s.slots[k := pc]
    requires forall j :: j in s.slots && Holds(s.slots[j]) && s.slots[j].id == id ==> j == k
    requires !pc.Idle? ==> pc.id == id
    requires Holds(pc) ==> HoldOk(pc, c, s'.now, s'.oor)
    requires Holds(s.slots[k]) ==> s.slots[k].id == id
    requires Holds(pc) <==> c.place == Held(k)
    requires c.place.Held? ==> c.place == Held(k)
    ensures SlotsOk(s')
  {
    forall j | j in s'.slots && Holds(s'.slots[j])
      ensures s'.cells[s'.slots[j].id].place == Held(j)
      ensures HoldOk(s'.slots[j], s'.cells[s'.slots[j].id], s'.now, s'.oor)
    {
      if j != k {
        assert s.slots[j].id != id;
        HeldLonger(s.slots[j], s.cells[s.slots[j].id], s.now, s'.now, s.oor);
      }
    }
    HeldBack(s, k, id, c, pc, s');
  }

  /** What a slot knows of its job stays true as time passes. */
  lemma HeldLonger(pc: Pc, c: Cell, now: Time, now': Time, oor: Int64)
    requires now <= now' && Holds(pc) && HoldOk(pc, c, now, oor)
    ensures HoldOk(pc, c, now', oor)
  {}

  lemma HeldBack(s: State, k: Slot, id: Id, c: Cell, pc: Pc, s': State)
    requires SlotsOk(s) && k in s.slots && id in s.cells
    requires s'.cells == s.cells[id := c] && s'.slots == s.slots[k := pc]
    requires !pc.Idle? ==> pc.id == id
    requires Holds(s.slots[k]) ==> s.slots[k].id == id
    requires Holds(pc) <==> c.place == Held(k)
    requires c.place.Held? ==> c.place == Held(k)
    ensures forall j :: j in s'.cells && s'.cells[j].place.Held? ==>
              var i := s'.cells[j].place.slot; i in s'.slots && Holds(s'.slots[i]) && s'.slots[i].id == j
  {}

  /** Equal but for the update time and the whereabouts of history records. */
  predicate Alike(c: Cell, d: Cell) {
    && d == c.(job := c.job.(updatedAt := d.job.updatedAt), ledger := d.ledger)
    && |d.ledger| == |c.ledger|
  }

  lemma AlikeHold(pc: Pc, c: Cell, d: Cell, now: Time, now': Time, oor: Int64)
    requires Alike(c, d) && now <= now' && Holds(pc) && HoldOk(pc, c, now, oor)
    ensures HoldOk(pc, d, now', oor)
  {}

  lemma TrailingSlots(s: State, k: Slot, id: Id, c: Cell, pc: Pc, s': State)
    requires SlotsOk(s) && k in s.slots && id in s.cells && s.now <= s'.now && s'.oor == s.oor
    requires s'.cells == s.cells[id := c] && s'.slots == s.slots[k := pc]
    requires Alike(s.cells[id], c) && !Holds(s.slots[k])
    requires !Holds(pc) && (pc.Idle? || pc.id == id)
    ensures SlotsOk(s')
  {
    forall j | j in s'.slots && Holds(s'.slots[j])
      ensures s'.cells[s'.slots[j].id].place == Held(j)
      ensures HoldOk(s'.slots[j], s'.cells[s'.slots[j].id], s'.now, s'.oor)
    {
      var i := s.slots[j].id;
      assert Alike(s.cells[i], s'.cells[i]);
      AlikeHold(s.slots[j], s.cells[i], s'.cells[i], s.now, s'.now, s.oor);
    }
  }

  // ------------------------------------------------ steps that move a job

  predicate Located(s: State, id: Id, place: Place) {
    id in s.cells && s.cells[id].place == place
  }

  /** A job that no slot holds, before or after, is no concern of the slots. */
  lemma UnheldMove(s: State, id: Id, c: Cell, s': State)
    requires SlotsOk(s) && s.now <= s'.now && s'.oor == s.oor
    requires s'.cells == s.cells[id := c] && s'.slots == s.slots
    requires id in s.cells ==> !s.cells[id].place.Held?
    requires !c.place.Held?
    ensures SlotsOk(s')
  {}

  lemma ListsIgnore(s: State, id: Id, c: Cell, s': State)
    requires ListsOk(s) && s'.queue.queues == s.queue.queues && s'.cells == s.cells[id := c]
    requires !Located(s, id, Active) && c.place != Active
    ensures ListsOk(s')
  {
    assert forall p :: Q.Listed(s'.queue, p) == Q.Listed(s.queue, p);
  }

  lemma ListsAppend(s: State, id: Id, c: Cell, s': State)
    requires ListsOk(s) && s'.cells == s.cells[id := c]
    requires !Located(s, id, Active) && c.place == Active
    requires s'.queue.queues == s.queue.queues[c.job.priority := Q.Listed(s.queue, c.job.priority) + [id]]
    ensures ListsOk(s')
  {
    var P := c.job.priority;
    forall p
      ensures forall i :: i in Q.Listed(s'.queue, p) <==> i in Q.Listed(s.queue, p) || (p == P && i == id)
      ensures Q.NoDup(Q.Listed(s'.queue, p))
    {
      AppendedList(s.queue, s'.queue, P, id, p);
      assert id !in Q.Listed(s.queue, p);
    }
  }

  lemma AppendedList(q: Q.MemQueue, q': Q.MemQueue, P: int, id: Id, p: int)
    requires q'.queues == q.queues[P := Q.Listed(q, P) + [id]]
    ensures forall i :: i in Q.Listed(q', p) <==> i in Q.Listed(q, p) || (p == P && i == id)
    ensures Q.NoDup(Q.Listed(q, p)) && id !in Q.Listed(q, p) ==> Q.NoDup(Q.Listed(q', p))
  {
    AppendNoDup(Q.Listed(q, p), id);
  }

  lemma AppendNoDup(ids: seq<Id>, id: Id)
    ensures Q.NoDup(ids) && id !in ids ==> Q.NoDup(ids + [id])
  {}

  lemma ListsPop(s: State, id: Id, c: Cell, s': State)
    requires ListsOk(s) && Located(s, id, Active) && s'.cells == s.cells[id := c] && c.place != Active
    requires var p := s.cells[id].job.priority;
             && Q.Listed(s.queue, p) != [] && Q.Listed(s.queue, p)[0] == id
             && s'.queue.queues == s.queue.queues[p := Q.Listed(s.queue, p)[1..]]
    ensures ListsOk(s')
  {
    var P := s.cells[id].job.priority;
    forall p
      ensures Q.Listed(s'.queue, p) == if p == P then Q.Listed(s.queue, p)[1..] else Q.Listed(s.queue, p)
      ensures forall i :: i in Q.Listed(s'.queue, p) <==> i in Q.Listed(s.queue, p) && i != id
      ensures Q.NoDup(Q.Listed(s'.queue, p))
    {
      assert p == P ==> Q.Listed(s.queue, p) == [id] + Q.Listed(s.queue, p)[1..];
    }
  }

  lemma SubmitKeeps(s: State, id: Id, req: Request, c: Time, u: Time, d: Time, t: Time)
    requires Inv(s) && id !in s.cells && s.now <= c <= u <= d <= t
    ensures Inv(SubmitJob(s, id, NewJob(id, req, c, u, d, t)).(now := t))
  {
    var s' := SubmitJob(s, id, NewJob(id, req, c, u, d, t)).(now := t);
    NewCell(id, req, c, u, d, t, s.oor);
    CellsFrame(s, id, s'.cells[id], s');
    UnheldMove(s, id, s'.cells[id], s');
    SubmittedCollections(s, id, s'.cells[id], s');
  }

  lemma NewCell(id: Id, req: Request, c: Time, u: Time, d: Time, t: Time, oor: Int64)
    requires c <= u <= d <= t
    ensures var job := NewJob(id, req, c, u, d, t); CellOk(id, Cell(job, job.retry, [], Saved), t, oor)
  {}

  lemma SubmittedCollections(s: State, id: Id, c: Cell, s': State)
    requires CollectionsOk(s) && id !in s.cells && c.place == Saved
    requires s'.cells == s.cells[id := c] && s'.queue == s.queue
    requires s'.stored == s.stored + {id} && s'.requests == s.requests[id := ToEnqueue]
    ensures CollectionsOk(s')
  {
    ListsIgnore(s, id, c, s');
    SubmittedRequests(s, id, c, s');
    assert DelayedOk(s') && DeadOk(s');
  }

  lemma SubmittedRequests(s: State, id: Id, c: Cell, s': State)
    requires RequestsOk(s) && id !in s.cells && c.place == Saved
    requires s'.cells == s.cells[id := c] && s'.requests == s.requests[id := ToEnqueue]
    ensures RequestsOk(s')
  {}

  lemma DispatchKeeps(s: State, id: Id)
    requires Inv(s) && id in s.requests && s.requests[id].ToEnqueue?
    ensures Inv(DispatchJob(s, id))
  {
    var s' := DispatchJob(s, id);
    CellsFrame(s, id, s'.cells[id], s');
    UnheldMove(s, id, s'.cells[id], s');
    DispatchCollections(s, id);
  }

  lemma DispatchCollections(s: State, id: Id)
    requires CollectionsOk(s) && Located(s, id, Saved)
    ensures CollectionsOk(DispatchJob(s, id))
  {
    var s' := DispatchJob(s, id);
    if s.cells[id].job.status == Scheduled {
      ListsIgnore(s, id, s'.cells[id], s');
    } else {
      ListsAppend(s, id, s'.cells[id], s');
    }
  }

  lemma PromoteOneKeeps(s: State, id: Id)
    requires Inv(s) && id in s.queue.delayed && s.queue.delayed[id] <= s.now
    ensures Inv(PromoteOne(s, id))
  {
    var s' := PromoteOne(s, id);
    CellsFrame(s, id, s'.cells[id], s');
    UnheldMove(s, id, s'.cells[id], s');
    PromotedCollections(s, id);
  }

  lemma PromotedCollections(s: State, id: Id)
    requires CollectionsOk(s) && id in s.queue.delayed
    ensures CollectionsOk(PromoteOne(s, id))
  {
    var s' := PromoteOne(s, id);
    ListsAppend(s, id, s'.cells[id], s');
    assert DelayedOk(s');
  }

  lemma PromoteOneEffect(s: State, id: Id)
    requires id in s.queue.index && id in s.cells
    ensures var c := s.cells[id];
            PromoteOne(s, id) == s.(queue := Q.PromoteOne(s.queue, id),
                                    cells := s.cells[id := c.(job := c.job.(status := Pending), place := Active)])
  {}

  /** A promotion pass touches only the queue and the jobs it promotes. */
  lemma {:induction false} PromoteAllEffect(s: State, ids: seq<Id>)
    requires Q.NoDup(ids)
    requires forall id :: id in ids ==> id in s.queue.index && id in s.cells
    ensures PromoteAll(s, ids) == s.(queue := Q.PromoteAll(s.queue, ids), cells := PromoteAll(s, ids).cells)
    ensures PromoteAll(s, ids).cells.Keys == s.cells.Keys
    ensures forall id :: id in s.cells ==>
              PromoteAll(s, ids).cells[id] ==
              if id in ids then s.cells[id].(job := s.cells[id].job.(status := Pending), place := Active)
              else s.cells[id]
  {
    if ids != [] {
      var n := |ids| - 1;
      assert ids == ids[..n] + [ids[n]];
      var before := PromoteAll(s, ids[..n]);
      PromoteAllEffect(s, ids[..n]);
      assert before.queue.index == s.queue.index by {
        Q.PromoteAllEffect(s.queue, ids[..n]);
      }
      PromoteOneEffect(before, ids[n]);
      assert PromoteAll(s, ids) == PromoteOne(before, ids[n]);
    }
  }

  lemma {:induction false} PromoteAllKeeps(s: State, ids: seq<Id>)
    requires Inv(s) && Q.NoDup(ids)
    requires forall id :: id in ids ==> id in s.queue.delayed && s.queue.delayed[id] <= s.now
    ensures Inv(PromoteAll(s, ids))
  {
    if ids != [] {
      var n := |ids| - 1;
      assert ids == ids[..n] + [ids[n]];
      PromoteAllKeeps(s, ids[..n]);
      PromoteAllEffect(s, ids[..n]);
      Q.PromoteAllEffect(s.queue, ids[..n]);
      PromoteOneKeeps(PromoteAll(s, ids[..n]), ids[n]);
    }
  }

  lemma PromoteKeeps(s: State, t: Time, iteration: seq<Id>)
    requires Inv(s) && s.now <= t && Q.Enumerates(iteration, s.queue.delayed.Keys)
    ensures Inv(PromoteAll(s.(now := t), Q.Due(s.queue, t, iteration)))
  {
    TickKeeps(s, t);
    Q.DueIsExact(s.queue, t, iteration);
    PromoteAllKeeps(s.(now := t), Q.Due(s.queue, t, iteration));
  }

  lemma IndexedQueue(s: State)
    requires ListsOk(s) && IndexOk(s)
    ensures Q.Indexed(s.queue)
  {}

  /** A worker takes the head of a list of waiting jobs, or finds nothing. */
  lemma HeadTaken(s: State)
    requires ListsOk(s) && IndexOk(s)
    ensures var (q, got) := Q.Dequeue(s.queue, Q.RUNNER_ORDER);
            && (got.None? ==> q == s.queue)
            && (got.Some? ==>
                  && Located(s, got.value, Active)
                  && var p := s.cells[got.value].job.priority;
                     && Named(p) && Q.Listed(s.queue, p) != [] && Q.Listed(s.queue, p)[0] == got.value
                     && q == s.queue.(queues := s.queue.queues[p := Q.Listed(s.queue, p)[1..]]))
  {
    IndexedQueue(s);
    Q.RunnerTakesHighest(s.queue);
    var got := Q.Dequeue(s.queue, Q.RUNNER_ORDER).1;
    if got.Some? {
      assert got.value in Q.Listed(s.queue, s.queue.index[got.value]);
    }
  }

  lemma DequeueKeeps(s: State, k: Slot)
    requires Inv(s) && k in s.slots && s.slots[k].Idle?
    ensures Inv(TakeJob(s, k))
  {
    HeadTaken(s);
    var got := Q.Dequeue(s.queue, Q.RUNNER_ORDER).1;
    if got.Some? {
      var id, s' := got.value, TakeJob(s, k);
      CellsFrame(s, id, s'.cells[id], s');
      SlotsFrame(s, k, id, s'.cells[id], s'.slots[k], s');
      TakenCollections(s, k, id, s');
    }
  }

  lemma TakenCollections(s: State, k: Slot, id: Id, s': State)
    requires CollectionsOk(s) && Located(s, id, Active) && s'.cells == s.cells[id := s.cells[id].(place := Held(k))]
    requires s'.requests == s.requests && s'.stored == s.stored
    requires var p := s.cells[id].job.priority;
             && Q.Listed(s.queue, p) != [] && Q.Listed(s.queue, p)[0] == id
             && s'.queue == s.queue.(queues := s.queue.queues[p := Q.Listed(s.queue, p)[1..]])
    ensures CollectionsOk(s')
  {
    ListsPop(s, id, s'.cells[id], s');
    assert DelayedOk(s') && DeadOk(s');
  }

  /** A slot lets go of its job: to the delayed map, to the dead letters, or for good. */
  lemma ReleasedCollections(s: State, k: Slot, id: Id, c: Cell, s': State)
    requires CollectionsOk(s) && Located(s, id, Held(k)) && s'.cells == s.cells[id := c]
    requires s'.requests == s.requests && s'.stored == s.stored
    requires c.job.id == id && c.job.priority == s.cells[id].job.priority
    requires c.place != Held(k) && QueueFollows(s.cells[id], c, s.queue, s'.queue)
    ensures CollectionsOk(s')
  {
    ListsIgnore(s, id, c, s');
    assert DelayedOk(s');
    ReleasedDead(s, id, c, s');
    assert IndexOk(s');
  }

  lemma ReleasedDead(s: State, id: Id, c: Cell, s': State)
    requires DeadOk(s) && !Located(s, id, Buried) && s'.cells == s.cells[id := c]
    requires s'.queue.dead == if c.place == Buried then s.queue.dead + [id] else s.queue.dead
    ensures DeadOk(s')
  {
    AppendNoDup(s.queue.dead, id);
  }

  // --------------------------------------------- one operation of a worker

  /** Slot `k` is about to make `op` on the job `c`, which it may hold. */
  ghost predicate Ready(k: Slot, pc: Pc, c: Cell, op: SlotOp, now: Time, oor: Int64) {
    && !op.Dequeue? && At(pc, op) && Timely(now, op)
    && CellOk(pc.id, c, now, oor)
    && (Holds(pc) ==> c.place == Held(k) && HoldOk(pc, c, now, oor))
  }

  /** What an operation may do to the job and to the slot. */
  ghost predicate Handled(k: Slot, pc: Pc, c: Cell, e: Effect, now: Time, oor: Int64)
    requires !pc.Idle?
  {
    && CellOk(pc.id, e.cell, now, oor) && e.cell.job.priority == c.job.priority
    && (e.pc.Idle? || e.pc.id == pc.id)
    && (Holds(e.pc) ==> Holds(pc) && e.cell.place == Held(k) && HoldOk(e.pc, e.cell, now, oor))
    && (Holds(pc) && !Holds(e.pc) ==> !e.cell.place.Held?)
    && (!Holds(pc) ==> Alike(c, e.cell))
  }

  /** The collections that go with the place of a job that a slot has worked on. */
  predicate QueueFollows(c: Cell, d: Cell, q: Q.MemQueue, q': Q.MemQueue) {
    if d.place == c.place || d.place == Done then q' == q
    else if d.place == Delayed then q' == Q.EnqueueDelayed(q, d.job.id, d.job.priority, d.job.scheduledAt)
    else d.place == Buried && q' == Q.MoveToDeadLetter(q, d.job.id)
  }

  lemma StartHandled(k: Slot, pc: Pc, c: Cell, op: SlotOp, now: Time, oor: Int64, saved: nat)
    requires Ready(k, pc, c, op, now, oor) && (op.Mark? || op.Begin? || op.Return?)
    ensures Handled(k, pc, c, Local(k, pc, c, op, true, oor, saved), LastReading(now, op), oor)
  {}

  lemma OutcomeHandled(k: Slot, pc: Pc, c: Cell, op: SlotOp, now: Time, oor: Int64, saved: nat)
    requires Ready(k, pc, c, op, now, oor) && (op.Complete? || op.MarkFailed? || op.Release?)
    ensures Handled(k, pc, c, Local(k, pc, c, op, true, oor, saved), LastReading(now, op), oor)
  {}

  lemma TrailingHandled(k: Slot, pc: Pc, c: Cell, op: SlotOp, now: Time, oor: Int64, saved: nat)
    requires Ready(k, pc, c, op, now, oor) && !Holds(pc)
    ensures Handled(k, pc, c, Local(k, pc, c, op, true, oor, saved), LastReading(now, op), oor)
  {}

  /** After a failure the retry waits for its delay, or the budget is used up. */
  lemma DecisionOk(c: Cell, h: HistoryRecord, now: Time, t: Time, oor: Int64)
    requires PolicyKept(c) && HoldOk(Failing(c.job.id, h), c, now, oor)
    ensures CanRetry(c.job) ==> HoldOk(Retrying(c.job.id, h), c.(job := AsRetry(c.job, t, oor)), t, oor)
    ensures !CanRetry(c.job) ==> HoldOk(Burying(c.job.id, h), c.(job := AsDead(c.job, t)), t, oor)
  {
    assert Delay(c.job.retry, c.job.retry.currentAttempts, oor) == Delay(c.origin, c.job.retry.currentAttempts, oor);
    assert DelaySum(c.origin, Failures(c), oor) ==
           DelaySum(c.origin, Failures(c) - 1, oor) + Delay(c.origin, c.job.retry.currentAttempts, oor);
  }

  lemma DecisionHandled(k: Slot, pc: Pc, c: Cell, t: Time, now: Time, oor: Int64, saved: nat)
    requires Ready(k, pc, c, Decide(t), now, oor)
    ensures Handled(k, pc, c, Local(k, pc, c, Decide(t), true, oor, saved), t, oor)
  {
    DecisionOk(c, pc.h, now, t, oor);
  }

  lemma WorkHandled(k: Slot, pc: Pc, c: Cell, op: SlotOp, now: Time, oor: Int64, saved: nat)
    requires Ready(k, pc, c, op, now, oor)
    ensures Handled(k, pc, c, Local(k, pc, c, op, true, oor, saved), LastReading(now, op), oor)
  {
    if op.Mark? || op.Begin? || op.Return? {
      StartHandled(k, pc, c, op, now, oor, saved);
    } else if op.Complete? || op.MarkFailed? || op.Release? {
      OutcomeHandled(k, pc, c, op, now, oor, saved);
    } else if op.Decide? {
      DecisionHandled(k, pc, c, op.read, now, oor, saved);
    } else {
      TrailingHandled(k, pc, c, op, now, oor, saved);
    }
  }

  /** Only Release calls the queue, and it puts the job where it says. */
  lemma WorkFollows(k: Slot, pc: Pc, c: Cell, op: SlotOp, q: Q.MemQueue, oor: Int64, saved: nat)
    requires !op.Dequeue? && At(pc, op) && c.job.id == pc.id && (op.Release? ==> c.place == Held(k))
    ensures QueueFollows(c, Local(k, pc, c, op, true, oor, saved).cell, q, QueueAfter(q, pc, c.job, op))
  {}

  lemma HandledSlots(s: State, k: Slot, id: Id, e: Effect, s': State)
    requires SlotsOk(s) && k in s.slots && !s.slots[k].Idle? && s.slots[k].id == id
    requires s.now <= s'.now && s'.oor == s.oor
    requires s'.cells == s.cells[id := e.cell] && s'.slots == s.slots[k := e.pc]
    requires Handled(k, s.slots[k], s.cells[id], e, s'.now, s'.oor)
    ensures SlotsOk(s')
  {
    if Holds(s.slots[k]) {
      SlotsFrame(s, k, id, e.cell, e.pc, s');
    } else {
      TrailingSlots(s, k, id, e.cell, e.pc, s');
    }
  }

  lemma HandledCollections(s: State, k: Slot, id: Id, d: Cell, s': State)
    requires CollectionsOk(s) && id in s.cells && s'.cells == s.cells[id := d]
    requires s'.requests == s.requests && s'.stored == s.stored
    requires s.cells[id].place == Held(k) || Alike(s.cells[id], d)
    requires d.job.id == id && d.job.priority == s.cells[id].job.priority
    requires QueueFollows(s.cells[id], d, s.queue, s'.queue)
    ensures CollectionsOk(s')
  {
    if d.place == s.cells[id].place {
      CollectionsFrame(s, id, d, s');
    } else {
      ReleasedCollections(s, k, id, d, s');
    }
  }

  // ------------------------------------------------------------ every action

  /** The first UpdateJob finds the job: it was saved before it was enqueued. */
  lemma WorkReady(s: State, k: Slot, id: Id, op: SlotOp)
    requires CellsOk(s) && SlotsOk(s) && CanWork(s, k, op) && !op.Dequeue? && id == s.slots[k].id
    ensures id in s.cells && Ready(k, s.slots[k], s.cells[id], op, s.now, s.oor)
  {
    assert CellOk(id, s.cells[id], s.now, s.oor);
  }

  lemma WorkOnKeeps(s: State, k: Slot, id: Id, op: SlotOp)
    requires Inv(s) && CanWork(s, k, op) && !op.Dequeue? && id == s.slots[k].id
    ensures Inv(WorkOn(s, k, id, op))
  {
    WorkReady(s, k, id, op);
    var (pc, c, n) := (s.slots[k], s.cells[id], |Record(s, id)|);
    var e, s' := Local(k, pc, c, op, true, s.oor, n), WorkOn(s, k, id, op);
    WorkHandled(k, pc, c, op, s.now, s.oor, n);
    WorkFollows(k, pc, c, op, s.queue, s.oor, n);
    CellsFrame(s, id, e.cell, s');
    HandledSlots(s, k, id, e, s');
    HandledCollections(s, k, id, e.cell, s');
  }

  lemma CountScheduledKeeps(s: State, id: Id)
    requires Inv(s) && id in s.requests && s.requests[id].ToCount?
    ensures Inv(Apply(s, CountScheduled(id)))
  {
    var s' := Apply(s, CountScheduled(id));
    CountedRequests(s, id, s');
    CountedJobs(s, s');
    CountedQueue(s, s');
  }

  lemma CountedRequests(s: State, id: Id, s': State)
    requires RequestsOk(s) && id in s.requests && s.requests[id].ToCount?
    requires s'.cells == s.cells && s'.requests == s.requests - {id}
    ensures RequestsOk(s')
  {}

  lemma CountedJobs(s: State, s': State)
    requires CellsOk(s) && SlotsOk(s)
    requires s'.cells == s.cells && s'.slots == s.slots && s'.now == s.now && s'.oor == s.oor
    ensures CellsOk(s') && SlotsOk(s')
  {}

  lemma CountedQueue(s: State, s': State)
    requires ListsOk(s) && DelayedOk(s) && DeadOk(s) && IndexOk(s)
    requires s'.cells == s.cells && s'.queue == s.queue && s'.stored == s.stored
    ensures ListsOk(s') && DelayedOk(s') && DeadOk(s') && IndexOk(s')
  {}

  /** Every action keeps the invariant. */
  lemma StepKeeps(s: State, a: Action)
    requires Inv(s) && Enabled(s, a)
    ensures Inv(Apply(s, a))
  {
    match a
    case Tick(t) => TickKeeps(s, t);
    case Submit(id, req, c, u, d, k) => SubmitKeeps(s, id, req, c, u, d, k);
    case Dispatch(id) => DispatchKeeps(s, id);
    case CountScheduled(id) => CountScheduledKeeps(s, id);
    case Promote(t, iteration) => PromoteKeeps(s, t, iteration);
    case Work(k, op) =>
      if op.Dequeue? {
        DequeueKeeps(s, k);
      } else {
        WorkOnKeeps(s, k, s.slots[k].id, op);
      }
  }

  lemma {:induction false} RunKeeps(trace: seq<State>, acts: seq<Action>, i: nat)
    requires IsRun(trace, acts) && Inv(trace[0]) && i < |trace|
    ensures Inv(trace[i])
  {
    if i > 0 {
      RunKeeps(trace, acts, i - 1);
      StepKeeps(trace[i - 1], acts[i - 1]);
    }
  }

  /** The invariant holds in every state of every run of the service. */
  lemma Always(trace: seq<State>, acts: seq<Action>, runners: seq<nat>, i: nat)
    requires IsSystemRun(trace, acts, runners) && i < |trace|
    ensures Inv(trace[i])
  {
    InitInv(trace[0], runners);
    RunKeeps(trace, acts, i);
  }
}
