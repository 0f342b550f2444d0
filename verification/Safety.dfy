/** What the invariant means for every run of the service: one place per job, one
    worker per job, no more jobs than slots, and a status that agrees with the place. */
module Safety {
  import opened Domain
  import opened System
  import opened Invariant
  import MapSum
  import Q = MemoryQueueSpec

  // ------------------------------------------------- exactly one place, once

  lemma {:induction false} CountNoDup(s: seq<Id>, id: Id)
    requires Q.NoDup(s)
    ensures multiset(s)[id] == if id in s then 1 else 0
  {
    if s != [] {
      var n := |s| - 1;
      assert s == s[..n] + [s[n]];
      CountNoDup(s[..n], id);
    }
  }

  /** How often an id occurs in the active lists of all priorities together. */
  ghost function InLists(q: Q.MemQueue, id: Id): int {
    MapSum.Sum(q.queues, (ids: seq<Id>) => multiset(ids)[id])
  }

  ghost function HoldersOf(s: State, id: Id): set<Slot> {
    set k | k in s.slots && Holds(s.slots[k]) && s.slots[k].id == id
  }

  /** How often an id occurs over the active lists, the delayed map, the dead
      letters, the worker slots and the completed jobs. */
  ghost function Occurrences(s: State, id: Id): int
    requires id in s.cells
  {
    InLists(s.queue, id)
    + (if id in s.queue.delayed then 1 else 0)
    + multiset(s.queue.dead)[id]
    + |HoldersOf(s, id)|
    + (if s.cells[id].job.status == Completed then 1 else 0)
  }

  lemma {:induction false} NoneListed(queues: map<int, seq<Id>>, id: Id)
    requires forall p :: p in queues ==> id !in queues[p]
    ensures MapSum.Sum(queues, (ids: seq<Id>) => multiset(ids)[id]) == 0
    decreases |queues|
  {
    if |queues| != 0 {
      var p := MapSum.Pick(queues);
      MapSum.Shrinks(queues, p);
      MapSum.Remove(queues, (ids: seq<Id>) => multiset(ids)[id], p);
      NoneListed(queues - {p}, id);
    }
  }

  lemma InListsCount(s: State, id: Id)
    requires ListsOk(s)
    ensures InLists(s.queue, id) == if Located(s, id, Active) then 1 else 0
  {
    var queues := s.queue.queues;
    assert forall p :: p in queues ==> queues[p] == Q.Listed(s.queue, p);
    if Located(s, id, Active) {
      var p := s.cells[id].job.priority;
      CountNoDup(Q.Listed(s.queue, p), id);
      MapSum.Remove(queues, (ids: seq<Id>) => multiset(ids)[id], p);
      NoneListed(queues - {p}, id);
    } else {
      NoneListed(queues, id);
    }
  }

  lemma HoldersCount(s: State, id: Id)
    requires SlotsOk(s) && id in s.cells
    ensures HoldersOf(s, id) == if s.cells[id].place.Held? then {s.cells[id].place.slot} else {}
  {}

  /** In every reachable state every enqueued job is in exactly one place, exactly
      once; a job saved but not yet enqueued is in none. */
  lemma ExactlyOnePlace(trace: seq<State>, acts: seq<Action>, runners: seq<nat>, i: nat, id: Id)
    requires IsSystemRun(trace, acts, runners) && i < |trace| && id in trace[i].cells
    ensures var s := trace[i];
            Occurrences(s, id) == if id in s.requests && s.requests[id].ToEnqueue? then 0 else 1
  {
    var s := trace[i];
    Always(trace, acts, runners, i);
    InListsCount(s, id);
    HoldersCount(s, id);
    CountNoDup(s.queue.dead, id);
    HeldPhase(s, id);
  }

  /** No two slots ever have the same job in hand. */
  lemma OneWorkerPerJob(trace: seq<State>, acts: seq<Action>, runners: seq<nat>, i: nat, j: Slot, k: Slot)
    requires IsSystemRun(trace, acts, runners) && i < |trace|
    requires j in trace[i].slots && k in trace[i].slots
    requires Holds(trace[i].slots[j]) && Holds(trace[i].slots[k]) && trace[i].slots[j].id == trace[i].slots[k].id
    ensures j == k
  {
    Always(trace, acts, runners, i);
  }

  // ------------------------------------------------ slots and their capacity

  lemma PromoteStep(s: State, t: Time, iteration: seq<Id>)
    requires Inv(s) && Enabled(s, Promote(t, iteration))
    ensures var s' := Apply(s, Promote(t, iteration));
            && s' == s.(now := t, queue := Q.ProcessDelayed(s.queue, t, iteration), cells := s'.cells)
            && s'.cells.Keys == s.cells.Keys
            && forall id :: id in s.cells ==>
                 s'.cells[id] == if id in s.queue.delayed && s.queue.delayed[id] <= t
                                 then s.cells[id].(job := s.cells[id].job.(status := Pending), place := Active)
                                 else s.cells[id]
  {
    Q.DueIsExact(s.queue, t, iteration);
    PromoteAllEffect(s.(now := t), Q.Due(s.queue, t, iteration));
  }

  lemma WorkSlots(s: State, k: Slot, op: SlotOp)
    requires CanWork(s, k, op) && !op.Dequeue? && s.slots[k].id in s.cells
    ensures var s' := WorkOn(s, k, s.slots[k].id, op);
            && s'.slots == s.slots[k := s'.slots[k]]
            && s'.handlers == s.handlers && s'.oor == s.oor && s.now <= s'.now
  {}

  lemma StepSlots(s: State, a: Action)
    requires Inv(s) && Enabled(s, a)
    ensures Apply(s, a).slots.Keys == s.slots.Keys
    ensures Apply(s, a).handlers == s.handlers && Apply(s, a).oor == s.oor && s.now <= Apply(s, a).now
  {
    match a
    case Promote(t, iteration) => PromoteStep(s, t, iteration);
    case Work(k, op) =>
      if op != Dequeue {
        WorkSlots(s, k, op);
      }
    case _ =>
  }

  lemma OtherSlots(s: State, a: Action, k: Slot)
    requires Inv(s) && Enabled(s, a) && (a.Work? ==> a.k != k)
    ensures k in Apply(s, a).slots <==> k in s.slots
    ensures k in s.slots ==> Apply(s, a).slots[k] == s.slots[k]
  {
    if a.Promote? {
      PromoteStep(s, a.t, a.iteration);
    } else if a.Work? && !a.op.Dequeue? {
      WorkSlots(s, a.k, a.op);
    }
  }

  lemma {:induction false} RunSlots(trace: seq<State>, acts: seq<Action>, i: nat)
    requires IsRun(trace, acts) && Inv(trace[0]) && i < |trace|
    ensures trace[i].slots.Keys == trace[0].slots.Keys
    ensures trace[i].handlers == trace[0].handlers && trace[i].oor == trace[0].oor
  {
    if i > 0 {
      RunSlots(trace, acts, i - 1);
      RunKeeps(trace, acts, i - 1);
      StepSlots(trace[i - 1], acts[i - 1]);
    }
  }

  /** The jobs that the slots of runner `r` have in hand. */
  ghost function HeldByRunner(s: State, r: nat): set<Id> {
    set k | k in s.slots && Holds(s.slots[k]) && k.runner == r :: s.slots[k].id
  }

  ghost function FirstSlots(r: nat, n: nat): (ks: set<Slot>)
    ensures |ks| == n
    ensures forall k: Slot :: k in ks <==> k.runner == r && k.number < n
  {
    if n == 0 then {} else FirstSlots(r, n - 1) + {Slot(r, n - 1)}
  }

  lemma {:induction false} Injects<A, B>(places: map<A, B>, range: set<B>)
    requires forall a :: a in places ==> places[a] in range
    requires forall a, b :: a in places && b in places && a != b ==> places[a] != places[b]
    ensures |places| <= |range|
    decreases |places|
  {
    if |places| != 0 {
      var a := MapSum.Pick(places);
      MapSum.Shrinks(places, a);
      Injects(places - {a}, range - {places[a]});
    }
  }

  lemma HeldFitsSlots(s: State, r: nat, n: nat)
    requires SlotsOk(s)
    requires forall k: Slot :: k in s.slots && k.runner == r ==> k.number < n
    ensures |HeldByRunner(s, r)| <= n
  {
    forall id | id in HeldByRunner(s, r)
      ensures id in s.cells && s.cells[id].place.Held?
    {
      var k :| k in s.slots && Holds(s.slots[k]) && k.runner == r && s.slots[k].id == id;
    }
    var places := map id | id in HeldByRunner(s, r) :: s.cells[id].place.slot;
    assert places.Keys == HeldByRunner(s, r);
    forall id | id in places
      ensures places[id] in FirstSlots(r, n)
      ensures places[id] in s.slots && Holds(s.slots[places[id]]) && s.slots[places[id]].id == id
    {
      var k :| k in s.slots && Holds(s.slots[k]) && k.runner == r && s.slots[k].id == id;
    }
    Injects(places, FirstSlots(r, n));
  }

  /** The number that decimal digits stand for. */
  function Numeral(digits: string): int {
    if digits == "" then 0
    else 10 * Numeral(digits[..|digits| - 1]) + (digits[|digits| - 1] as int - '0' as int)
  }

  lemma DigitRead(d: nat)
    requires d < 10
    ensures "0123456789"[d] != '-' && "0123456789"[d] as int - '0' as int == d
  {}

  lemma LastDigit(n: nat)
    ensures var before := if n < 10 then "" else Digits(n / 10); Digits(n) == before + ["0123456789"[n % 10]]
  {}

  lemma NumeralLast(digits: string, c: char)
    ensures Numeral(digits + [c]) == 10 * Numeral(digits) + (c as int - '0' as int)
  {
    assert (digits + [c])[..|digits|] == digits;
  }

  lemma {:induction false} DigitsRead(n: nat)
    ensures Numeral(Digits(n)) == n && '-' !in Digits(n)
  {
    if n >= 10 {
      DigitsRead(n / 10);
    }
    LastDigit(n);
    DigitRead(n % 10);
    NumeralLast(if n < 10 then "" else Digits(n / 10), "0123456789"[n % 10]);
  }

  lemma OneSeparator(a: string, b: string, c: string, d: string)
    requires a + "-" + b == c + "-" + d && '-' !in a && '-' !in c
    ensures a == c && b == d
  {
    var s := a + "-" + b;
    assert s[|a|] == '-' && s[|c|] == '-';
    assert |a| == |c|;
    assert a == s[..|a|] && c == s[..|c|];
    assert b == s[|a| + 1..] && d == s[|c| + 1..];
  }

  /** Different worker slots go by different names, so a history record tells its slot. */
  lemma WorkerNamesDiffer(j: Slot, k: Slot)
    requires WorkerName(j) == WorkerName(k)
    ensures j == k
  {
    DigitsRead(j.runner);
    DigitsRead(j.number);
    DigitsRead(k.runner);
    DigitsRead(k.number);
    OneSeparator(Digits(j.runner), Digits(j.number), Digits(k.runner), Digits(k.number));
  }

  /** A runner never holds more jobs than its maxConcurrent. */
  lemma RunnerCapacity(trace: seq<State>, acts: seq<Action>, runners: seq<nat>, i: nat, r: nat)
    requires IsSystemRun(trace, acts, runners) && i < |trace| && r < |runners|
    ensures |HeldByRunner(trace[i], r)| <= runners[r]
  {
    Always(trace, acts, runners, i);
    InitInv(trace[0], runners);
    RunSlots(trace, acts, i);
    assert forall k: Slot :: k in trace[i].slots ==> k in trace[0].slots;
    HeldFitsSlots(trace[i], r, runners[r]);
  }

  // ---------------------------------------------- status agrees with location

  /** Status and location agree in every reachable state, also while a slot is
      still busy with the trailing UpdateJob of a job it has put back. */
  lemma StatusAgrees(trace: seq<State>, acts: seq<Action>, runners: seq<nat>, i: nat, id: Id)
    requires IsSystemRun(trace, acts, runners) && i < |trace| && id in trace[i].cells
    ensures var s := trace[i];
            var j := s.cells[id].job;
            && (forall p :: id in Q.Listed(s.queue, p) ==> j.status == Pending && j.priority == p)
            && (id in s.queue.delayed ==> j.status == Scheduled && s.queue.delayed[id] == j.scheduledAt)
            && (id in s.queue.dead <==> j.status == Dead && HoldersOf(s, id) == {})
            && (j.status == Failed ==> exists k :: k in HoldersOf(s, id) && s.slots[k].Failing?)
            && (j.status == Processing ==> HoldersOf(s, id) != {})
  {
    var s := trace[i];
    Always(trace, acts, runners, i);
    HoldersCount(s, id);
    HeldPhase(s, id);
    assert s.cells[id].place.Held? ==> s.cells[id].place.slot in HoldersOf(s, id);
  }
}
