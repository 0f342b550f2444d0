/** The attempt history: whatever the interleaving, each attempt leaves exactly one
    record, with the right number, outcome and a start that respects the backoff. */
module HistoryLedger {
  import opened Domain
  import opened System
  import opened Invariant
  import S = Safety
  import L = Lifecycle
  import Q = MemoryQueueSpec

  /** The slot has made a history record and not saved it yet. */
  predicate Carries(pc: Pc) {
    !pc.Idle? && !pc.Taken? && !pc.Marked?
  }

  /** The record `h` is that of attempt `n` (from 0) of job `c`. */
  ghost predicate Fits(c: Cell, n: int, h: HistoryRecord, oor: Int64) {
    && h.jobId == c.job.id
    && h.attempt == c.origin.currentAttempts + n + 1
    && ReadyAt(c, n, oor) <= h.startedAt
    && (h.outcome == Unsuccessful <==> n < Failures(c))
    && (n >= Failures(c) ==> (h.outcome == Succeeded <==> c.place == Done))
  }

  predicate OutcomeAt(pc: Pc)
    requires Carries(pc)
  {
    if pc.Running? || pc.Returned? then pc.h.outcome == InProgress
    else if pc.Completing? || pc.Stored? then pc.h.outcome == Succeeded
    else if pc.Saving? then pc.h.outcome != InProgress
    else pc.h.outcome == Unsuccessful
  }

  /** The ledger's entry `n` leads to the record of attempt `n`. */
  ghost predicate Entry(s: State, id: Id, n: int)
    requires id in s.cells && 0 <= n < |s.cells[id].ledger|
  {
    var c := s.cells[id];
    match c.ledger[n]
    case InSlot(k) => k in s.slots && Carries(s.slots[k]) && s.slots[k].id == id && Fits(c, n, s.slots[k].h, s.oor)
    case InHistory(i) =>
      i < |Record(s, id)| && Fits(c, n, Record(s, id)[i], s.oor) && Record(s, id)[i].outcome != InProgress
  }

  function IndexIn(c: Cell, h: HistoryRecord): int {
    h.attempt - c.origin.currentAttempts - 1
  }

  /** The ledger leads back to the place where the record is. */
  predicate Leads(c: Cell, h: HistoryRecord, w: Whereabouts) {
    0 <= IndexIn(c, h) < |c.ledger| && c.ledger[IndexIn(c, h)] == w
  }

  ghost predicate EntriesOk(s: State) {
    forall id, n :: id in s.cells && 0 <= n < |s.cells[id].ledger| ==> Entry(s, id, n)
  }

  ghost predicate CarriersOk(s: State) {
    forall k :: k in s.slots && Carries(s.slots[k]) ==>
      s.slots[k].id in s.cells && Leads(s.cells[s.slots[k].id], s.slots[k].h, InSlot(k)) && OutcomeAt(s.slots[k])
  }

  ghost predicate RecordsOk(s: State) {
    && (forall id :: id in s.history ==> id in s.cells)
    && (forall id, i :: id in s.cells && 0 <= i < |Record(s, id)| ==>
          Leads(s.cells[id], Record(s, id)[i], InHistory(i)))
  }

  ghost predicate HistoryInv(s: State) {
    EntriesOk(s) && CarriersOk(s) && RecordsOk(s)
  }

  // ------------------------------------------- steps that touch no record

  /** As far as records are concerned, nothing happened to the job. */
  predicate SameAttempts(c: Cell, d: Cell) {
    && L.SameJob(c, d) && d.ledger == c.ledger && Failures(d) == Failures(c) && (d.place == Done <==> c.place == Done)
  }

  /** Nothing happened to the records, nor to the jobs and slots as far as they matter to them. */
  ghost predicate SameRecords(s: State, s': State) {
    && s'.history == s.history && s'.oor == s.oor
    && (forall id :: id in s.cells ==> id in s'.cells && SameAttempts(s.cells[id], s'.cells[id]))
    && (forall id :: id in s'.cells && id !in s.cells ==> s'.cells[id].ledger == [])
    && (forall k :: k in s'.slots && Carries(s'.slots[k]) ==> k in s.slots && s'.slots[k] == s.slots[k])
    && (forall k :: k in s.slots && Carries(s.slots[k]) ==> k in s'.slots && s'.slots[k] == s.slots[k])
  }

  lemma RecordFrame(s: State, s': State)
    requires HistoryInv(s) && SameRecords(s, s')
    ensures HistoryInv(s')
  {
    EntriesFrame(s, s');
    assert RecordsOk(s');
  }

  lemma EntriesFrame(s: State, s': State)
    requires EntriesOk(s) && SameRecords(s, s')
    ensures EntriesOk(s')
  {
    forall id, n | id in s'.cells && 0 <= n < |s'.cells[id].ledger|
      ensures Entry(s', id, n)
    {
      assert Entry(s, id, n);
    }
  }

  // ----------------------------------------- steps of a slot with a record

  /** A slot goes on with its record; the other records of the job still fit. */
  ghost predicate GoesOn(s: State, k: Slot, id: Id, c: Cell, pc: Pc)
    requires k in s.slots && Carries(s.slots[k]) && id in s.cells
  {
    && c.ledger == s.cells[id].ledger && L.SameJob(s.cells[id], c)
    && Carries(pc) && pc.id == id && pc.h.attempt == s.slots[k].h.attempt && OutcomeAt(pc)
    && var i := IndexIn(s.cells[id], s.slots[k].h);
       && Fits(c, i, pc.h, s.oor)
       && forall n, h :: n != i && 0 <= n < |c.ledger| && Fits(s.cells[id], n, h, s.oor) ==> Fits(c, n, h, s.oor)
  }

  lemma CarryFrame(s: State, k: Slot, id: Id, c: Cell, pc: Pc, s': State)
    requires HistoryInv(s) && k in s.slots && Carries(s.slots[k]) && s.slots[k].id == id && id in s.cells
    requires s'.cells == s.cells[id := c] && s'.slots == s.slots[k := pc] && s'.history == s.history && s'.oor == s.oor
    requires GoesOn(s, k, id, c, pc)
    ensures HistoryInv(s')
  {
    CarryEntries(s, k, id, c, pc, s');
    CarryCarriers(s, k, id, c, pc, s');
    assert RecordsOk(s');
  }

  lemma CarryEntries(s: State, k: Slot, id: Id, c: Cell, pc: Pc, s': State)
    requires EntriesOk(s) && CarriersOk(s) && RecordsOk(s)
    requires k in s.slots && Carries(s.slots[k]) && s.slots[k].id == id && id in s.cells
    requires s'.cells == s.cells[id := c] && s'.slots == s.slots[k := pc] && s'.history == s.history && s'.oor == s.oor
    requires GoesOn(s, k, id, c, pc)
    ensures EntriesOk(s')
  {
    forall j, n | j in s'.cells && 0 <= n < |s'.cells[j].ledger|
      ensures Entry(s', j, n)
    {
      assert Entry(s, j, n);
    }
  }

  lemma CarryCarriers(s: State, k: Slot, id: Id, c: Cell, pc: Pc, s': State)
    requires CarriersOk(s) && k in s.slots && Carries(s.slots[k]) && s.slots[k].id == id && id in s.cells
    requires s'.cells == s.cells[id := c] && s'.slots == s.slots[k := pc]
    requires GoesOn(s, k, id, c, pc)
    ensures CarriersOk(s')
  {}

  lemma CarryStep(s: State, k: Slot, op: SlotOp)
    requires HistoryInv(s) && s.stored == s.cells.Keys
    requires CanWork(s, k, op) && Carries(s.slots[k]) && !op.SaveHistory?
    requires var pc := s.slots[k]; pc.id in s.cells && Ready(k, pc, s.cells[pc.id], op, s.now, s.oor)
    ensures HistoryInv(WorkOn(s, k, s.slots[k].id, op))
  {
    var pc, id := s.slots[k], s.slots[k].id;
    var s' := WorkOn(s, k, id, op);
    assert Entry(s, id, IndexIn(s.cells[id], pc.h));
    CarryFits(k, pc, s.cells[id], op, s.now, s.oor, |Record(s, id)|);
    CarryFrame(s, k, id, s'.cells[id], s'.slots[k], s');
  }

  /** The running attempt is the last one, so a new outcome concerns no other record. */
  lemma CarryFits(k: Slot, pc: Pc, c: Cell, op: SlotOp, now: Time, oor: Int64, saved: nat)
    requires At(pc, op) && Carries(pc) && !op.SaveHistory? && OutcomeAt(pc)
    requires Holds(pc) ==> c.place == Held(k) && HoldOk(pc, c, now, oor)
    requires 0 <= IndexIn(c, pc.h) < |c.ledger| && Fits(c, IndexIn(c, pc.h), pc.h, oor)
    ensures var e := Local(k, pc, c, op, true, oor, saved);
            && e.cell.ledger == c.ledger && L.SameJob(c, e.cell)
            && Carries(e.pc) && e.pc.id == pc.id && e.pc.h.attempt == pc.h.attempt && OutcomeAt(e.pc)
            && Fits(e.cell, IndexIn(c, pc.h), e.pc.h, oor)
            && forall n, h :: n != IndexIn(c, pc.h) && 0 <= n < |c.ledger| && Fits(c, n, h, oor) ==>
                 Fits(e.cell, n, h, oor)
  {}

  /** A new attempt opens a record at the end of the ledger. */
  ghost predicate Opens(s: State, k: Slot, id: Id, c: Cell, pc: Pc)
    requires id in s.cells
  {
    && c.ledger == s.cells[id].ledger + [InSlot(k)]
    && SameAttempts(s.cells[id], c.(ledger := s.cells[id].ledger))
    && Carries(pc) && pc.id == id && OutcomeAt(pc) && Fits(c, |s.cells[id].ledger|, pc.h, s.oor)
  }

  lemma OpenFrame(s: State, k: Slot, id: Id, c: Cell, pc: Pc, s': State)
    requires HistoryInv(s) && k in s.slots && !Carries(s.slots[k]) && id in s.cells && Opens(s, k, id, c, pc)
    requires s'.cells == s.cells[id := c] && s'.slots == s.slots[k := pc] && s'.history == s.history && s'.oor == s.oor
    ensures HistoryInv(s')
  {
    OpenEntries(s, k, id, c, pc, s');
    OpenCarriers(s, k, id, c, pc, s');
    OpenRecords(s, k, id, c, pc, s');
  }

  lemma OpenEntries(s: State, k: Slot, id: Id, c: Cell, pc: Pc, s': State)
    requires EntriesOk(s) && k in s.slots && !Carries(s.slots[k]) && id in s.cells && Opens(s, k, id, c, pc)
    requires s'.cells == s.cells[id := c] && s'.slots == s.slots[k := pc] && s'.history == s.history && s'.oor == s.oor
    ensures EntriesOk(s')
  {
    forall j, n | j in s'.cells && 0 <= n < |s'.cells[j].ledger|
      ensures Entry(s', j, n)
    {
      if j != id || n < |s.cells[id].ledger| {
        assert Entry(s, j, n);
      }
    }
  }

  lemma OpenCarriers(s: State, k: Slot, id: Id, c: Cell, pc: Pc, s': State)
    requires CarriersOk(s) && id in s.cells && Opens(s, k, id, c, pc)
    requires s'.cells == s.cells[id := c] && s'.slots == s.slots[k := pc]
    ensures CarriersOk(s')
  {}

  lemma OpenRecords(s: State, k: Slot, id: Id, c: Cell, pc: Pc, s': State)
    requires RecordsOk(s) && id in s.cells && Opens(s, k, id, c, pc)
    requires s'.cells == s.cells[id := c] && s'.history == s.history
    ensures RecordsOk(s')
  {
    assert forall j :: Record(s', j) == Record(s, j);
  }

  lemma BeginStep(s: State, k: Slot, u: Time, t: Time)
    requires HistoryInv(s) && s.stored == s.cells.Keys && CanWork(s, k, Begin(u, t))
    requires var pc := s.slots[k]; pc.id in s.cells && Ready(k, pc, s.cells[pc.id], Begin(u, t), s.now, s.oor)
    ensures HistoryInv(WorkOn(s, k, s.slots[k].id, Begin(u, t)))
  {
    var id := s.slots[k].id;
    var s' := WorkOn(s, k, id, Begin(u, t));
    OpenFrame(s, k, id, s'.cells[id], s'.slots[k], s');
  }

  /** Saving moves a record from its slot to the end of the job's history. */
  ghost predicate Saves(s: State, k: Slot, id: Id, c: Cell, s': State) {
    && k in s.slots && s.slots[k].Saving? && s.slots[k].id == id && id in s.cells
    && s'.cells == s.cells[id := c] && s'.slots == s.slots[k := Idle] && s'.oor == s.oor
    && c == Filed(s.cells[id], s.slots[k].h, |Record(s, id)|)
    && s'.history == s.history[id := Record(s, id) + [s.slots[k].h]]
  }

  lemma SaveFrame(s: State, k: Slot, id: Id, c: Cell, s': State)
    requires HistoryInv(s) && Saves(s, k, id, c, s')
    ensures HistoryInv(s')
  {
    SaveEntries(s, k, id, c, s');
    SaveCarriers(s, k, id, c, s');
    SaveRecords(s, k, id, c, s');
  }

  /** The entries of the job whose record is saved. */
  lemma SavedEntry(s: State, k: Slot, id: Id, c: Cell, s': State, n: nat)
    requires EntriesOk(s) && CarriersOk(s) && Saves(s, k, id, c, s') && n < |c.ledger|
    ensures Entry(s', id, n)
  {
    assert Leads(s.cells[id], s.slots[k].h, InSlot(k));
    assert Entry(s, id, n);
  }

  lemma SaveEntries(s: State, k: Slot, id: Id, c: Cell, s': State)
    requires EntriesOk(s) && CarriersOk(s) && Saves(s, k, id, c, s')
    ensures EntriesOk(s')
  {
    forall j, n | j in s'.cells && 0 <= n < |s'.cells[j].ledger|
      ensures Entry(s', j, n)
    {
      if j == id {
        SavedEntry(s, k, id, c, s', n);
      } else {
        assert Entry(s, j, n);
      }
    }
  }

  lemma SaveCarriers(s: State, k: Slot, id: Id, c: Cell, s': State)
    requires CarriersOk(s) && Saves(s, k, id, c, s')
    ensures CarriersOk(s')
  {
    assert Leads(s.cells[id], s.slots[k].h, InSlot(k));
  }

  lemma SaveRecords(s: State, k: Slot, id: Id, c: Cell, s': State)
    requires CarriersOk(s) && RecordsOk(s) && Saves(s, k, id, c, s')
    ensures RecordsOk(s')
  {
    assert Leads(s.cells[id], s.slots[k].h, InSlot(k));
    forall j, i | j in s'.cells && 0 <= i < |Record(s', j)|
      ensures Leads(s'.cells[j], Record(s', j)[i], InHistory(i))
    {
      if j != id {
        assert Record(s', j) == Record(s, j);
      } else if i < |Record(s, id)| {
        assert Leads(s.cells[id], Record(s, id)[i], InHistory(i));
      }
    }
  }

  lemma SaveStep(s: State, k: Slot)
    requires HistoryInv(s) && CanWork(s, k, SaveHistory) && s.slots[k].id in s.cells
    ensures HistoryInv(WorkOn(s, k, s.slots[k].id, SaveHistory))
  {
    var id := s.slots[k].id;
    var s' := WorkOn(s, k, id, SaveHistory);
    SaveFrame(s, k, id, s'.cells[id], s');
  }

  lemma SubmitStep(s: State, id: Id, job: JobRecord, t: Time)
    requires HistoryInv(s) && id !in s.cells
    ensures HistoryInv(SubmitJob(s, id, job).(now := t))
  {
    RecordFrame(s, SubmitJob(s, id, job).(now := t));
  }

  lemma DispatchStep(s: State, id: Id)
    requires HistoryInv(s) && Located(s, id, Saved)
    ensures HistoryInv(DispatchJob(s, id))
  {
    RecordFrame(s, DispatchJob(s, id));
  }

  lemma PromoteHistory(s: State, t: Time, iteration: seq<Id>)
    requires Inv(s) && HistoryInv(s) && Enabled(s, Promote(t, iteration))
    ensures HistoryInv(Apply(s, Promote(t, iteration)))
  {
    S.PromoteStep(s, t, iteration);
    PromoteFrame(s, Apply(s, Promote(t, iteration)));
  }

  lemma PromoteFrame(s: State, s': State)
    requires HistoryInv(s) && s'.history == s.history && s'.oor == s.oor && s'.slots == s.slots
    requires s'.cells.Keys == s.cells.Keys
    requires forall id :: id in s.cells ==>
               || s'.cells[id] == s.cells[id]
               || (s.cells[id].place == Delayed &&
                   s'.cells[id] == s.cells[id].(job := s.cells[id].job.(status := Pending), place := Active))
    ensures HistoryInv(s')
  {
    RecordFrame(s, s');
  }

  lemma TakeFrame(s: State, k: Slot, id: Id, s': State)
    requires HistoryInv(s) && k in s.slots && s.slots[k].Idle? && Located(s, id, Active)
    requires s' == s.(queue := s'.queue, slots := s.slots[k := Taken(id)],
                      cells := s.cells[id := s.cells[id].(place := Held(k))])
    ensures HistoryInv(s')
  {
    RecordFrame(s, s');
  }

  lemma TakeStep(s: State, k: Slot)
    requires ListsOk(s) && IndexOk(s) && HistoryInv(s) && k in s.slots && s.slots[k].Idle?
    ensures HistoryInv(TakeJob(s, k))
  {
    HeadTaken(s);
    var got := Q.Dequeue(s.queue, Q.RUNNER_ORDER).1;
    if got.Some? {
      TakeFrame(s, k, got.value, TakeJob(s, k));
    }
  }

  lemma MarkStep(s: State, k: Slot, u: Time, t: Time)
    requires HistoryInv(s) && CanWork(s, k, Mark(u, t)) && s.slots[k].id in s.cells
    ensures HistoryInv(WorkOn(s, k, s.slots[k].id, Mark(u, t)))
  {
    RecordFrame(s, WorkOn(s, k, s.slots[k].id, Mark(u, t)));
  }

  lemma WorkStep(s: State, k: Slot, op: SlotOp)
    requires HistoryInv(s) && s.stored == s.cells.Keys && CanWork(s, k, op) && !op.Dequeue?
    requires var pc := s.slots[k]; pc.id in s.cells && Ready(k, pc, s.cells[pc.id], op, s.now, s.oor)
    ensures HistoryInv(WorkOn(s, k, s.slots[k].id, op))
  {
    if op.Mark? {
      MarkStep(s, k, op.updated, op.processed);
    } else if op.Begin? {
      BeginStep(s, k, op.updated, op.started);
    } else if op.SaveHistory? {
      SaveStep(s, k);
    } else {
      CarryStep(s, k, op);
    }
  }

  lemma TickStep(s: State, t: Time)
    requires HistoryInv(s)
    ensures HistoryInv(s.(now := t))
  {
    RecordFrame(s, s.(now := t));
  }

  lemma CountStep(s: State, id: Id)
    requires HistoryInv(s) && Enabled(s, CountScheduled(id))
    ensures HistoryInv(Apply(s, CountScheduled(id)))
  {
    RecordFrame(s, Apply(s, CountScheduled(id)));
  }

  lemma StepKeepsHistory(s: State, a: Action)
    requires Inv(s) && HistoryInv(s) && Enabled(s, a)
    ensures HistoryInv(Apply(s, a))
  {
    match a
    case Tick(t) => TickStep(s, t);
    case Submit(id, req, c, u, d, t) => SubmitStep(s, id, NewJob(id, req, c, u, d, t), t);
    case Dispatch(id) => DispatchStep(s, id);
    case CountScheduled(id) => CountStep(s, id);
    case Promote(t, iteration) => PromoteHistory(s, t, iteration);
    case Work(k, op) =>
      if op.Dequeue? {
        TakeStep(s, k);
      } else {
        WorkReady(s, k, s.slots[k].id, op);
        WorkStep(s, k, op);
      }
  }

  lemma {:induction false} RunKeepsHistory(trace: seq<State>, acts: seq<Action>, i: nat)
    requires IsRun(trace, acts) && Inv(trace[0]) && HistoryInv(trace[0]) && i < |trace|
    ensures HistoryInv(trace[i])
  {
    if i > 0 {
      RunKeepsHistory(trace, acts, i - 1);
      RunKeeps(trace, acts, i - 1);
      StepKeepsHistory(trace[i - 1], acts[i - 1]);
    }
  }

  lemma ReachableHistory(trace: seq<State>, acts: seq<Action>, runners: seq<nat>, i: nat)
    requires IsSystemRun(trace, acts, runners) && i < |trace|
    ensures Inv(trace[i]) && HistoryInv(trace[i])
  {
    Always(trace, acts, runners, i);
    InitInv(trace[0], runners);
    RunKeepsHistory(trace, acts, i);
  }

  // ----------------------------------------------------- complete histories

  /** No ProcessJob call for the job has a record still to be saved. */
  ghost predicate NothingPending(s: State, id: Id) {
    forall k :: k in s.slots && Carries(s.slots[k]) ==> s.slots[k].id != id
  }

  ghost function UpTo(n: nat): (r: set<int>)
    ensures |r| == n && forall i :: i in r <==> 0 <= i < n
  {
    if n == 0 then {} else UpTo(n - 1) + {n - 1}
  }

  lemma NoMoreRecords(ledger: seq<Whereabouts>, at: seq<int>)
    requires forall i :: 0 <= i < |at| ==> 0 <= at[i] < |ledger| && ledger[at[i]] == InHistory(i)
    ensures |at| <= |ledger|
  {
    var there := map i | i in UpTo(|at|) :: at[i];
    assert there.Keys == UpTo(|at|);
    S.Injects(there, UpTo(|ledger|));
  }

  lemma NoMoreEntries(ledger: seq<Whereabouts>, at: seq<int>)
    requires forall n :: 0 <= n < |ledger| ==>
               ledger[n].InHistory? && ledger[n].index < |at| && at[ledger[n].index] == n
    ensures |ledger| <= |at|
  {
    var back := map n | n in UpTo(|ledger|) :: ledger[n].index as int;
    assert back.Keys == UpTo(|ledger|);
    S.Injects(back, UpTo(|at|));
  }

  /** As many records as attempts. */
  lemma SizesAgree(s: State, id: Id)
    requires HistoryInv(s) && id in s.cells && NothingPending(s, id)
    ensures |Record(s, id)| == |s.cells[id].ledger|
  {
    var c, rec := s.cells[id], Record(s, id);
    var at := seq(|rec|, i requires 0 <= i < |rec| => IndexIn(c, rec[i]));
    forall i | 0 <= i < |at|
      ensures 0 <= at[i] < |c.ledger| && c.ledger[at[i]] == InHistory(i)
    {
      assert Leads(c, rec[i], InHistory(i));
    }
    forall n | 0 <= n < |c.ledger|
      ensures c.ledger[n].InHistory? && c.ledger[n].index < |at| && at[c.ledger[n].index] == n
    {
      assert Entry(s, id, n);
    }
    NoMoreRecords(c.ledger, at);
    NoMoreEntries(c.ledger, at);
  }

  ghost predicate HasAttempt(rec: seq<HistoryRecord>, a: int) {
    exists i :: 0 <= i < |rec| && rec[i].attempt == a
  }

  /** The saved records of a job, with policy counter c0 at submission and `current`
      now: numbers c0+1 .. c0+n in some order, each once, unsuccessful up to `current`
      and successful beyond, none started before its backoff allows. */
  ghost predicate Complete(rec: seq<HistoryRecord>, id: Id, c0: int, current: int, status: Status) {
    && (forall i :: 0 <= i < |rec| ==> rec[i].jobId == id && c0 < rec[i].attempt <= c0 + |rec|)
    && (forall i, j :: 0 <= i < j < |rec| ==> rec[i].attempt != rec[j].attempt)
    && (forall a :: c0 < a <= c0 + |rec| ==> HasAttempt(rec, a))
    && (forall i :: 0 <= i < |rec| ==> rec[i].outcome == if rec[i].attempt <= current then Unsuccessful else Succeeded)
    && c0 + |rec| == if status == Completed then current + 1 else current
  }

  /** What the ledger says of each saved record of a job without a pending one. */
  lemma SavedFits(s: State, id: Id, i: nat)
    requires HistoryInv(s) && id in s.cells && i < |Record(s, id)|
    ensures var (c, h) := (s.cells[id], Record(s, id)[i]);
            Leads(c, h, InHistory(i)) && Fits(c, IndexIn(c, h), h, s.oor) && h.outcome != InProgress
  {
    var c, h := s.cells[id], Record(s, id)[i];
    assert Leads(c, h, InHistory(i));
    assert Entry(s, id, IndexIn(c, h));
  }

  lemma EachAttemptSaved(s: State, id: Id, a: int)
    requires EntriesOk(s) && id in s.cells && NothingPending(s, id)
    requires var c0 := s.cells[id].origin.currentAttempts; c0 < a <= c0 + |s.cells[id].ledger|
    ensures HasAttempt(Record(s, id), a)
  {
    var n := a - s.cells[id].origin.currentAttempts - 1;
    assert Entry(s, id, n);
    assert Record(s, id)[s.cells[id].ledger[n].index].attempt == a;
  }

  lemma RecordsComplete(s: State, id: Id)
    requires CellsOk(s) && SlotsOk(s) && HistoryInv(s)
    requires id in s.cells && NothingPending(s, id) && S.HoldersOf(s, id) == {}
    ensures var c := s.cells[id];
            Complete(Record(s, id), id, c.origin.currentAttempts, c.job.retry.currentAttempts, c.job.status)
  {
    var c, rec := s.cells[id], Record(s, id);
    SizesAgree(s, id);
    S.HoldersCount(s, id);
    assert CellOk(id, c, s.now, s.oor);
    forall i | 0 <= i < |rec|
      ensures Leads(c, rec[i], InHistory(i)) && Fits(c, IndexIn(c, rec[i]), rec[i], s.oor)
      ensures rec[i].outcome != InProgress
    {
      SavedFits(s, id, i);
    }
    forall a | c.origin.currentAttempts < a <= c.origin.currentAttempts + |rec|
      ensures HasAttempt(rec, a)
    {
      EachAttemptSaved(s, id, a);
    }
  }

  /** Whenever no call for it is in progress, a job's saved history is complete: its
      attempt numbers are exactly c0+1 .. c0+n, all unsuccessful but a last one of a
      completed job, and CurrentAttempts is c0 plus the number of failures. */
  lemma HistoryComplete(trace: seq<State>, acts: seq<Action>, runners: seq<nat>, b: nat, j: nat)
    requires IsSystemRun(trace, acts, runners) && b < j < |trace| && acts[b].Submit?
    requires NothingPending(trace[j], acts[b].id) && S.HoldersOf(trace[j], acts[b].id) == {}
    ensures var s, id := trace[j], acts[b].id;
            && id in s.cells
            && Complete(Record(s, id), id, L.Created(acts[b]).retry.currentAttempts,
                        s.cells[id].job.retry.currentAttempts, s.cells[id].job.status)
  {
    ReachableHistory(trace, acts, runners, j);
    L.Provenance(trace, acts, runners, b, j);
    RecordsComplete(trace[j], acts[b].id);
  }

  /** Every saved record, in every reachable state: attempt a started no earlier than
      the creation of the job plus the delays after attempts c0+1 .. a-1. */
  lemma HistorySpacing(trace: seq<State>, acts: seq<Action>, runners: seq<nat>, b: nat, j: nat, i: nat)
    requires IsSystemRun(trace, acts, runners) && b < j < |trace| && acts[b].Submit?
    requires i < |Record(trace[j], acts[b].id)|
    ensures var policy := L.Created(acts[b]).retry;
            var h := Record(trace[j], acts[b].id)[i];
            h.startedAt >= acts[b].created + DelaySum(policy, h.attempt - 1 - policy.currentAttempts, trace[j].oor)
  {
    L.Provenance(trace, acts, runners, b, j);
    SavedSpaced(trace, acts, runners, j, acts[b].id, i);
  }

  lemma SavedSpaced(trace: seq<State>, acts: seq<Action>, runners: seq<nat>, j: nat, id: Id, i: nat)
    requires IsSystemRun(trace, acts, runners) && j < |trace| && id in trace[j].cells && i < |Record(trace[j], id)|
    ensures var (c, h) := (trace[j].cells[id], Record(trace[j], id)[i]);
            h.startedAt >= ReadyAt(c, IndexIn(c, h), trace[j].oor)
  {
    ReachableHistory(trace, acts, runners, j);
    SavedFits(trace[j], id, i);
  }

  // ------------------------------------------------------ histories in order

  /** The records of the job are saved in the order of their attempts, and only the last
      attempt's may still be missing. */
  ghost predicate InOrder(s: State, id: Id) {
    id in s.cells ==>
      && (forall i :: 0 <= i < |Record(s, id)| ==> IndexIn(s.cells[id], Record(s, id)[i]) == i)
      && (forall n :: 0 <= n < |s.cells[id].ledger| - 1 ==> s.cells[id].ledger[n].InHistory?)
  }

  /** A step that concerns neither the records nor the ledger of the job. */
  lemma OrderFrame(s: State, s': State, id: Id)
    requires InOrder(s, id) && RecordsOk(s) && Record(s', id) == Record(s, id)
    requires id in s.cells ==> id in s'.cells && s'.cells[id].origin == s.cells[id].origin
                               && s'.cells[id].ledger == s.cells[id].ledger
    requires id in s'.cells && id !in s.cells ==> s'.cells[id].ledger == []
    ensures InOrder(s', id)
  {
    if id in s'.cells {
      forall i | 0 <= i < |Record(s', id)|
        ensures IndexIn(s'.cells[id], Record(s', id)[i]) == i
      {
        assert id in s.cells;
        assert IndexIn(s.cells[id], Record(s, id)[i]) == i;
      }
    }
  }

  lemma OrderedOpen(s: State, id: Id, c: Cell, k: Slot, s': State)
    requires HistoryInv(s) && InOrder(s, id) && id in s.cells && NothingPending(s, id)
    requires s'.cells == s.cells[id := c] && s'.history == s.history
    requires c.origin == s.cells[id].origin && c.ledger == s.cells[id].ledger + [InSlot(k)]
    ensures InOrder(s', id)
  {
    forall n | 0 <= n < |s.cells[id].ledger|
      ensures s.cells[id].ledger[n].InHistory?
    {
      assert Entry(s, id, n);
    }
    forall i | 0 <= i < |Record(s', id)|
      ensures IndexIn(s'.cells[id], Record(s', id)[i]) == i
    {
      assert IndexIn(s.cells[id], Record(s, id)[i]) == i;
    }
  }

  /** The record to be saved is that of the last attempt, and all others are saved. */
  lemma LastToSave(s: State, k: Slot, id: Id)
    requires HistoryInv(s) && InOrder(s, id) && id in s.cells
    requires k in s.slots && s.slots[k].Saving? && s.slots[k].id == id
    ensures |Record(s, id)| == IndexIn(s.cells[id], s.slots[k].h) == |s.cells[id].ledger| - 1
  {
    var c, rec := s.cells[id], Record(s, id);
    var i := IndexIn(c, s.slots[k].h);
    assert Leads(c, s.slots[k].h, InSlot(k));
    if |rec| > 0 {
      assert IndexIn(c, rec[|rec| - 1]) == |rec| - 1;
      assert Leads(c, rec[|rec| - 1], InHistory(|rec| - 1));
    }
    if i > 0 {
      assert Entry(s, id, i - 1);
      assert IndexIn(c, rec[c.ledger[i - 1].index]) == i - 1;
    }
  }

  lemma OrderedSave(s: State, k: Slot)
    requires HistoryInv(s) && CanWork(s, k, SaveHistory) && s.slots[k].id in s.cells && InOrder(s, s.slots[k].id)
    ensures InOrder(WorkOn(s, k, s.slots[k].id, SaveHistory), s.slots[k].id)
  {
    LastToSave(s, k, s.slots[k].id);
  }

  /** What an operation of slot `k` leaves of the ledger and the records of its job. */
  lemma WorkLedger(s: State, k: Slot, op: SlotOp)
    requires CanWork(s, k, op) && !op.Dequeue? && s.slots[k].id in s.cells && s.slots[k].id in s.stored
    ensures var (i, s') := (s.slots[k].id, WorkOn(s, k, s.slots[k].id, op));
            && s'.cells == s.cells[i := s'.cells[i]] && s'.cells[i].origin == s.cells[i].origin
            && (forall j :: j != i ==> Record(s', j) == Record(s, j))
            && (op.Begin? ==> s'.cells[i].ledger == s.cells[i].ledger + [InSlot(k)])
            && (!op.Begin? && !op.SaveHistory? ==> s'.cells[i].ledger == s.cells[i].ledger)
            && (!op.SaveHistory? ==> s'.history == s.history)
  {}

  lemma OrderedWork(s: State, k: Slot, op: SlotOp, id: Id)
    requires Inv(s) && HistoryInv(s) && InOrder(s, id) && CanWork(s, k, op) && !op.Dequeue?
    requires op.Begin? && s.slots[k].id == id ==> NothingPending(s, id)
    ensures InOrder(WorkOn(s, k, s.slots[k].id, op), id)
  {
    var s' := WorkOn(s, k, s.slots[k].id, op);
    WorkLedger(s, k, op);
    if s.slots[k].id == id && op.Begin? {
      OrderedOpen(s, id, s'.cells[id], k, s');
    } else if s.slots[k].id == id && op.SaveHistory? {
      OrderedSave(s, k);
    } else {
      OrderFrame(s, s', id);
    }
  }

  lemma OrderedRest(s: State, a: Action, id: Id)
    requires HistoryInv(s) && InOrder(s, id) && Enabled(s, a) && !a.Promote? && (a.Work? ==> a.op.Dequeue?)
    ensures InOrder(Apply(s, a), id)
  {
    OrderFrame(s, Apply(s, a), id);
  }

  lemma OrderedStep(s: State, a: Action, id: Id)
    requires Inv(s) && HistoryInv(s) && InOrder(s, id) && Enabled(s, a)
    requires a.Work? && a.op.Begin? && s.slots[a.k].id == id ==> NothingPending(s, id)
    ensures InOrder(Apply(s, a), id)
  {
    if a.Promote? {
      S.PromoteStep(s, a.t, a.iteration);
      OrderFrame(s, Apply(s, a), id);
    } else if a.Work? && !a.op.Dequeue? {
      OrderedWork(s, a.k, a.op, id);
    } else {
      OrderedRest(s, a, id);
    }
  }

  /** If no attempt of a job begins while an earlier ProcessJob call for that job still has
      its record to save, the job's history is in the order of its attempts, whatever the
      calls for other jobs do. */
  lemma {:induction false} HistoryInOrder(trace: seq<State>, acts: seq<Action>, runners: seq<nat>, i: nat, id: Id)
    requires IsSystemRun(trace, acts, runners) && i < |trace|
    requires forall j ::
               && 0 <= j < i && acts[j].Work? && acts[j].op.Begin?
               && acts[j].k in trace[j].slots && trace[j].slots[acts[j].k] == Marked(id)
               ==> NothingPending(trace[j], id)
    ensures InOrder(trace[i], id)
  {
    if i > 0 {
      HistoryInOrder(trace, acts, runners, i - 1, id);
      ReachableHistory(trace, acts, runners, i - 1);
      assert Enabled(trace[i - 1], acts[i - 1]) && trace[i] == Apply(trace[i - 1], acts[i - 1]);
      OrderedStep(trace[i - 1], acts[i - 1], id);
    }
  }
}
