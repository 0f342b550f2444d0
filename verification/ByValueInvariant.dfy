/** Every step of the services over copying adapters keeps the invariant of ByValue,
    as long as the run keeps to its discipline. */
module ByValueInvariant {
  import opened Domain
  import opened ByValue

  // ------------------------------------------- steps, by what they do to copies

  lemma StillBusy(slots: map<nat, Pc>, slots': map<nat, Pc>, id: Id)
    requires Busy(slots, id)
    requires forall k :: k in slots && Has(slots[k], id) ==> k in slots' && Has(slots'[k], id)
    ensures Busy(slots', id)
  {
    var k :| k in slots && Has(slots[k], id);
    assert k in slots' && Has(slots'[k], id);
  }

  /** Agreement for the jobs that a step does not touch. */
  lemma AgreedFrame(
    live: multiset<JobRecord>, slots: map<nat, Pc>, store: map<Id, JobRecord>,
    slots': map<nat, Pc>, store': map<Id, JobRecord>, j: JobRecord)
    requires Agreed(live, slots, store) && j in live
    requires forall k :: k in slots && Has(slots[k], j.id) ==> k in slots' && Has(slots'[k], j.id)
    requires j.id in store ==> j.id in store' && store'[j.id] == store[j.id]
    ensures Busy(slots', j.id) || (j.id in store' && Agree(j, store'[j.id]))
  {
    if Busy(slots, j.id) {
      StillBusy(slots, slots', j.id);
    }
  }

  lemma AgreedKeeps(
    live: multiset<JobRecord>, slots: map<nat, Pc>, store: map<Id, JobRecord>,
    slots': map<nat, Pc>, store': map<Id, JobRecord>)
    requires Agreed(live, slots, store)
    requires forall j :: j in live ==>
               && (forall k :: k in slots && Has(slots[k], j.id) ==> k in slots' && Has(slots'[k], j.id))
               && (j.id in store ==> j.id in store' && store'[j.id] == store[j.id])
    ensures Agreed(live, slots', store')
  {
    forall j | j in live
      ensures Busy(slots', j.id) || (j.id in store' && Agree(j, store'[j.id]))
    {
      AgreedFrame(live, slots, store, slots', store', j);
    }
  }

  lemma SubmittedCopies(
    live: multiset<JobRecord>, slots: map<nat, Pc>, requests: map<Id, JobRecord>, store: map<Id, JobRecord>,
    job: JobRecord, record: JobRecord)
    requires CopiesOk(live, slots, requests, store) && job.id !in store && Agree(job, record)
    ensures CopiesOk(live, slots, requests[job.id := job], store[job.id := record])
  {
    AgreedKeeps(live, slots, store, slots, store[job.id := record]);
  }

  lemma DispatchedCopies(
    live: multiset<JobRecord>, slots: map<nat, Pc>, requests: map<Id, JobRecord>, store: map<Id, JobRecord>, id: Id)
    requires CopiesOk(live, slots, requests, store) && id in requests
    ensures CopiesOk(live + multiset{requests[id]}, slots, requests - {id}, store)
  {
    var job := requests[id];
    assert job.id == id && id in store && Agree(job, store[id]);
    DispatchedPlaces(live, slots, requests, id);
    DispatchedRecords(live, slots, requests, store, id);
    JoinedAgreed(live, slots, store, job);
  }

  lemma DispatchedPlaces(
    live: multiset<JobRecord>, slots: map<nat, Pc>, requests: map<Id, JobRecord>, id: Id)
    requires PlacesOk(live, slots, requests) && id in requests && requests[id].id == id
    ensures PlacesOk(live + multiset{requests[id]}, slots, requests - {id})
  {
    assert requests[id] !in live;
  }

  lemma DispatchedRecords(
    live: multiset<JobRecord>, slots: map<nat, Pc>, requests: map<Id, JobRecord>, store: map<Id, JobRecord>, id: Id)
    requires RecordsOk(live, slots, requests, store) && id in requests
    ensures RecordsOk(live + multiset{requests[id]}, slots, requests - {id}, store)
  {}

  lemma JoinedAgreed(live: multiset<JobRecord>, slots: map<nat, Pc>, store: map<Id, JobRecord>, job: JobRecord)
    requires Agreed(live, slots, store) && job.id in store && Agree(job, store[job.id])
    ensures Agreed(live + multiset{job}, slots, store)
  {}

  lemma TakenPlaces(
    live: multiset<JobRecord>, slots: map<nat, Pc>, requests: map<Id, JobRecord>, k: nat, j: JobRecord)
    requires PlacesOk(live, slots, requests) && k in slots && slots[k].Idle? && j in live
    requires forall i :: i in slots ==> !Has(slots[i], j.id)
    ensures PlacesOk(live - multiset{j}, slots[k := Taken(j)], requests)
  {
    assert forall i :: i in live - multiset{j} ==> i in live && i.id != j.id;
  }

  lemma TakenCopies(
    live: multiset<JobRecord>, slots: map<nat, Pc>, requests: map<Id, JobRecord>, store: map<Id, JobRecord>,
    k: nat, j: JobRecord)
    requires CopiesOk(live, slots, requests, store) && k in slots && slots[k].Idle? && j in live
    requires !Busy(slots, j.id)
    ensures CopiesOk(live - multiset{j}, slots[k := Taken(j)], requests, store)
  {
    TakenPlaces(live, slots, requests, k, j);
    AgreedKeeps(live - multiset{j}, slots, store, slots[k := Taken(j)], store);
  }

  /** A job in a worker's hands has no live copy and no other worker. */
  lemma NoCopyInHand(live: multiset<JobRecord>, slots: map<nat, Pc>, k: nat)
    requires SlotsApart(live, slots) && SlotsUnique(slots) && k in slots && !slots[k].Idle? && !slots[k].Trailing?
    ensures forall j :: j in live ==> j.id != slots[k].job.id
    ensures forall i :: i in slots && i != k ==> !Has(slots[i], slots[k].job.id)
  {
    assert forall j :: j in live && j.id == slots[k].job.id ==> Has(slots[k], j.id);
  }

  lemma SlotsMove(slots: map<nat, Pc>, k: nat, pc: Pc)
    requires SlotsUnique(slots) && k in slots && !slots[k].Idle? && (pc.Idle? || pc.job.id == slots[k].job.id)
    ensures SlotsUnique(slots[k := pc])
  {}

  /** A worker goes on with its copy: no live copy is concerned. */
  lemma HandPlaces(
    live: multiset<JobRecord>, slots: map<nat, Pc>, requests: map<Id, JobRecord>, k: nat, pc: Pc)
    requires PlacesOk(live, slots, requests) && k in slots && !slots[k].Idle?
    requires pc.Idle? || (pc.job.id == slots[k].job.id && forall j :: j in live ==> j.id != slots[k].job.id)
    ensures PlacesOk(live, slots[k := pc], requests)
  {
    SlotsMove(slots, k, pc);
    assert Has(slots[k], slots[k].job.id);
  }

  lemma HandRecords(
    live: multiset<JobRecord>, slots: map<nat, Pc>, requests: map<Id, JobRecord>, store: map<Id, JobRecord>,
    k: nat, pc: Pc, store': map<Id, JobRecord>)
    requires RecordsOk(live, slots, requests, store) && k in slots && !slots[k].Idle?
    requires slots[k].job.id !in requests
    requires (pc.Idle? || pc.job.id == slots[k].job.id) && store'.Keys == store.Keys
    requires forall id :: id in store && id != slots[k].job.id ==> store'[id] == store[id]
    ensures RecordsOk(live, slots[k := pc], requests, store')
  {
    assert Has(slots[k], slots[k].job.id);
  }

  /** A worker goes on with its copy and may write it. */
  lemma HandCopies(
    live: multiset<JobRecord>, slots: map<nat, Pc>, requests: map<Id, JobRecord>, store: map<Id, JobRecord>,
    k: nat, pc: Pc, store': map<Id, JobRecord>)
    requires CopiesOk(live, slots, requests, store) && k in slots && !slots[k].Idle? && !slots[k].Trailing?
    requires (pc.Idle? || pc.job.id == slots[k].job.id) && store'.Keys == store.Keys
    requires forall id :: id in store && id != slots[k].job.id ==> store'[id] == store[id]
    ensures CopiesOk(live, slots[k := pc], requests, store')
  {
    assert Has(slots[k], slots[k].job.id);
    NoCopyInHand(live, slots, k);
    HandPlaces(live, slots, requests, k, pc);
    HandRecords(live, slots, requests, store, k, pc, store');
    HandAgreed(live, slots, store, k, pc, store');
  }

  lemma HandAgreed(
    live: multiset<JobRecord>, slots: map<nat, Pc>, store: map<Id, JobRecord>,
    k: nat, pc: Pc, store': map<Id, JobRecord>)
    requires Agreed(live, slots, store) && k in slots && !slots[k].Idle?
    requires forall j :: j in live ==> j.id != slots[k].job.id
    requires store'.Keys == store.Keys
    requires forall id :: id in store && id != slots[k].job.id ==> store'[id] == store[id]
    ensures Agreed(live, slots[k := pc], store')
  {
    AgreedKeeps(live, slots, store, slots[k := pc], store');
  }

  lemma ReleasedPlaces(live: multiset<JobRecord>, slots: map<nat, Pc>, requests: map<Id, JobRecord>, k: nat)
    requires PlacesOk(live, slots, requests) && k in slots && slots[k].Settling?
    requires forall j :: j in live ==> j.id != slots[k].job.id
    requires forall i :: i in slots && i != k ==> !Has(slots[i], slots[k].job.id)
    ensures PlacesOk(live + multiset{slots[k].job}, slots[k := Trailing(slots[k].job)], requests)
  {
    SlotsMove(slots, k, Trailing(slots[k].job));
    assert Has(slots[k], slots[k].job.id);
    assert slots[k].job !in live;
  }

  lemma ReleasedCopies(
    live: multiset<JobRecord>, slots: map<nat, Pc>, requests: map<Id, JobRecord>, store: map<Id, JobRecord>, k: nat)
    requires CopiesOk(live, slots, requests, store) && k in slots && slots[k].Settling?
    ensures CopiesOk(live + multiset{slots[k].job}, slots[k := Trailing(slots[k].job)], requests, store)
  {
    var job := slots[k].job;
    var slots' := slots[k := Trailing(job)];
    NoCopyInHand(live, slots, k);
    assert Has(slots[k], job.id);
    ReleasedPlaces(live, slots, requests, k);
    HandAgreed(live, slots, store, k, Trailing(job), store);
    assert k in slots' && Has(slots'[k], job.id);
    assert Busy(slots', job.id);
  }

  /** The trailing UpdateJob writes what the live copy says. */
  lemma StoredAgreed(
    live: multiset<JobRecord>, slots: map<nat, Pc>, store: map<Id, JobRecord>, k: nat, record: JobRecord)
    requires Agreed(live, slots, store) && SlotsApart(live, slots) && k in slots && slots[k].Trailing?
    requires Agree(slots[k].job, record)
    ensures Agreed(live, slots[k := Idle], store[slots[k].job.id := record])
  {
    var id := slots[k].job.id;
    var slots', store' := slots[k := Idle], store[id := record];
    forall j | j in live
      ensures Busy(slots', j.id) || (j.id in store' && Agree(j, store'[j.id]))
    {
      if j.id == id {
        assert Has(slots[k], j.id);
      } else {
        AgreedFrame(live, slots, store, slots', store', j);
      }
    }
  }

  lemma StoredCopies(
    live: multiset<JobRecord>, slots: map<nat, Pc>, requests: map<Id, JobRecord>, store: map<Id, JobRecord>,
    k: nat, record: JobRecord)
    requires CopiesOk(live, slots, requests, store) && k in slots && slots[k].Trailing?
    requires Agree(slots[k].job, record)
    ensures CopiesOk(live, slots[k := Idle], requests, store[slots[k].job.id := record])
  {
    assert Has(slots[k], slots[k].job.id);
    HandPlaces(live, slots, requests, k, Idle);
    HandRecords(live, slots, requests, store, k, Idle, store[slots[k].job.id := record]);
    StoredAgreed(live, slots, store, k, record);
  }

  // --------------------------------------- what becomes of a pushed entry's job

  /** A step of slot `k` that leaves the live copies alone. */
  lemma SinceHand(
    j: JobRecord, live: multiset<JobRecord>, active: multiset<JobRecord>, slots: map<nat, Pc>,
    requests: map<Id, JobRecord>, store: map<Id, JobRecord>, k: nat, pc: Pc, store': map<Id, JobRecord>)
    requires Since(j, live, active, slots, requests, store) && k in slots && !slots[k].Idle?
    requires !pc.Idle? ==> pc.job.id == slots[k].job.id
    requires store'.Keys == store.Keys
    requires forall id :: id in store && id != slots[k].job.id ==> store'[id] == store[id]
    requires Has(slots[k], j.id) ==>
               if pc.Idle? then j in active || MovedOn(j, store'[j.id]) else SlotSince(j, pc, active)
    ensures Since(j, live, active, slots[k := pc], requests, store')
  {
    var slots' := slots[k := pc];
    if Busy(slots, j.id) && !(pc.Idle? && Has(slots[k], j.id)) {
      StillBusy(slots, slots', j.id);
    }
    assert Has(slots[k], j.id) && !pc.Idle? ==> k in slots' && Has(slots'[k], j.id);
  }

  lemma SinceTaken(
    j: JobRecord, live: multiset<JobRecord>, active: multiset<JobRecord>, slots: map<nat, Pc>,
    requests: map<Id, JobRecord>, store: map<Id, JobRecord>, k: nat, job: JobRecord)
    requires Since(j, live, active, slots, requests, store) && LiveUnique(live)
    requires k in slots && slots[k].Idle? && job in active && job in live && !Busy(slots, job.id)
    ensures Since(j, live - multiset{job}, active - multiset{job}, slots[k := Taken(job)], requests, store)
  {
    var slots' := slots[k := Taken(job)];
    if job.id == j.id {
      assert k in slots' && Has(slots'[k], j.id);
    } else if Busy(slots, j.id) {
      StillBusy(slots, slots', j.id);
    }
    assert forall i :: i in slots && Has(slots[i], job.id) ==> Busy(slots, job.id);
  }

  lemma SinceReleased(
    j: JobRecord, live: multiset<JobRecord>, active: multiset<JobRecord>, slots: map<nat, Pc>,
    requests: map<Id, JobRecord>, store: map<Id, JobRecord>, k: nat)
    requires Since(j, live, active, slots, requests, store) && k in slots && slots[k].Settling?
    ensures Since(j, live + multiset{slots[k].job}, active, slots[k := Trailing(slots[k].job)], requests, store)
  {
    var job := slots[k].job;
    var slots' := slots[k := Trailing(job)];
    if Busy(slots, j.id) {
      StillBusy(slots, slots', j.id);
    }
    assert j.id == job.id ==> Has(slots[k], j.id);
  }

  // ------------------------------------------------------------ every action

  /** The live copies and the entries awaiting removal depend on the queues alone. */
  lemma SameQueues(s: State, s': State)
    requires s'.active == s.active && s'.delayed == s.delayed && s'.dead == s.dead && s'.promoters == s.promoters
    ensures Live(s') == Live(s) && Awaiting(s') == Awaiting(s)
  {
    assert Awaiting(s') == Awaiting(s);
  }

  lemma TickKeeps(s: State, t: Time)
    requires Inv(s)
    ensures Inv(s.(now := t))
  {
    SameQueues(s, s.(now := t));
  }

  lemma SubmitFor(s: State, live: multiset<JobRecord>, awaiting: set<JobRecord>, job: JobRecord, s': State)
    requires InvFor(s, live, awaiting) && job.id !in s.store
    requires s' == s.(requests := s.requests[job.id := job], store := s'.store, now := s'.now)
    requires exists record :: Agree(job, record) && s'.store == s.store[job.id := record]
    ensures InvFor(s', live, awaiting)
  {
    var record :| Agree(job, record) && s'.store == s.store[job.id := record];
    SubmittedCopies(live, s.slots, s.requests, s.store, job, record);
  }

  lemma SubmitKeeps(s: State, id: Id, req: Request, t: Time)
    requires Inv(s) && Enabled(s, Submit(id, req, t))
    ensures Inv(Apply(s, Submit(id, req, t)))
  {
    var s', job := Apply(s, Submit(id, req, t)), NewJob(id, req, t, t, t, t);
    SameQueues(s, s');
    assert Agree(job, job.(updatedAt := t));
    SubmitFor(s, Live(s), Awaiting(s), job, s');
  }

  /** A copy that was in no queue joins one. */
  lemma Joined(s: State, job: JobRecord, s': State)
    requires job !in s.delayed && job !in Awaiting(s) && s'.promoters == s.promoters
    requires || (s'.active == s.active && s'.delayed == s.delayed + {job} && s'.dead == s.dead)
             || (s'.active == s.active + multiset{job} && s'.delayed == s.delayed && s'.dead == s.dead)
             || (s'.active == s.active && s'.delayed == s.delayed && s'.dead == s.dead + multiset{job})
    ensures Awaiting(s') == Awaiting(s) && Live(s') == Live(s) + multiset{job}
  {
    assert Awaiting(s') == Awaiting(s);
    if s'.delayed != s.delayed {
      assert s'.delayed - Awaiting(s) == (s.delayed - Awaiting(s)) + {job};
    }
  }

  /** A delayed copy is live or awaits its removal. */
  lemma DelayedLive(s: State, j: JobRecord)
    ensures j in s.delayed ==> j in Awaiting(s) || j in Live(s)
    ensures j in s.active || j in s.dead ==> j in Live(s)
  {
    if j in s.delayed && j !in Awaiting(s) {
      assert j in s.delayed - Awaiting(s);
    }
  }

  /** A delayed set that grows leaves the passes as they are. */
  lemma GrownPasses(s: State, s': State)
    requires PassesOk(s) && s'.promoters == s.promoters && s.delayed <= s'.delayed
    ensures PassesOk(s')
  {
    forall p | p in s.promoters
      ensures PassOk(s'.delayed, s.promoters[p])
    {
      assert PassOk(s.delayed, s.promoters[p]);
    }
  }

  lemma DispatchFor(s: State, live: multiset<JobRecord>, awaiting: set<JobRecord>, id: Id, s': State)
    requires InvFor(s, live, awaiting) && id in s.requests && s' == Apply(s, Dispatch(id))
    ensures InvFor(s', live + multiset{s.requests[id]}, awaiting)
  {
    DispatchedCopies(live, s.slots, s.requests, s.store, id);
    DispatchStatus(s, id, s');
    GrownPasses(s, s');
    DispatchSince(s, live, awaiting, id, s');
  }

  lemma DispatchStatus(s: State, id: Id, s': State)
    requires StatusOk(s) && id in s.requests && s' == Apply(s, Dispatch(id))
    ensures StatusOk(s') && s'.promoters == s.promoters && s.delayed <= s'.delayed
    ensures s'.slots == s.slots && s'.requests == s.requests - {id} && s'.store == s.store
    ensures s'.active == s.active || s'.active == s.active + multiset{s.requests[id]}
  {}

  lemma DispatchSince(s: State, live: multiset<JobRecord>, awaiting: set<JobRecord>, id: Id, s': State)
    requires SinceOk(s, live, awaiting) && id in s.requests && s.requests[id].id == id
    requires s'.active == s.active || s'.active == s.active + multiset{s.requests[id]}
    requires s'.slots == s.slots && s'.requests == s.requests - {id} && s'.store == s.store
    ensures SinceOk(s', live + multiset{s.requests[id]}, awaiting)
  {
    forall j | j in awaiting
      ensures Since(j, live + multiset{s.requests[id]}, s'.active, s'.slots, s'.requests, s'.store)
    {
      assert Since(j, live, s.active, s.slots, s.requests, s.store);
    }
  }

  lemma DispatchJoins(s: State, id: Id, s': State)
    requires RequestsApart(Live(s), s.slots, s.requests) && SinceOk(s, Live(s), Awaiting(s))
    requires id in s.requests && s.requests[id].id == id && s' == Apply(s, Dispatch(id))
    ensures Awaiting(s') == Awaiting(s) && Live(s') == Live(s) + multiset{s.requests[id]}
  {
    var job := s.requests[id];
    DelayedLive(s, job);
    assert job !in Awaiting(s) && job !in s.delayed;
    DispatchQueues(s, id, s');
    Joined(s, job, s');
  }

  lemma DispatchQueues(s: State, id: Id, s': State)
    requires id in s.requests && s' == Apply(s, Dispatch(id))
    ensures var job := s.requests[id];
            && s'.dead == s.dead && s'.promoters == s.promoters
            && (|| (s'.active == s.active && s'.delayed == s.delayed + {job})
                || (s'.active == s.active + multiset{job} && s'.delayed == s.delayed))
  {}

  lemma DispatchKeeps(s: State, id: Id)
    requires Inv(s) && id in s.requests
    ensures Inv(Apply(s, Dispatch(id)))
  {
    var s' := Apply(s, Dispatch(id));
    DispatchJoins(s, id, s');
    DispatchFor(s, Live(s), Awaiting(s), id, s');
  }

  lemma DequeueFor(s: State, live: multiset<JobRecord>, awaiting: set<JobRecord>, k: nat, job: JobRecord, s': State)
    requires InvFor(s, live, awaiting) && k in s.slots && s.slots[k].Idle? && job in s.active && job in live
    requires !Busy(s.slots, job.id) && s' == Apply(s, Dequeue(k, job))
    ensures InvFor(s', live - multiset{job}, awaiting)
  {
    DequeueStatus(s, k, job, s');
    TakenCopies(live, s.slots, s.requests, s.store, k, job);
    DequeueSince(s, live, awaiting, k, job, s');
  }

  lemma DequeueStatus(s: State, k: nat, job: JobRecord, s': State)
    requires StatusOk(s) && PassesOk(s) && Enabled(s, Dequeue(k, job)) && s' == Apply(s, Dequeue(k, job))
    ensures StatusOk(s') && PassesOk(s')
  {}

  lemma DequeueSince(
    s: State, live: multiset<JobRecord>, awaiting: set<JobRecord>, k: nat, job: JobRecord, s': State)
    requires SinceOk(s, live, awaiting) && LiveUnique(live) && k in s.slots && s.slots[k].Idle?
    requires job in s.active && job in live && !Busy(s.slots, job.id)
    requires s'.active == s.active - multiset{job} && s'.slots == s.slots[k := Taken(job)]
    requires s'.requests == s.requests && s'.store == s.store
    ensures SinceOk(s', live - multiset{job}, awaiting)
  {
    forall j | j in awaiting
      ensures Since(j, live - multiset{job}, s'.active, s'.slots, s'.requests, s'.store)
    {
      SinceTaken(j, live, s.active, s.slots, s.requests, s.store, k, job);
    }
  }

  lemma LeftActive(s: State, job: JobRecord, s': State)
    requires job in s.active && s'.active == s.active - multiset{job} && s'.delayed == s.delayed
    requires s'.dead == s.dead && s'.promoters == s.promoters
    ensures Awaiting(s') == Awaiting(s) && Live(s') == Live(s) - multiset{job} && job in Live(s)
  {
    assert Awaiting(s') == Awaiting(s);
  }

  lemma DequeueKeeps(s: State, k: nat, job: JobRecord)
    requires Inv(s) && Enabled(s, Dequeue(k, job)) && !Busy(s.slots, job.id)
    ensures Inv(Apply(s, Dequeue(k, job)))
  {
    var s' := Apply(s, Dequeue(k, job));
    LeftActive(s, job, s');
    DequeueFor(s, Live(s), Awaiting(s), k, job, s');
  }

  /** How a worker may go on with the job in hand, up to its last UpdateJob. */
  predicate GoesOn(job: JobRecord, pc: Pc) {
    match pc
    case Idle => true
    case Settling(j) => j.id == job.id && Attempts(job) < Attempts(j) && (j.status == Scheduled || j.status == Dead)
    case Trailing(_) => false
    case _ => pc.job.id == job.id && Attempts(job) == Attempts(pc.job)
  }

  lemma HandFor(s: State, live: multiset<JobRecord>, awaiting: set<JobRecord>, k: nat, pc: Pc, s': State)
    requires InvFor(s, live, awaiting) && k in s.slots && !s.slots[k].Idle? && !s.slots[k].Trailing?
    requires s' == s.(slots := s.slots[k := pc], store := s'.store, now := s'.now) && GoesOn(s.slots[k].job, pc)
    requires s'.store.Keys == s.store.Keys
    requires forall id :: id in s.store && id != s.slots[k].job.id ==> s'.store[id] == s.store[id]
    requires pc.Idle? ==> s.slots[k].job.id in s.store && s'.store[s.slots[k].job.id].status == Completed
    ensures InvFor(s', live, awaiting)
  {
    HandCopies(live, s.slots, s.requests, s.store, k, pc, s'.store);
    forall j | j in awaiting
      ensures Since(j, live, s'.active, s'.slots, s'.requests, s'.store)
    {
      SinceHand(j, live, s.active, s.slots, s.requests, s.store, k, pc, s'.store);
    }
  }

  /** The worker's record is in the store, so that writing it adds no key. */
  lemma WriteFrame(s: State, k: nat, record: JobRecord)
    requires SlotsStored(s.slots, s.store) && k in s.slots && !s.slots[k].Idle? && record.id == s.slots[k].job.id
    ensures record.id in s.store && s.store[record.id := record].Keys == s.store.Keys
    ensures forall id :: id in s.store && id != record.id ==> s.store[record.id := record][id] == s.store[id]
  {
    assert Has(s.slots[k], record.id);
  }

  lemma HandKeeps(s: State, k: nat, pc: Pc, s': State)
    requires Inv(s) && k in s.slots && !s.slots[k].Idle? && !s.slots[k].Trailing?
    requires s' == s.(slots := s.slots[k := pc], store := s'.store, now := s'.now) && GoesOn(s.slots[k].job, pc)
    requires s'.store.Keys == s.store.Keys
    requires forall id :: id in s.store && id != s.slots[k].job.id ==> s'.store[id] == s.store[id]
    requires pc.Idle? ==> s.slots[k].job.id in s.store && s'.store[s.slots[k].job.id].status == Completed
    ensures Inv(s')
  {
    SameQueues(s, s');
    HandFor(s, Live(s), Awaiting(s), k, pc, s');
  }

  lemma StartKeeps(s: State, k: nat, worker: string, t: Time)
    requires Inv(s) && Enabled(s, Start(k, worker, t))
    ensures Inv(Apply(s, Start(k, worker, t)))
  {
    var s' := Apply(s, Start(k, worker, t));
    WriteFrame(s, k, AsProcessing(s.slots[k].job, worker, t, t).(updatedAt := t));
    HandKeeps(s, k, s'.slots[k], s');
  }

  lemma SucceedKeeps(s: State, k: nat, t: Time)
    requires Inv(s) && Enabled(s, Succeed(k, t))
    ensures Inv(Apply(s, Succeed(k, t)))
  {
    var s' := Apply(s, Succeed(k, t));
    WriteFrame(s, k, AsCompleted(s.slots[k].job, t, t).(updatedAt := t));
    HandKeeps(s, k, Idle, s');
  }

  lemma FailKeeps(s: State, k: nat, error: string, t: Time, oor: Int64)
    requires Inv(s) && Enabled(s, Fail(k, error, t, oor))
    ensures Inv(Apply(s, Fail(k, error, t, oor)))
  {
    HandKeeps(s, k, Apply(s, Fail(k, error, t, oor)).slots[k], Apply(s, Fail(k, error, t, oor)));
  }

  lemma ReleaseFor(s: State, live: multiset<JobRecord>, awaiting: set<JobRecord>, k: nat, s': State)
    requires InvFor(s, live, awaiting) && k in s.slots && s.slots[k].Settling? && s' == Apply(s, Release(k))
    ensures InvFor(s', live + multiset{s.slots[k].job}, awaiting)
  {
    ReleaseStatus(s, k, s');
    ReleasedCopies(live, s.slots, s.requests, s.store, k);
    GrownPasses(s, s');
    ReleaseSince(s, live, awaiting, k, s');
  }

  lemma ReleaseStatus(s: State, k: nat, s': State)
    requires StatusOk(s) && k in s.slots && s.slots[k].Settling? && s' == Apply(s, Release(k))
    ensures StatusOk(s') && s'.promoters == s.promoters && s.delayed <= s'.delayed
    ensures s'.slots == s.slots[k := Trailing(s.slots[k].job)]
    ensures s'.active == s.active && s'.requests == s.requests && s'.store == s.store
  {}

  lemma ReleaseSince(s: State, live: multiset<JobRecord>, awaiting: set<JobRecord>, k: nat, s': State)
    requires SinceOk(s, live, awaiting) && k in s.slots && s.slots[k].Settling?
    requires s'.active == s.active && s'.slots == s.slots[k := Trailing(s.slots[k].job)]
    requires s'.requests == s.requests && s'.store == s.store
    ensures SinceOk(s', live + multiset{s.slots[k].job}, awaiting)
  {
    forall j | j in awaiting
      ensures Since(j, live + multiset{s.slots[k].job}, s'.active, s'.slots, s'.requests, s'.store)
    {
      SinceReleased(j, live, s.active, s.slots, s.requests, s.store, k);
    }
  }

  /** A job about to be put back is in no queue, not even as a stale entry. */
  lemma NotQueued(s: State, live: multiset<JobRecord>, awaiting: set<JobRecord>, k: nat)
    requires PlacesOk(live, s.slots, s.requests) && SinceOk(s, live, awaiting) && k in s.slots && s.slots[k].Settling?
    ensures s.slots[k].job !in live && s.slots[k].job !in awaiting
  {
    NoCopyInHand(live, s.slots, k);
    assert Has(s.slots[k], s.slots[k].job.id);
  }

  lemma ReleaseQueues(s: State, k: nat, s': State)
    requires k in s.slots && s.slots[k].Settling? && s' == Apply(s, Release(k))
    ensures var job := s.slots[k].job;
            && s'.active == s.active && s'.promoters == s.promoters
            && (|| (s'.delayed == s.delayed + {job} && s'.dead == s.dead)
                || (s'.delayed == s.delayed && s'.dead == s.dead + multiset{job}))
  {}

  lemma ReleaseJoins(s: State, k: nat, s': State)
    requires PlacesOk(Live(s), s.slots, s.requests) && SinceOk(s, Live(s), Awaiting(s))
    requires k in s.slots && s.slots[k].Settling? && s' == Apply(s, Release(k))
    ensures Awaiting(s') == Awaiting(s) && Live(s') == Live(s) + multiset{s.slots[k].job}
  {
    var job := s.slots[k].job;
    NotQueued(s, Live(s), Awaiting(s), k);
    DelayedLive(s, job);
    ReleaseQueues(s, k, s');
    Joined(s, job, s');
  }

  lemma ReleaseKeeps(s: State, k: nat)
    requires Inv(s) && Enabled(s, Release(k))
    ensures Inv(Apply(s, Release(k)))
  {
    var s' := Apply(s, Release(k));
    ReleaseJoins(s, k, s');
    ReleaseFor(s, Live(s), Awaiting(s), k, s');
  }

  lemma StoreFinalFor(s: State, live: multiset<JobRecord>, awaiting: set<JobRecord>, k: nat, t: Time, s': State)
    requires InvFor(s, live, awaiting) && k in s.slots && s.slots[k].Trailing? && s.now <= t
    requires s' == Apply(s, StoreFinal(k, t))
    ensures InvFor(s', live, awaiting)
  {
    var record := s.slots[k].job.(updatedAt := t);
    StoredCopies(live, s.slots, s.requests, s.store, k, record);
    StoreFinalShape(s, k, t, s');
    StoreFinalSince(s, live, awaiting, k, record, s');
  }

  lemma StoreFinalShape(s: State, k: nat, t: Time, s': State)
    requires StatusOk(s) && PassesOk(s) && Enabled(s, StoreFinal(k, t)) && s' == Apply(s, StoreFinal(k, t))
    ensures StatusOk(s') && PassesOk(s')
    ensures s'.active == s.active && s'.requests == s.requests && s'.slots == s.slots[k := Idle]
    ensures var record := s.slots[k].job.(updatedAt := t); s'.store == s.store[record.id := record]
  {}

  lemma StoreFinalSince(
    s: State, live: multiset<JobRecord>, awaiting: set<JobRecord>, k: nat, record: JobRecord, s': State)
    requires SinceOk(s, live, awaiting) && SlotsStored(s.slots, s.store) && k in s.slots && s.slots[k].Trailing?
    requires Agree(s.slots[k].job, record) && s'.store == s.store[record.id := record]
    requires s'.active == s.active && s'.slots == s.slots[k := Idle] && s'.requests == s.requests
    ensures SinceOk(s', live, awaiting)
  {
    WriteFrame(s, k, record);
    forall j | j in awaiting
      ensures Since(j, live, s'.active, s'.slots, s'.requests, s'.store)
    {
      SinceHand(j, live, s.active, s.slots, s.requests, s.store, k, Idle, s'.store);
    }
  }

  lemma StoreFinalKeeps(s: State, k: nat, t: Time)
    requires Inv(s) && Enabled(s, StoreFinal(k, t))
    ensures Inv(Apply(s, StoreFinal(k, t)))
  {
    var s' := Apply(s, StoreFinal(k, t));
    SameQueues(s, s');
    StoreFinalFor(s, Live(s), Awaiting(s), k, t, s');
  }

  // ------------------------------------------------------- the steps of a pass

  /** In a pass of `p`, only its pushed entry awaits removal. */
  lemma OneAwaiting(s: State, p: nat)
    requires p in s.promoters && forall q :: q in s.promoters && q != p ==> s.promoters[q].Resting?
    ensures Awaiting(s) == if s.promoters[p].Pushed? then {s.promoters[p].job} else {}
  {
    forall j | j in Awaiting(s)
      ensures s.promoters[p].Pushed? && j == s.promoters[p].job
    {
      var q :| q in s.promoters && s.promoters[q].Pushed? && s.promoters[q].job == j;
    }
    if s.promoters[p].Pushed? {
      assert s.promoters[p].job in Awaiting(s);
    }
  }

  lemma OnePass(s: State, p: nat)
    requires p in s.promoters && forall q :: q in s.promoters && q != p ==> s.promoters[q].Resting?
    requires PassOk(s.delayed, s.promoters[p])
    ensures PassesOk(s)
  {}

  /** A step of the only pass that leaves the live copies as they are. */
  lemma PassFor(s: State, live: multiset<JobRecord>, awaiting: set<JobRecord>, p: nat, pc: Promoter, s': State)
    requires InvFor(s, live, awaiting) && p in s.promoters
    requires forall q :: q in s.promoters && q != p ==> s.promoters[q].Resting?
    requires s' == s.(promoters := s.promoters[p := pc], active := s'.active, delayed := s'.delayed, now := s'.now)
    requires s'.delayed <= s.delayed && PassOk(s'.delayed, pc)
    requires pc.Pushed? ==> Since(pc.job, live, s'.active, s.slots, s.requests, s.store)
    ensures InvFor(s', live, if pc.Pushed? then {pc.job} else {})
  {
    OnePass(s', p);
  }

  lemma PassKeeps(s: State, p: nat, pc: Promoter, s': State)
    requires Inv(s) && p in s.promoters && forall q :: q in s.promoters && q != p ==> s.promoters[q].Resting?
    requires s' == s.(promoters := s.promoters[p := pc], active := s'.active, delayed := s'.delayed, now := s'.now)
    requires Live(s') == Live(s) && s'.delayed <= s.delayed && PassOk(s'.delayed, pc)
    requires pc.Pushed? ==> Since(pc.job, Live(s), s'.active, s.slots, s.requests, s.store)
    ensures Inv(s')
  {
    OneAwaiting(s', p);
    PassFor(s, Live(s), Awaiting(s), p, pc, s');
  }

  lemma Alone(s: State, p: nat)
    requires PassesOk(s) && p in s.promoters && !s.promoters[p].Resting?
    ensures forall q :: q in s.promoters && q != p ==> s.promoters[q].Resting?
    ensures PassOk(s.delayed, s.promoters[p])
  {}

  lemma ScanKeeps(s: State, p: nat, t: Time, reply: seq<JobRecord>)
    requires Inv(s) && Enabled(s, Scan(p, t, reply)) && Orderly(s, Scan(p, t, reply))
    ensures Inv(Apply(s, Scan(p, t, reply)))
  {
    var s' := Apply(s, Scan(p, t, reply));
    OneAwaiting(s, p);
    OneAwaiting(s', p);
    PassKeeps(s, p, Looping(reply), s');
  }

  lemma TailOk(delayed: set<JobRecord>, todo: seq<JobRecord>)
    requires todo != [] && PassOk(delayed, Looping(todo))
    ensures PassOk(delayed, Looping(todo[1..])) && PassOk(delayed, Pushed(todo[0], todo[1..]))
  {
    assert todo == [todo[0]] + todo[1..];
  }

  /** Pushing an entry makes its copy active instead of delayed, as far as live copies go. */
  lemma PushLive(s: State, p: nat, job: JobRecord, s': State)
    requires p in s.promoters && forall q :: q in s.promoters && q != p ==> s.promoters[q].Resting?
    requires s.promoters[p].Looping? && job in s.delayed
    requires p in s'.promoters && s'.promoters[p].Pushed? && s'.promoters[p].job == job
    requires forall q :: q in s'.promoters && q != p ==> s'.promoters[q].Resting?
    requires s'.active == s.active + multiset{job} && s'.dead == s.dead && s'.delayed == s.delayed
    ensures Live(s') == Live(s) && job in Live(s)
  {
    OneAwaiting(s, p);
    OneAwaiting(s', p);
    assert s.delayed == (s.delayed - {job}) + {job} && s.delayed - {} == s.delayed;
    assert job in multiset(s.delayed);
  }

  /** The entry just pushed: its job may still be with the worker that put it back. */
  lemma JustPushed(
    live: multiset<JobRecord>, active: multiset<JobRecord>, slots: map<nat, Pc>,
    requests: map<Id, JobRecord>, store: map<Id, JobRecord>, job: JobRecord)
    requires PlacesOk(live, slots, requests) && LiveStored(live, store) && job in live && job in active
    ensures Since(job, live, active, slots, requests, store)
  {}

  lemma PushKeeps(s: State, p: nat)
    requires Inv(s) && Enabled(s, Push(p, true))
    ensures Inv(Apply(s, Push(p, true)))
  {
    PushAllowed(s, p);
    PassKeeps(s, p, Apply(s, Push(p, true)).promoters[p], Apply(s, Push(p, true)));
  }

  lemma PushAllowed(s: State, p: nat)
    requires CopiesOk(Live(s), s.slots, s.requests, s.store) && PassesOk(s) && Enabled(s, Push(p, true))
    ensures var s', job := Apply(s, Push(p, true)), s.promoters[p].todo[0];
            && (forall q :: q in s.promoters && q != p ==> s.promoters[q].Resting?)
            && Live(s') == Live(s) && PassOk(s.delayed, s'.promoters[p]) && job in Live(s)
            && Since(job, Live(s), s'.active, s.slots, s.requests, s.store)
  {
    PushMoves(s, p);
    var s', job := Apply(s, Push(p, true)), s.promoters[p].todo[0];
    JustPushed(Live(s), s'.active, s.slots, s.requests, s.store, job);
  }

  lemma PushMoves(s: State, p: nat)
    requires PassesOk(s) && Enabled(s, Push(p, true))
    ensures var s', job := Apply(s, Push(p, true)), s.promoters[p].todo[0];
            && (forall q :: q in s.promoters && q != p ==> s.promoters[q].Resting?)
            && Live(s') == Live(s) && PassOk(s.delayed, s'.promoters[p]) && job in Live(s)
  {
    var s', job := Apply(s, Push(p, true)), s.promoters[p].todo[0];
    Alone(s, p);
    TailOk(s.delayed, s.promoters[p].todo);
    PushLive(s, p, job, s');
  }

  lemma SkipKeeps(s: State, p: nat)
    requires Inv(s) && Enabled(s, Push(p, false))
    ensures Inv(Apply(s, Push(p, false)))
  {
    var s' := Apply(s, Push(p, false));
    Alone(s, p);
    OneAwaiting(s, p);
    OneAwaiting(s', p);
    TailOk(s.delayed, s.promoters[p].todo);
    PassKeeps(s, p, Looping(s.promoters[p].todo[1..]), s');
  }

  lemma RemoveKeeps(s: State, p: nat)
    requires Inv(s) && Enabled(s, Remove(p, true))
    ensures Inv(Apply(s, Remove(p, true)))
  {
    var s', job := Apply(s, Remove(p, true)), s.promoters[p].job;
    Alone(s, p);
    OneAwaiting(s, p);
    OneAwaiting(s', p);
    assert s'.delayed - {} == s.delayed - {job};
    PassKeeps(s, p, Looping(s.promoters[p].todo), s');
  }

  lemma RestKeeps(s: State, p: nat)
    requires Inv(s) && p in s.promoters && !s.promoters[p].Pushed?
    ensures Inv(SetPromoter(s, p, Resting))
  {
    var s' := SetPromoter(s, p, Resting);
    if s.promoters[p].Resting? {
      assert s'.promoters == s.promoters;
      assert s' == s;
    } else {
      Alone(s, p);
      OneAwaiting(s, p);
      OneAwaiting(s', p);
      PassKeeps(s, p, Resting, s');
    }
  }

  // ---------------------------------------------------------------- all together

  /** The actions of a pass. */
  predicate InPass(a: Action) {
    a.Scan? || a.Push? || a.Remove? || a.Finish? || a.Crash?
  }

  lemma PassStepKeeps(s: State, a: Action)
    requires Inv(s) && Enabled(s, a) && Orderly(s, a) && InPass(a)
    ensures Inv(Apply(s, a))
  {
    match a
    case Scan(p, t, reply) => ScanKeeps(s, p, t, reply);
    case Push(p, ok) => if ok { PushKeeps(s, p); } else { SkipKeeps(s, p); }
    case Remove(p, ok) => RemoveKeeps(s, p);
    case Finish(p) => RestKeeps(s, p);
    case Crash(p) => RestKeeps(s, p);
  }

  /** Every step keeps the invariant, unless it hands out a job whose last ProcessJob
      call has not finished. */
  lemma OrderlyStepKeeps(s: State, a: Action)
    requires Inv(s) && Enabled(s, a) && Orderly(s, a) && (a.Dequeue? ==> !Busy(s.slots, a.job.id))
    ensures Inv(Apply(s, a))
  {
    match a
    case Tick(t) => TickKeeps(s, t);
    case Submit(id, req, t) => SubmitKeeps(s, id, req, t);
    case Dispatch(id) => DispatchKeeps(s, id);
    case Dequeue(k, job) => DequeueKeeps(s, k, job);
    case Start(k, worker, t) => StartKeeps(s, k, worker, t);
    case Succeed(k, t) => SucceedKeeps(s, k, t);
    case Fail(k, error, t, oor) => FailKeeps(s, k, error, t, oor);
    case Release(k) => ReleaseKeeps(s, k);
    case StoreFinal(k, t) => StoreFinalKeeps(s, k, t);
    case _ => PassStepKeeps(s, a);
  }

  /** The invariant for runs that keep to a discipline. */
  ghost predicate InvUnder(d: Discipline, s: State) {
    Inv(s) && (d.NotEarly? ==> ActiveFree(s))
  }

  lemma TakenFree(s: State, k: nat, job: JobRecord)
    requires LiveUnique(Live(s)) && ActiveFree(s) && Enabled(s, Dequeue(k, job))
    ensures ActiveFree(Apply(s, Dequeue(k, job)))
  {
    var s' := Apply(s, Dequeue(k, job));
    forall j | j in s'.active
      ensures j in s.active && j.id != job.id
    {
      assert j in Live(s) && job in Live(s) && s.active[job] <= Live(s)[job];
    }
  }

  /** The actions of a ProcessJob call. */
  predicate InCall(a: Action) {
    a.Start? || a.Succeed? || a.Fail? || a.Release? || a.StoreFinal?
  }

  lemma CallShape(s: State, a: Action)
    requires Enabled(s, a) && InCall(a)
    ensures var s' := Apply(s, a);
            && a.k in s.slots && a.k in s'.slots && s'.slots == s.slots[a.k := s'.slots[a.k]]
            && !s.slots[a.k].Idle? && !s'.slots[a.k].Taken?
            && (s'.slots[a.k].Idle? || s'.slots[a.k].job.id == s.slots[a.k].job.id)
            && s'.active == s.active && s'.promoters == s.promoters && s'.requests == s.requests
  {
    match a
    case Start(k, worker, t) =>
    case Succeed(k, t) =>
    case Fail(k, error, t, oor) =>
    case Release(k) =>
    case StoreFinal(k, t) =>
  }

  /** A slot that goes on with its job, or lets it go. */
  lemma SlotFree(s: State, k: nat, s': State)
    requires ActiveFree(s) && k in s.slots && k in s'.slots && s'.slots == s.slots[k := s'.slots[k]]
    requires s'.slots[k].Idle? || (!s.slots[k].Idle? && s'.slots[k].job.id == s.slots[k].job.id)
    requires s'.active == s.active
    ensures ActiveFree(s')
  {
    forall i, j | i in s'.slots && j in s'.active
      ensures !Has(s'.slots[i], j.id)
    {
      assert !Has(s.slots[i], j.id);
    }
  }

  lemma NoSlotHas(slots: map<nat, Pc>, id: Id)
    requires !Busy(slots, id)
    ensures forall k :: k in slots ==> !Has(slots[k], id)
  {}

  lemma DispatchFree(s: State, id: Id)
    requires ActiveFree(s) && id in s.requests && s.requests[id].id == id
    requires forall k :: k in s.slots ==> !Has(s.slots[k], id)
    ensures ActiveFree(Apply(s, Dispatch(id)))
  {}

  lemma PushFree(s: State, p: nat)
    requires ActiveFree(s) && Enabled(s, Push(p, true)) && !Busy(s.slots, s.promoters[p].todo[0].id)
    ensures ActiveFree(Apply(s, Push(p, true)))
  {
    NoSlotHas(s.slots, s.promoters[p].todo[0].id);
  }

  lemma OtherFree(s: State, a: Action)
    requires ActiveFree(s) && Enabled(s, a)
    requires a.Tick? || a.Submit? || (InPass(a) && !(a.Push? && a.ok))
    ensures ActiveFree(Apply(s, a))
  {
    assert Apply(s, a).active == s.active && Apply(s, a).slots == s.slots;
  }

  /** If no job is promoted early, none that is up for taking is in progress. */
  lemma FreeStep(s: State, a: Action)
    requires LiveUnique(Live(s)) && RequestsApart(Live(s), s.slots, s.requests) && RequestsStored(s.requests, s.store)
    requires ActiveFree(s) && Enabled(s, a) && Allowed(NotEarly, s, a)
    ensures ActiveFree(Apply(s, a))
  {
    if a.Dequeue? {
      TakenFree(s, a.k, a.job);
    } else if a.Dispatch? {
      DispatchFree(s, a.id);
    } else if a.Push? && a.ok {
      PushFree(s, a.p);
    } else if InCall(a) {
      CallShape(s, a);
      SlotFree(s, a.k, Apply(s, a));
    } else {
      OtherFree(s, a);
    }
  }

  /** Every step that the discipline allows keeps the invariant. */
  lemma StepKeeps(d: Discipline, s: State, a: Action)
    requires !d.Free? && InvUnder(d, s) && Enabled(s, a) && Allowed(d, s, a)
    ensures InvUnder(d, Apply(s, a))
  {
    OrderlyStepKeeps(s, a);
    if d.NotEarly? {
      FreeStep(s, a);
    }
  }
}
