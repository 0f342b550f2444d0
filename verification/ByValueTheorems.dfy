/** Runs of the services over copying adapters: which copies agree with the stored
    record, exactly when an update can be lost, and how early a job may start. */
module ByValueTheorems {
  import opened Domain
  import opened ByValue
  import opened ByValueInvariant
  import R = RedisSpec

  // -------------------------------------------------------------------- runs

  ghost predicate Init(s: State) {
    && s.store == map[] && s.active == multiset{} && s.delayed == {} && s.dead == multiset{} && s.requests == map[]
    && (forall k :: k in s.slots ==> s.slots[k].Idle?)
    && forall p :: p in s.promoters ==> s.promoters[p].Resting?
  }

  ghost predicate IsRun(trace: seq<State>, acts: seq<Action>) {
    && |trace| == |acts| + 1 && Init(trace[0])
    && forall i :: 0 <= i < |acts| ==> Enabled(trace[i], acts[i]) && trace[i + 1] == Apply(trace[i], acts[i])
  }

  lemma InitInv(s: State)
    requires Init(s)
    ensures Inv(s) && ActiveFree(s)
  {
    assert Awaiting(s) == {};
    assert Live(s) == multiset{};
  }

  lemma {:induction false} RunKeeps(d: Discipline, trace: seq<State>, acts: seq<Action>, i: nat)
    requires !d.Free? && IsRun(trace, acts) && i < |trace|
    requires forall j :: 0 <= j < i ==> Allowed(d, trace[j], acts[j])
    ensures InvUnder(d, trace[i])
  {
    if i == 0 {
      InitInv(trace[0]);
    } else {
      RunKeeps(d, trace, acts, i - 1);
      StepKeeps(d, trace[i - 1], acts[i - 1]);
    }
  }

  predicate IsCopy(s: State, x: JobRecord) {
    x in s.active || x in s.delayed || x in s.dead
  }

  /** A delayed entry whose pushed copy has been taken while its removal is to come. */
  ghost predicate Superseded(s: State, x: JobRecord) {
    x in Awaiting(s) && x !in s.active
  }

  lemma CopyAgrees(s: State, x: JobRecord)
    requires Inv(s) && IsCopy(s, x) && !Busy(s.slots, x.id)
    ensures x.id in s.store && (Agree(x, s.store[x.id]) <==> !Superseded(s, x))
  {
    DelayedLive(s, x);
    if Superseded(s, x) {
      assert Since(x, Live(s), s.active, s.slots, s.requests, s.store);
      var p :| p in s.promoters && s.promoters[p].Pushed? && s.promoters[p].job == x;
      assert PassOk(s.delayed, s.promoters[p]);
    }
  }

  /** In runs where the ProcessJob calls for a job do not overlap, or where each of them
      makes its last UpdateJob before its job is promoted again, and passes are orderly:
      whenever no call for a job is in progress, a queued, delayed or dead copy of it
      agrees with the stored record on all but the update time, exactly unless it is a
      delayed entry still to be removed whose pushed copy has already been taken. */
  lemma CopiesAgree(d: Discipline, trace: seq<State>, acts: seq<Action>, i: nat, x: JobRecord)
    requires !d.Free? && IsRun(trace, acts) && i < |trace| && IsCopy(trace[i], x)
    requires forall j :: 0 <= j < i ==> Allowed(d, trace[j], acts[j])
    requires !Busy(trace[i].slots, x.id)
    ensures x.id in trace[i].store && (Agree(x, trace[i].store[x.id]) <==> !Superseded(trace[i], x))
  {
    RunKeeps(d, trace, acts, i);
    CopyAgrees(trace[i], x);
  }

  /** The state after a sequence of actions, if each is enabled and allowed in its turn. */
  ghost function Play(d: Discipline, s: State, acts: seq<Action>): Option<State>
    decreases |acts|
  {
    if acts == [] then Some(s)
    else if Enabled(s, acts[0]) && Allowed(d, s, acts[0]) then Play(d, Apply(s, acts[0]), acts[1..])
    else None
  }

  lemma PlayOne(d: Discipline, s: State, a: Action, rest: seq<Action>)
    requires Enabled(s, a) && Allowed(d, s, a)
    ensures Play(d, s, [a] + rest) == Play(d, Apply(s, a), rest)
  {
    assert ([a] + rest)[1..] == rest;
  }

  lemma PlayTwo(d: Discipline, s: State, a: Action, b: Action, rest: seq<Action>)
    requires Enabled(s, a) && Allowed(d, s, a) && Enabled(Apply(s, a), b) && Allowed(d, Apply(s, a), b)
    ensures Play(d, s, [a, b] + rest) == Play(d, Apply(Apply(s, a), b), rest)
  {
    PlayOne(d, s, a, [b] + rest);
    PlayOne(d, Apply(s, a), b, rest);
    assert [a, b] + rest == [a] + ([b] + rest);
  }

  lemma {:induction false} PlayKeeps(d: Discipline, s: State, acts: seq<Action>)
    requires !d.Free? && InvUnder(d, s)
    ensures Play(d, s, acts).Some? ==> InvUnder(d, Play(d, s, acts).value)
    decreases |acts|
  {
    if acts != [] && Enabled(s, acts[0]) && Allowed(d, s, acts[0]) {
      StepKeeps(d, s, acts[0]);
      PlayKeeps(d, Apply(s, acts[0]), acts[1..]);
    }
  }

  // --------------------------------------------- inside the window of a pass

  /** An entry about to be pushed is delayed and not in its list already. */
  lemma ToBePushed(s: State, p: nat)
    requires LiveUnique(Live(s)) && StatusOk(s) && PassesOk(s) && Enabled(s, Push(p, true))
    ensures var x := s.promoters[p].todo[0];
            x in s.delayed && x.status == Scheduled && x !in s.active
  {
    var x := s.promoters[p].todo[0];
    Alone(s, p);
    OneAwaiting(s, p);
    assert x in s.promoters[p].todo;
    assert s.delayed - {} == s.delayed;
    assert Live(s)[x] == s.active[x] + s.dead[x] + 1;
  }

  /** The state after slot `k` has taken the active copy `x` and completed the job. */
  ghost function Completes(s: State, k: nat, x: JobRecord): State
    requires Enabled(s, Dequeue(k, x))
  {
    Apply(Apply(Apply(s, Dequeue(k, x)), Start(k, "", s.now)), Succeed(k, s.now))
  }

  lemma CompletesEffect(d: Discipline, s: State, k: nat, x: JobRecord)
    requires Enabled(s, Dequeue(k, x)) && forall i :: i in s.slots ==> !Has(s.slots[i], x.id)
    ensures Play(d, s, [Dequeue(k, x), Start(k, "", s.now)] + ([Succeed(k, s.now)] + [])) == Some(Completes(s, k, x))
    ensures var s' := Completes(s, k, x);
            && s'.delayed == s.delayed && s'.promoters == s.promoters && s'.active == s.active - multiset{x}
            && !Busy(s'.slots, x.id) && x.id in s'.store && s'.store[x.id].status == Completed
  {
    PlayTwo(d, s, Dequeue(k, x), Start(k, "", s.now), [Succeed(k, s.now)] + []);
    PlayOne(d, Apply(Apply(s, Dequeue(k, x)), Start(k, "", s.now)), Succeed(k, s.now), []);
  }

  /** Between the push and the removal agreement does fail: wherever a pass is about to
      push a due entry of a job that no call is busy with, and a worker is free, the
      worker may take the pushed copy and complete the job before the removal; then the
      entry says scheduled and the record completed, with no call in progress. */
  lemma WindowDisagrees(d: Discipline, s: State, p: nat, k: nat) returns (acts: seq<Action>, s': State)
    requires Inv(s) && Enabled(s, Push(p, true)) && k in s.slots && s.slots[k].Idle?
    requires !Busy(s.slots, s.promoters[p].todo[0].id)
    ensures Play(d, s, acts) == Some(s')
    ensures var x := s.promoters[p].todo[0];
            && x in s'.delayed && Superseded(s', x) && !Busy(s'.slots, x.id) && x.id in s'.store
            && x.status == Scheduled && s'.store[x.id].status == Completed
  {
    ToBePushed(s, p);
    acts, s' := WindowRun(d, s, p, k);
  }

  lemma WindowRun(d: Discipline, s: State, p: nat, k: nat) returns (acts: seq<Action>, s': State)
    requires Enabled(s, Push(p, true)) && k in s.slots && s.slots[k].Idle?
    requires !Busy(s.slots, s.promoters[p].todo[0].id) && s.promoters[p].todo[0] !in s.active
    ensures Play(d, s, acts) == Some(s')
    ensures var x := s.promoters[p].todo[0];
            && s'.delayed == s.delayed && Superseded(s', x) && !Busy(s'.slots, x.id) && x.id in s'.store
            && s'.store[x.id].status == Completed
            && s'.promoters == s.promoters[p := Pushed(x, s.promoters[p].todo[1..])]
  {
    var x := s.promoters[p].todo[0];
    var rest := [Dequeue(k, x), Start(k, "", s.now)] + ([Succeed(k, s.now)] + []);
    NoSlotHas(s.slots, x.id);
    PlayOne(d, s, Push(p, true), rest);
    CompletesEffect(d, Apply(s, Push(p, true)), k, x);
    acts, s' := [Push(p, true)] + rest, Completes(Apply(s, Push(p, true)), k, x);
    assert s'.promoters[p].Pushed? && s'.promoters[p].job == x;
  }

  // ------------------------------------------------------------ disagreement

  /** A copy that is not superseded disagrees with its record, with no call in progress. */
  ghost predicate Disagrees(s: State) {
    exists x :: IsCopy(s, x) && !Superseded(s, x) && !Busy(s.slots, x.id)
                && !(x.id in s.store && Agree(x, s.store[x.id]))
  }

  ghost predicate CanDisagree(d: Discipline, s: State) {
    exists acts :: Play(d, s, acts).Some? && Disagrees(Play(d, s, acts).value)
  }

  lemma NoDisagreement(d: Discipline, s: State)
    requires !d.Free? && InvUnder(d, s)
    ensures !CanDisagree(d, s)
  {
    forall acts | Play(d, s, acts).Some?
      ensures !Disagrees(Play(d, s, acts).value)
    {
      PlayKeeps(d, s, acts);
      var s' := Play(d, s, acts).value;
      forall x | IsCopy(s', x) && !Superseded(s', x) && !Busy(s'.slots, x.id)
        ensures x.id in s'.store && Agree(x, s'.store[x.id])
      {
        CopyAgrees(s', x);
      }
    }
  }

  lemma DisagreesNow(d: Discipline, s: State)
    requires Disagrees(s)
    ensures CanDisagree(d, s)
  {
    assert Play(d, s, []) == Some(s);
  }

  lemma DisagreesLater(d: Discipline, s: State, a: Action)
    requires Enabled(s, a) && Allowed(d, s, a) && CanDisagree(d, Apply(s, a))
    ensures CanDisagree(d, s)
  {
    var acts :| Play(d, Apply(s, a), acts).Some? && Disagrees(Play(d, Apply(s, a), acts).value);
    PlayOne(d, s, a, acts);
    assert Play(d, s, [a] + acts).Some?;
  }

  lemma {:induction false} DisagreesAfter(d: Discipline, s: State, acts: seq<Action>, s': State)
    requires Play(d, s, acts) == Some(s') && CanDisagree(d, s')
    ensures CanDisagree(d, s)
    decreases |acts|
  {
    if acts != [] {
      DisagreesAfter(d, Apply(s, acts[0]), acts[1..], s');
      DisagreesLater(d, s, acts[0]);
    }
  }

  // ------------------------------------------------- what disorderly passes do

  /** A removal that fails, or a pass cut off before it, leaves the stale entry behind:
      with a worker free this can happen wherever a pass is about to push an entry of a
      job that no call is busy with. */
  lemma UnremovedDisagrees(d: Discipline, s: State, p: nat, k: nat, a: Action) returns (acts: seq<Action>, s': State)
    requires Inv(s) && Enabled(s, Push(p, true)) && k in s.slots && s.slots[k].Idle?
    requires !Busy(s.slots, s.promoters[p].todo[0].id) && (a == Remove(p, false) || a == Crash(p))
    ensures Play(d, s, acts) == Some(s') && Enabled(s', a) && Disagrees(Apply(s', a))
  {
    ToBePushed(s, p);
    Alone(s, p);
    acts, s' := UnremovedRun(d, s, p, k, a);
  }

  lemma UnremovedRun(d: Discipline, s: State, p: nat, k: nat, a: Action) returns (acts: seq<Action>, s': State)
    requires Enabled(s, Push(p, true)) && k in s.slots && s.slots[k].Idle?
    requires forall q :: q in s.promoters && q != p ==> s.promoters[q].Resting?
    requires var x := s.promoters[p].todo[0];
             !Busy(s.slots, x.id) && x in s.delayed && x !in s.active && x.status == Scheduled
    requires a == Remove(p, false) || a == Crash(p)
    ensures Play(d, s, acts) == Some(s') && Enabled(s', a) && Disagrees(Apply(s', a))
  {
    acts, s' := WindowRun(d, s, p, k);
    StaleEntry(s', p, s.promoters[p].todo[0], a);
  }

  lemma StaleEntry(s: State, p: nat, x: JobRecord, a: Action)
    requires p in s.promoters && s.promoters[p].Pushed? && (a == Remove(p, false) || a == Crash(p))
    requires forall q :: q in s.promoters && q != p ==> s.promoters[q].Resting?
    requires x in s.delayed && x.status == Scheduled && !Busy(s.slots, x.id)
    requires x.id in s.store && s.store[x.id].status == Completed
    ensures Disagrees(Apply(s, a))
  {
    var s' := Apply(s, a);
    OneAwaiting(s', p);
    assert IsCopy(s', x) && !Superseded(s', x) && !Busy(s'.slots, x.id) && !Agree(x, s'.store[x.id]);
  }

  /** Two passes that both have the entry still to push: the second push brings back a
      job that has been completed in between. */
  lemma TwoPassesDisagree(d: Discipline, s: State, p: nat, q: nat, k: nat)
    requires Enabled(s, Push(p, true)) && Enabled(s, Push(q, true)) && p != q && k in s.slots && s.slots[k].Idle?
    requires var x := s.promoters[p].todo[0];
             s.promoters[q].todo[0] == x && x !in s.active && x.status == Scheduled && !Busy(s.slots, x.id)
    ensures CanDisagree(d, s)
  {
    var x := s.promoters[p].todo[0];
    var acts, s' := WindowRun(d, s, p, k);
    var s2 := Apply(s', Push(q, true));
    assert x in s2.active;
    assert IsCopy(s2, x) && !Superseded(s2, x) && !Busy(s2.slots, x.id) && !Agree(x, s2.store[x.id]);
    DisagreesNow(d, s2);
    DisagreesLater(d, s', Push(q, true));
    DisagreesAfter(d, s, acts, s');
  }

  // -------------------------------------------------- two calls for one job

  /** The job `j` as a worker puts it back after a failure. */
  function PutBack(j: JobRecord, now: Time): JobRecord {
    Settled(AsProcessing(j, "", now, now), "", now, 0)
  }

  /** Slot `m`, which has taken a job, starts it and fails. */
  ghost function Failing(s: State, m: nat): State
    requires m in s.slots && s.slots[m].Taken?
  {
    Apply(Apply(s, Start(m, "", s.now)), Fail(m, "", s.now, 0))
  }

  lemma FailingState(s: State, m: nat)
    requires m in s.slots && s.slots[m].Taken?
    ensures var j := s.slots[m].job;
            && Failing(s, m).slots == s.slots[m := Settling(PutBack(j, s.now))]
            && Failing(s, m) == s.(slots := Failing(s, m).slots, store := Failing(s, m).store)
  {}

  /** And puts the job back. */
  ghost function Attempted(s: State, m: nat): State
    requires m in s.slots && s.slots[m].Taken?
  {
    FailingState(s, m);
    Apply(Failing(s, m), Release(m))
  }

  lemma AttemptedState(s: State, m: nat)
    requires m in s.slots && s.slots[m].Taken?
    ensures var (job, s') := (PutBack(s.slots[m].job, s.now), Attempted(s, m));
            && s'.slots == s.slots[m := Trailing(job)] && IsCopy(s', job)
            && s'.active == s.active && s'.promoters == s.promoters && s'.now == s.now
            && s'.delayed == if job.status == Scheduled then s.delayed + {job} else s.delayed
  {
    FailingState(s, m);
  }

  lemma PutBackLater(j: JobRecord, now: Time)
    ensures PutBack(j, now).id == j.id && Attempts(PutBack(j, now)) == Attempts(j) + 1
  {}

  lemma AttemptDisagrees(d: Discipline, s: State, m: nat)
    requires m in s.slots && s.slots[m].Taken? && CanDisagree(d, Attempted(s, m))
    ensures CanDisagree(d, s)
  {
    FailingState(s, m);
    DisagreesLater(d, Failing(s, m), Release(m));
    DisagreesLater(d, Apply(s, Start(m, "", s.now)), Fail(m, "", s.now, 0));
    DisagreesLater(d, s, Start(m, "", s.now));
  }

  /** The last UpdateJob of slot `m` and then that of slot `k`: the later one wins. */
  lemma LateWrite(s: State, k: nat, m: nat, id: Id)
    requires k in s.slots && m in s.slots && k != m && s.slots[k].Trailing? && s.slots[m].Trailing?
    requires s.slots[k].job.id == s.slots[m].job.id == id
    requires forall i :: i in s.slots && i != k && i != m ==> !Has(s.slots[i], id)
    ensures var s' := Apply(Apply(s, StoreFinal(m, s.now)), StoreFinal(k, s.now));
            && !Busy(s'.slots, id) && id in s'.store && s'.store[id] == s.slots[k].job.(updatedAt := s.now)
            && s'.active == s.active && s'.delayed == s.delayed && s'.dead == s.dead && s'.promoters == s.promoters
  {}

  /** Two calls that have put the job back, the copy `x` of the later one in a queue:
      the last UpdateJob of the earlier one can come last. */
  lemma LateWriteDisagrees(d: Discipline, s: State, k: nat, m: nat, x: JobRecord)
    requires k in s.slots && m in s.slots && k != m && s.slots[k].Trailing? && s.slots[m] == Trailing(x)
    requires s.slots[k].job.id == x.id && Attempts(s.slots[k].job) < Attempts(x)
    requires forall i :: i in s.slots && i != k && i != m ==> !Has(s.slots[i], x.id)
    requires IsCopy(s, x) && x !in Awaiting(s)
    ensures CanDisagree(d, s)
  {
    var s1 := Apply(s, StoreFinal(m, s.now));
    var s2 := Apply(s1, StoreFinal(k, s.now));
    LateWrite(s, k, m, x.id);
    assert Awaiting(s2) == Awaiting(s);
    assert IsCopy(s2, x) && !Superseded(s2, x) && !Agree(x, s2.store[x.id]);
    DisagreesNow(d, s2);
    DisagreesLater(d, s1, StoreFinal(k, s.now));
    DisagreesLater(d, s, StoreFinal(m, s.now));
  }

  /** Two calls for one job: slot `k` has put the job `j` back and not made its last
      UpdateJob, slot `m` has taken it again.  If `m` fails, whether the job is retried
      or buried, the last UpdateJob of `k` can overwrite the record of that attempt. */
  lemma UpdateLost(d: Discipline, s: State, k: nat, m: nat, j: JobRecord)
    requires k in s.slots && s.slots[k] == Trailing(j) && m in s.slots && s.slots[m] == Taken(j) && k != m
    requires forall i :: i in s.slots && i != k && i != m ==> !Has(s.slots[i], j.id)
    requires forall y :: y in Awaiting(s) && y.id == j.id ==> Attempts(y) <= Attempts(j)
    ensures CanDisagree(d, s)
  {
    var s' := Attempted(s, m);
    AttemptedState(s, m);
    PutBackLater(j, s.now);
    assert Awaiting(s') == Awaiting(s);
    LateWriteDisagrees(d, s', k, m, PutBack(j, s.now));
    AttemptDisagrees(d, s, m);
  }

  /** The same, one step earlier. */
  lemma TakenTwice(d: Discipline, s: State, k: nat, m: nat, j: JobRecord)
    requires k in s.slots && s.slots[k] == Trailing(j) && Enabled(s, Dequeue(m, j))
    requires forall i :: i in s.slots && i != k ==> !Has(s.slots[i], j.id)
    requires forall y :: y in Awaiting(s) && y.id == j.id ==> Attempts(y) <= Attempts(j)
    ensures CanDisagree(d, Apply(s, Dequeue(m, j)))
  {
    assert Awaiting(Apply(s, Dequeue(m, j))) == Awaiting(s);
    UpdateLost(d, Apply(s, Dequeue(m, j)), k, m, j);
  }

  /** A job up for taking whose call is in progress is with one worker, which has its
      last UpdateJob still to make; entries of it awaiting removal are no later. */
  lemma OneBusy(s: State, live: multiset<JobRecord>, awaiting: set<JobRecord>, j: JobRecord) returns (k: nat)
    requires InvFor(s, live, awaiting) && j in live && Busy(s.slots, j.id)
    ensures k in s.slots && s.slots[k] == Trailing(j)
    ensures forall i :: i in s.slots && i != k ==> !Has(s.slots[i], j.id)
    ensures forall y :: y in awaiting && y.id == j.id ==> Attempts(y) <= Attempts(j)
  {
    k :| k in s.slots && Has(s.slots[k], j.id);
  }

  /** Handing out a job can lead to a lost update, and so to a disagreement, exactly when
      a ProcessJob call for it is still in progress; whatever else happens afterwards, as
      long as no other calls overlap. */
  lemma OverlapExact(s: State, m: nat, j: JobRecord)
    requires Inv(s) && Enabled(s, Dequeue(m, j))
    ensures CanDisagree(NoOverlap, Apply(s, Dequeue(m, j))) <==> Busy(s.slots, j.id)
  {
    if Busy(s.slots, j.id) {
      DelayedLive(s, j);
      var k := OneBusy(s, Live(s), Awaiting(s), j);
      TakenTwice(NoOverlap, s, k, m, j);
    } else {
      DequeueKeeps(s, m, j);
      NoDisagreement(NoOverlap, Apply(s, Dequeue(m, j)));
    }
  }

  lemma EarlyPromotion(d: Discipline, s: State, p: nat, k: nat, m: nat)
    requires Enabled(s, Push(p, true)) && m in s.slots && s.slots[m].Idle? && !d.NoOverlap?
    requires forall q :: q in s.promoters && q != p ==> s.promoters[q].Resting?
    requires var x := s.promoters[p].todo[0];
             && k in s.slots && s.slots[k] == Trailing(x)
             && forall i :: i in s.slots && i != k ==> !Has(s.slots[i], x.id)
    ensures CanDisagree(d, Apply(s, Push(p, true)))
  {
    var s', x := Apply(s, Push(p, true)), s.promoters[p].todo[0];
    OneAwaiting(s', p);
    TakenTwice(d, s', k, m, x);
    DisagreesLater(d, s', Dequeue(m, x));
  }

  /** With a worker free, pushing a due entry can lead to a disagreement exactly when a
      ProcessJob call for its job is still in progress; whatever else happens afterwards,
      as long as nothing else is promoted so early. */
  lemma PromotionExact(s: State, p: nat, m: nat)
    requires InvUnder(NotEarly, s) && Enabled(s, Push(p, true)) && m in s.slots && s.slots[m].Idle?
    ensures CanDisagree(NotEarly, Apply(s, Push(p, true))) <==> Busy(s.slots, s.promoters[p].todo[0].id)
  {
    var x := s.promoters[p].todo[0];
    if Busy(s.slots, x.id) {
      PushMoves(s, p);
      var k := OneBusy(s, Live(s), Awaiting(s), x);
      EarlyPromotion(NotEarly, s, p, k, m);
    } else {
      StepKeeps(NotEarly, s, Push(p, true));
      NoDisagreement(NotEarly, Apply(s, Push(p, true)));
    }
  }

  // --------------------------------------------------- and that it does happen

  /** A request for two attempts without delay between them. */
  const TWO_TRIES: Request := Request("", MEDIUM, "", Some(RetryPolicy(2, 0, 0, 0, Fixed, None)), None)

  /** The job of that request is taken by slot `k`. */
  ghost function FirstTaken(s: State, k: nat): State
    requires Init(s) && k in s.slots
  {
    Apply(Apply(Apply(s, Submit(0, TWO_TRIES, s.now)), Dispatch(0)), Dequeue(k, FirstJob(s.now)))
  }

  function FirstJob(now: Time): JobRecord {
    NewJob(0, TWO_TRIES, now, now, now, now)
  }

  lemma FirstTakenState(s: State, k: nat)
    requires Init(s) && k in s.slots
    ensures var s' := FirstTaken(s, k);
            && s'.slots == s.slots[k := Taken(FirstJob(s.now))] && s'.delayed == {}
            && s'.promoters == s.promoters && s'.now == s.now
    ensures CanDisagree(Free, FirstTaken(s, k)) ==> CanDisagree(Free, s)
  {
    var s1 := Apply(s, Submit(0, TWO_TRIES, s.now));
    var s2 := Apply(s1, Dispatch(0));
    if CanDisagree(Free, FirstTaken(s, k)) {
      DisagreesLater(Free, s2, Dequeue(k, FirstJob(s.now)));
      DisagreesLater(Free, s1, Dispatch(0));
      DisagreesLater(Free, s, Submit(0, TWO_TRIES, s.now));
    }
  }

  /** After a failure the second attempt is due at once. */
  lemma SecondDue(now: Time)
    requires now >= 0
    ensures var x := PutBack(FirstJob(now), now);
            x.status == Scheduled && DueReply({x}, now, [x])
  {
    var x := PutBack(FirstJob(now), now);
    assert x.scheduledAt == now;
    R.WholeSecondTest(now, now);
  }

  /** The disagreement is reached from every initial state with two workers, with orderly
      passes: a job fails once, its retry is promoted before the worker's last UpdateJob,
      and the second failure, which buries the job, is lost from the stored record. */
  lemma OverlapHappens(s: State, k: nat, m: nat, p: nat)
    requires Init(s) && k in s.slots && m in s.slots && k != m && p in s.promoters && s.now >= 0
    ensures CanDisagree(Free, s)
  {
    var x := PutBack(FirstJob(s.now), s.now);
    var s1 := FirstTaken(s, k);
    FirstTakenState(s, k);
    var s2 := Attempted(s1, k);
    AttemptedState(s1, k);
    SecondDue(s.now);
    assert s2.delayed == {x};
    var s3 := Apply(s2, Scan(p, s.now, [x]));
    EarlyPromotion(Free, s3, p, k, m);
    DisagreesLater(Free, s3, Push(p, true));
    DisagreesLater(Free, s2, Scan(p, s.now, [x]));
    AttemptDisagrees(Free, s1, k);
  }

  // ------------------------------------------------------------- start times

  /** The end of the whole second in which `now` lies. */
  function SecondEnd(now: Time): Time {
    (R.Unix(now) + 1) * R.NANOS_PER_SECOND
  }

  lemma WholeSeconds(t: Time, now: Time)
    ensures R.Unix(t) <= R.Unix(now) <==> t < SecondEnd(now)
    ensures now < SecondEnd(now) <= now + R.NANOS_PER_SECOND
    ensures t <= now ==> SecondEnd(t) <= SecondEnd(now)
  {}

  /** What is left of a pass. */
  function Todo(pc: Promoter): seq<JobRecord> {
    if pc.Resting? then [] else pc.todo
  }

  ghost predicate ActiveDue(active: multiset<JobRecord>, end: Time) {
    forall j :: j in active ==> j.scheduledAt < end
  }

  ghost predicate TakenDue(slots: map<nat, Pc>, end: Time) {
    forall k :: k in slots && slots[k].Taken? ==> slots[k].job.scheduledAt < end
  }

  ghost predicate TodoDue(promoters: map<nat, Promoter>, end: Time) {
    forall p, j :: p in promoters && j in Todo(promoters[p]) ==> j.scheduledAt < end
  }

  ghost predicate RequestsDue(requests: map<Id, JobRecord>, end: Time) {
    forall id :: id in requests && requests[id].status != Scheduled ==> requests[id].scheduledAt < end
  }

  /** Active copies, jobs just taken, entries about to be pushed and new jobs about to
      become active are due before `end`. */
  ghost predicate DueBy(s: State, end: Time) {
    ActiveDue(s.active, end) && TakenDue(s.slots, end) && TodoDue(s.promoters, end) && RequestsDue(s.requests, end)
  }

  lemma StillDue(s: State, end: Time, later: Time)
    requires DueBy(s, end) && end <= later
    ensures DueBy(s, later)
  {}

  /** A step of the promoter `p`. */
  lemma PassDue(s: State, p: nat, pc: Promoter, s': State, end: Time)
    requires DueBy(s, end) && s'.promoters == s.promoters[p := pc]
    requires forall j :: j in Todo(pc) ==> j.scheduledAt < end
    requires s'.slots == s.slots && s'.requests == s.requests && ActiveDue(s'.active, end)
    ensures DueBy(s', end)
  {}

  lemma PushDue(s: State, p: nat, ok: bool, end: Time)
    requires DueBy(s, end) && Enabled(s, Push(p, ok))
    ensures DueBy(Apply(s, Push(p, ok)), end)
  {
    var s', todo := Apply(s, Push(p, ok)), s.promoters[p].todo;
    assert todo[0] in Todo(s.promoters[p]) && forall j :: j in todo[1..] ==> j in Todo(s.promoters[p]);
    PassDue(s, p, s'.promoters[p], s', end);
  }

  /** A step of the slot `k` other than a Dequeue. */
  lemma SlotDue(s: State, k: nat, pc: Pc, s': State, end: Time)
    requires DueBy(s, end) && s'.slots == s.slots[k := pc] && !pc.Taken?
    requires s'.active == s.active && s'.promoters == s.promoters && s'.requests == s.requests
    ensures DueBy(s', end)
  {}

  lemma DequeueDue(s: State, k: nat, job: JobRecord, end: Time)
    requires DueBy(s, end) && Enabled(s, Dequeue(k, job))
    ensures DueBy(Apply(s, Dequeue(k, job)), end)
  {}

  lemma SubmitDue(s: State, id: Id, req: Request, t: Time, end: Time)
    requires DueBy(s, end) && Enabled(s, Submit(id, req, t)) && t < end
    ensures DueBy(Apply(s, Submit(id, req, t)), end)
  {}

  lemma DispatchDue(s: State, id: Id, end: Time)
    requires DueBy(s, end) && id in s.requests
    ensures DueBy(Apply(s, Dispatch(id)), end)
  {}

  lemma ReplyDue(delayed: set<JobRecord>, t: Time, reply: seq<JobRecord>)
    requires DueReply(delayed, t, reply)
    ensures forall j :: j in reply ==> j.scheduledAt < SecondEnd(t)
  {
    forall j | j in reply
      ensures j.scheduledAt < SecondEnd(t)
    {
      WholeSeconds(j.scheduledAt, t);
    }
  }

  lemma StepClock(s: State, a: Action)
    requires Enabled(s, a)
    ensures s.now <= Apply(s, a).now && (a.Scan? || a.Submit? ==> Apply(s, a).now == a.t)
  {}

  lemma StepDue(s: State, a: Action)
    requires DueBy(s, SecondEnd(s.now)) && Enabled(s, a)
    ensures DueBy(Apply(s, a), SecondEnd(Apply(s, a).now))
  {
    var now := Apply(s, a).now;
    StepClock(s, a);
    WholeSeconds(s.now, now);
    StillDue(s, SecondEnd(s.now), SecondEnd(now));
    ActionDue(s, a, SecondEnd(now));
  }

  lemma ActionDue(s: State, a: Action, end: Time)
    requires DueBy(s, end) && Enabled(s, a) && (a.Scan? || a.Submit? ==> end == SecondEnd(a.t))
    ensures DueBy(Apply(s, a), end)
  {
    if a.Submit? {
      WholeSeconds(a.t, a.t);
      SubmitDue(s, a.id, a.req, a.t, end);
    } else if a.Dispatch? {
      DispatchDue(s, a.id, end);
    } else if a.Dequeue? {
      DequeueDue(s, a.k, a.job, end);
    } else if InPass(a) {
      PassActionDue(s, a, end);
    } else if InCall(a) {
      CallShape(s, a);
      SlotDue(s, a.k, Apply(s, a).slots[a.k], Apply(s, a), end);
    }
  }

  lemma PassActionDue(s: State, a: Action, end: Time)
    requires DueBy(s, end) && Enabled(s, a) && InPass(a) && (a.Scan? ==> end == SecondEnd(a.t))
    ensures DueBy(Apply(s, a), end)
  {
    match a
    case Scan(p, t, reply) =>
      ReplyDue(s.delayed, t, reply);
      PassDue(s, p, Looping(reply), Apply(s, a), end);
    case Push(p, ok) => PushDue(s, p, ok, end);
    case Remove(p, ok) => PassDue(s, p, Looping(s.promoters[p].todo), Apply(s, a), end);
    case Finish(p) => PassDue(s, p, Resting, Apply(s, a), end);
    case Crash(p) => PassDue(s, p, Resting, Apply(s, a), end);
  }

  lemma {:induction false} RunDue(trace: seq<State>, acts: seq<Action>, i: nat)
    requires IsRun(trace, acts) && i < |trace|
    ensures DueBy(trace[i], SecondEnd(trace[i].now))
  {
    if i > 0 {
      RunDue(trace, acts, i - 1);
      StepDue(trace[i - 1], acts[i - 1]);
    }
  }

  /** With Redis no job ever starts a second or more before its scheduled time, in any
      run: calls may overlap, passes may interleave, fail and be cut off. */
  lemma StartsWithinASecond(trace: seq<State>, acts: seq<Action>, i: nat)
    requires IsRun(trace, acts) && i < |acts| && acts[i].Start?
    ensures acts[i].k in trace[i].slots && trace[i].slots[acts[i].k].Taken?
    ensures trace[i].slots[acts[i].k].job.scheduledAt < acts[i].t + R.NANOS_PER_SECOND
  {
    RunDue(trace, acts, i);
    var s, a := trace[i], acts[i];
    assert Enabled(s, a);
    WholeSeconds(s.now, s.now);
  }
}
