/** Jobs asked for a later time over adapters that copy jobs, and how the steps of the
    by-value model come from the Redis commands and the service's calls. */
module ByValueRequests {
  import opened Domain
  import opened ByValue
  import opened ByValueInvariant
  import opened ByValueTheorems
  import R = RedisSpec
  import S = Services

  // -------------------------------------------- requests for a later time

  ghost predicate RequestIds(s: State) {
    forall i :: i in s.requests ==> s.requests[i].id == i
  }

  ghost predicate TodoWithout(promoters: map<nat, Promoter>, id: Id) {
    forall p, j :: p in promoters && j in Todo(promoters[p]) ==> j.id != id
  }

  /** The job is where its request put it, with the time asked for. */
  ghost predicate Untouched(s: State, id: Id, t: Time) {
    && id in s.store
    && (id in s.requests ==> s.requests[id].status == Scheduled && s.requests[id].scheduledAt == t)
    && (forall j :: j in s.delayed && j.id == id ==> j.scheduledAt == t)
    && (forall j :: j in s.active ==> j.id != id)
    && (forall k :: k in s.slots ==> !Has(s.slots[k], id))
    && TodoWithout(s.promoters, id)
  }

  ghost predicate NotBefore(s: State, id: Id, t: Time) {
    t < SecondEnd(s.now) || Untouched(s, id, t)
  }

  lemma StepRequestIds(s: State, a: Action)
    requires RequestIds(s) && Enabled(s, a)
    ensures RequestIds(Apply(s, a))
  {
    if InCall(a) {
      CallShape(s, a);
    }
  }

  lemma StepStore(s: State, a: Action, id: Id)
    requires Enabled(s, a) && id in s.store
    ensures id in Apply(s, a).store
  {}

  lemma RequestUntouched(s: State, a: Action, id: Id, t: Time)
    requires Enabled(s, a) && Untouched(s, id, t) && RequestIds(s) && (a.Tick? || a.Submit? || a.Dispatch?)
    ensures Untouched(Apply(s, a), id, t)
  {}

  lemma DequeueUntouched(s: State, k: nat, job: JobRecord, id: Id, t: Time)
    requires Enabled(s, Dequeue(k, job)) && Untouched(s, id, t)
    ensures Untouched(Apply(s, Dequeue(k, job)), id, t)
  {}

  /** A call for another job. */
  lemma CallUntouched(s: State, a: Action, id: Id, t: Time)
    requires Enabled(s, a) && Untouched(s, id, t) && InCall(a)
    ensures Untouched(Apply(s, a), id, t)
  {
    CallShape(s, a);
    StepStore(s, a, id);
    CallDelays(s, a);
  }

  lemma CallDelays(s: State, a: Action)
    requires Enabled(s, a) && InCall(a)
    ensures forall j :: j in Apply(s, a).delayed ==> j in s.delayed || j.id == s.slots[a.k].job.id
  {}

  lemma PushShape(s: State, p: nat, ok: bool)
    requires Enabled(s, Push(p, ok))
    ensures var s' := Apply(s, Push(p, ok));
            && (forall j :: j in Todo(s'.promoters[p]) ==> j in Todo(s.promoters[p]))
            && forall j :: j in s'.active ==> j in s.active || j in Todo(s.promoters[p])
  {
    var todo := s.promoters[p].todo;
    assert todo[0] in Todo(s.promoters[p]) && forall j :: j in todo[1..] ==> j in Todo(s.promoters[p]);
  }

  /** A pass moves entries from the delayed set to what is left to do and on to the lists. */
  lemma PassShape(s: State, a: Action)
    requires Enabled(s, a) && InPass(a)
    ensures var s' := Apply(s, a);
            && s'.slots == s.slots && s'.requests == s.requests && s'.store == s.store && s'.delayed <= s.delayed
            && a.p in s.promoters && a.p in s'.promoters && s'.promoters == s.promoters[a.p := s'.promoters[a.p]]
            && (forall j :: j in Todo(s'.promoters[a.p]) ==> j in Todo(s.promoters[a.p]) || (a.Scan? && j in a.reply))
            && forall j :: j in s'.active ==> j in s.active || j in Todo(s.promoters[a.p])
  {
    if a.Push? {
      PushShape(s, a.p, a.ok);
    }
  }

  lemma PassUntouched(s: State, a: Action, id: Id, t: Time)
    requires Enabled(s, a) && Untouched(s, id, t) && InPass(a) && (a.Scan? ==> forall j :: j in a.reply ==> j.id != id)
    ensures Untouched(Apply(s, a), id, t)
  {
    PassShape(s, a);
  }

  /** Only a pass at the time asked for, to the second, finds the job. */
  lemma ScanNotBefore(s: State, p: nat, now: Time, reply: seq<JobRecord>, id: Id, t: Time)
    requires Enabled(s, Scan(p, now, reply)) && Untouched(s, id, t)
    ensures NotBefore(Apply(s, Scan(p, now, reply)), id, t)
  {
    ReplyDue(s.delayed, now, reply);
    if t >= SecondEnd(now) {
      PassUntouched(s, Scan(p, now, reply), id, t);
    }
  }

  lemma StepNotBefore(s: State, a: Action, id: Id, t: Time)
    requires Enabled(s, a) && NotBefore(s, id, t) && RequestIds(s)
    ensures NotBefore(Apply(s, a), id, t)
  {
    StepClock(s, a);
    WholeSeconds(s.now, Apply(s, a).now);
    if t < SecondEnd(s.now) {
    } else if a.Scan? {
      ScanNotBefore(s, a.p, a.t, a.reply, id, t);
    } else if InPass(a) {
      PassUntouched(s, a, id, t);
    } else if InCall(a) {
      CallUntouched(s, a, id, t);
    } else if a.Dequeue? {
      DequeueUntouched(s, a.k, a.job, id, t);
    } else {
      RequestUntouched(s, a, id, t);
    }
  }

  /** No job that the storage does not know is anywhere. */
  ghost predicate Known(s: State) {
    && (forall j :: j in s.active || j in s.delayed ==> j.id in s.store)
    && (forall k :: k in s.slots && !s.slots[k].Idle? ==> s.slots[k].job.id in s.store)
    && (forall i :: i in s.requests ==> i in s.store)
    && forall p, j :: p in s.promoters && j in Todo(s.promoters[p]) ==> j.id in s.store
  }

  lemma PassKnown(s: State, a: Action)
    requires Enabled(s, a) && Known(s) && InPass(a)
    ensures Known(Apply(s, a))
  {
    PassShape(s, a);
  }

  lemma RestKnown(s: State, a: Action)
    requires Enabled(s, a) && Known(s) && RequestIds(s) && !InPass(a) && !InCall(a)
    ensures Known(Apply(s, a))
  {
    if a.Submit? {
      SubmitKnown(s, a.id, a.req, a.t);
    } else if a.Dispatch? {
      DispatchKnown(s, a.id);
    } else if a.Dequeue? {
      DequeueKnown(s, a.k, a.job);
    }
  }

  lemma SubmitKnown(s: State, id: Id, req: Request, t: Time)
    requires Enabled(s, Submit(id, req, t)) && Known(s)
    ensures Known(Apply(s, Submit(id, req, t)))
  {}

  lemma DispatchKnown(s: State, id: Id)
    requires Enabled(s, Dispatch(id)) && Known(s) && RequestIds(s)
    ensures Known(Apply(s, Dispatch(id)))
  {}

  lemma DequeueKnown(s: State, k: nat, job: JobRecord)
    requires Enabled(s, Dequeue(k, job)) && Known(s)
    ensures Known(Apply(s, Dequeue(k, job)))
  {}

  lemma CallKnown(s: State, a: Action)
    requires Enabled(s, a) && Known(s) && InCall(a)
    ensures Known(Apply(s, a))
  {
    CallShape(s, a);
    CallDelays(s, a);
    forall i | i in s.store
      ensures i in Apply(s, a).store
    {
      StepStore(s, a, i);
    }
  }

  lemma StepKnown(s: State, a: Action)
    requires Enabled(s, a) && Known(s) && RequestIds(s)
    ensures Known(Apply(s, a))
  {
    if InPass(a) {
      PassKnown(s, a);
    } else if InCall(a) {
      CallKnown(s, a);
    } else {
      RestKnown(s, a);
    }
  }

  lemma {:induction false} RunKnown(trace: seq<State>, acts: seq<Action>, i: nat)
    requires IsRun(trace, acts) && i < |trace|
    ensures Known(trace[i]) && RequestIds(trace[i])
  {
    if i > 0 {
      RunKnown(trace, acts, i - 1);
      StepKnown(trace[i - 1], acts[i - 1]);
      StepRequestIds(trace[i - 1], acts[i - 1]);
    }
  }

  lemma SubmitNotBefore(s: State, id: Id, req: Request, now: Time, t: Time)
    requires Enabled(s, Submit(id, req, now)) && Known(s) && req.scheduleAt == Some(t) && t > now
    ensures Untouched(Apply(s, Submit(id, req, now)), id, t)
  {}

  lemma {:induction false} RunNotBefore(trace: seq<State>, acts: seq<Action>, b: nat, j: nat, t: Time)
    requires IsRun(trace, acts) && b < j < |trace| && acts[b].Submit?
    requires acts[b].req.scheduleAt == Some(t) && t > acts[b].t
    ensures NotBefore(trace[j], acts[b].id, t)
    decreases j
  {
    RunKnown(trace, acts, j - 1);
    if j == b + 1 {
      SubmitNotBefore(trace[b], acts[b].id, acts[b].req, acts[b].t, t);
    } else {
      RunNotBefore(trace, acts, b, j - 1, t);
      StepNotBefore(trace[j - 1], acts[j - 1], acts[b].id, t);
    }
  }

  /** With Redis, in any run, a job asked for a later time never starts a second or more
      before that time. */
  lemma NeverASecondEarly(trace: seq<State>, acts: seq<Action>, b: nat, j: nat, t: Time)
    requires IsRun(trace, acts) && b < j < |acts| && acts[b].Submit? && acts[j].Start?
    requires acts[b].req.scheduleAt == Some(t) && t > acts[b].t
    requires acts[j].k in trace[j].slots && Has(trace[j].slots[acts[j].k], acts[b].id)
    ensures t < acts[j].t + 1_000_000_000
  {
    RunNotBefore(trace, acts, b, j, t);
    assert Enabled(trace[j], acts[j]);
    WholeSeconds(trace[j].now, trace[j].now);
  }

  // --------------------------------------------------- where the steps come from

  /** A decoded reply of ZRANGEBYSCORE is a reply of the model. */
  lemma ScanReply(delayed: set<JobRecord>, db: R.Db, t: Time, raws: seq<R.Raw>, reply: seq<JobRecord>)
    requires forall raw :: raw in db.delayed <==> raw.Encoded? && raw.job in delayed
    requires forall j :: j in delayed ==> db.delayed[R.Encoded(j)] == R.Unix(j.scheduledAt)
    requires R.RangeByScore(db, R.Unix(t), raws)
    requires |reply| == |raws| && forall i :: 0 <= i < |raws| ==> R.Decode(raws[i]) == Some(reply[i])
    ensures DueReply(delayed, t, reply)
  {
    assert forall i :: 0 <= i < |raws| ==> raws[i] in raws && raws[i] == R.Encoded(reply[i]);
    forall j
      ensures j in reply <==> R.Encoded(j) in raws
    {
      if R.Encoded(j) in raws {
        var i :| 0 <= i < |raws| && raws[i] == R.Encoded(j);
        assert reply[i] == j;
      }
    }
  }

  /** The clock of a call whose steps read it at `t1`, `t2` and `t3`. */
  function Readings(t1: Time, t2: Time, t3: Time): S.Clock {
    S.Clock(t1, t1, t1, t1, t2, t2, t2, t2, t2, t3)
  }

  /** The steps of a successful call, one after the other, write what ProcessJob writes. */
  lemma SuccessByValue(s: State, k: nat, worker: string, t1: Time, t2: Time, oor: Int64)
    requires k in s.slots && s.slots[k].Taken? && s.now <= t1 <= t2
    ensures var (job, c) := (s.slots[k].job, Readings(t1, t2, t2));
            var s1 := Apply(s, Start(k, worker, t1));
            var r := S.Settled(S.Begun(job, worker, c), None, c, oor);
            && s1.slots == s.slots[k := Running(S.Begun(job, worker, c))]
            && s1.store == s.store[job.id := S.Begun(job, worker, c)]
            && Apply(s1, Succeed(k, t2)).store == s.store[job.id := r.(updatedAt := t2)]
            && Apply(s1, Succeed(k, t2)).slots == s.slots[k := Idle]
  {}

  lemma FailByValue(s: State, k: nat, worker: string, error: string, c: S.Clock, oor: Int64)
    requires k in s.slots && s.slots[k].Taken? && s.now <= c.marked <= c.settled
    requires c == Readings(c.marked, c.settled, c.final)
    ensures var (job, begun) := (s.slots[k].job, S.Begun(s.slots[k].job, worker, c));
            Apply(Apply(s, Start(k, worker, c.marked)), Fail(k, error, c.settled, oor)) ==
            s.(slots := s.slots[k := Settling(S.Settled(begun, Some(error), c, oor))],
               store := s.store[job.id := begun], now := c.settled)
  {
    var begun := S.Begun(s.slots[k].job, worker, c);
    assert Settled(begun, error, c.settled, oor) == S.Settled(begun, Some(error), c, oor);
  }

  lemma PutBackByValue(s: State, k: nat, r: JobRecord, t: Time)
    requires k in s.slots && s.slots[k] == Settling(r) && (r.status == Scheduled || r.status == Dead) && s.now <= t
    ensures var s1 := Apply(s, Release(k));
            var s2 := Apply(s1, StoreFinal(k, t));
            && s1.active == s.active && s2.active == s.active && s2.delayed == s1.delayed && s2.dead == s1.dead
            && s1.delayed == (if r.status == Scheduled then s.delayed + {r} else s.delayed)
            && s1.dead == (if r.status == Dead then s.dead + multiset{r} else s.dead)
            && s2.store == s.store[r.id := r.(updatedAt := t)] && s2.slots == s.slots[k := Idle]
  {}

  /** The state after slot `k` has gone through a failed call. */
  ghost function Failed(s: State, k: nat, worker: string, error: string, c: S.Clock, oor: Int64): State
    requires k in s.slots && s.slots[k].Taken? && s.now <= c.marked <= c.settled <= c.final
    requires c == Readings(c.marked, c.settled, c.final)
  {
    FailByValue(s, k, worker, error, c, oor);
    var s2 := Apply(Apply(s, Start(k, worker, c.marked)), Fail(k, error, c.settled, oor));
    Apply(Apply(s2, Release(k)), StoreFinal(k, c.final))
  }

  /** And so do those of a failed call, which also put the copy where ProcessJob does. */
  lemma FailureByValue(s: State, k: nat, worker: string, error: string, c: S.Clock, oor: Int64)
    requires k in s.slots && s.slots[k].Taken? && s.now <= c.marked <= c.settled <= c.final
    requires c == Readings(c.marked, c.settled, c.final)
    ensures var job := s.slots[k].job;
            var r := S.Settled(S.Begun(job, worker, c), Some(error), c, oor);
            var s' := Failed(s, k, worker, error, c, oor);
            && s'.active == s.active
            && s'.delayed == (if r.status == Scheduled then s.delayed + {r} else s.delayed)
            && s'.dead == (if r.status == Dead then s.dead + multiset{r} else s.dead)
            && s'.store == s.store[job.id := r.(updatedAt := c.final)] && s'.slots == s.slots[k := Idle]
  {
    var r := S.Settled(S.Begun(s.slots[k].job, worker, c), Some(error), c, oor);
    FailByValue(s, k, worker, error, c, oor);
    S.CallFields(s.slots[k].job, worker, Some(error), c, oor);
    var s2 := Apply(Apply(s, Start(k, worker, c.marked)), Fail(k, error, c.settled, oor));
    PutBackByValue(s2, k, r, c.final);
  }
}
