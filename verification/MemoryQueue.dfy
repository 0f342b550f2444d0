/** The in-memory queue as the object it is, proved against MemoryQueueSpec.  Each
    method runs under the queue's mutex. */
module MemoryQueue {
  import opened Domain
  import opened JobEntity
  import Q = MemoryQueueSpec

  class Queue {
    var queues: map<int, seq<Id>>
    var delayedJobs: map<Id, Time>
    var deadLetter: seq<Id>
    var jobStorage: map<Id, Job>

    /** References are filed under the job's own id. */
    ghost predicate Valid()
      reads this
    {
      forall id :: id in jobStorage ==> jobStorage[id].id == id
    }

    /** The collections as a value. */
    ghost function View(): Q.MemQueue
      reads this
    {
      Q.MemQueue(queues, delayedJobs, deadLetter, map id | id in jobStorage :: jobStorage[id].priority)
    }

    constructor ()
      ensures Valid() && View() == Q.EMPTY && jobStorage == map[]
    {
      queues, delayedJobs, deadLetter, jobStorage := map[], map[], [], map[];
    }

    method Enqueue(job: Job)
      requires Valid()
      modifies this
      ensures Valid() && jobStorage == old(jobStorage)[job.id := job]
      ensures View() == Q.Enqueue(old(View()), job.id, job.priority)
    {
      jobStorage := jobStorage[job.id := job];
      var list := if job.priority in queues then queues[job.priority] else [];
      queues := queues[job.priority := list + [job.id]];
    }

    /** The first job of the first non-empty list; ids without a job are dropped. */
    method Dequeue(order: seq<int>) returns (got: Option<Job>)
      requires Valid()
      modifies this
      ensures Valid() && jobStorage == old(jobStorage)
      ensures View() == Q.Dequeue(old(View()), order).0
      ensures got.Some? <==> Q.Dequeue(old(View()), order).1.Some?
      ensures got.Some? ==> got.value.id in jobStorage && got.value == jobStorage[got.value.id]
                            && Q.Dequeue(old(View()), order).1 == Some(got.value.id)
    {
      var i := 0;
      while i < |order|
        invariant 0 <= i <= |order| && Valid() && jobStorage == old(jobStorage)
        invariant Q.Dequeue(View(), order[i..]) == Q.Dequeue(old(View()), order)
      {
        var priority := order[i];
        var list := if priority in queues then queues[priority] else [];
        assert order[i..][0] == priority && order[i..][1..] == order[i + 1..];
        if |list| > 0 {
          var id := list[0];
          queues := queues[priority := list[1..]];
          if id in jobStorage {
            return Some(jobStorage[id]);
          }
        }
        i := i + 1;
      }
      got := None;
    }

    method EnqueueDelayed(job: Job, until: Time)
      requires Valid()
      modifies this
      ensures Valid() && jobStorage == old(jobStorage)[job.id := job]
      ensures View() == Q.EnqueueDelayed(old(View()), job.id, job.priority, until)
    {
      jobStorage := jobStorage[job.id := job];
      delayedJobs := delayedJobs[job.id := until];
    }

    method MoveToDeadLetter(job: Job)
      requires Valid()
      modifies this
      ensures Valid() && jobStorage == old(jobStorage)
      ensures View() == Q.MoveToDeadLetter(old(View()), job.id)
    {
      deadLetter := deadLetter + [job.id];
    }

    /** First pass of ProcessDelayedJobs: the ids whose time has come, in the order in
        which the map is visited. */
    method FindReady(now: Time, iteration: seq<Id>) returns (ready: seq<Id>)
      requires forall id :: id in iteration ==> id in delayedJobs
      ensures ready == Q.Due(View(), now, iteration)
    {
      ready := [];
      var i := 0;
      while i < |iteration|
        invariant 0 <= i <= |iteration| && ready == Q.Due(View(), now, iteration[..i])
      {
        var id := iteration[i];
        assert id in iteration && iteration[..i + 1][..i] == iteration[..i];
        if delayedJobs[id] <= now {
          ready := ready + [id];
        }
        i := i + 1;
      }
      assert iteration[..i] == iteration;
    }

    /** One step of the second pass: a ready job that has a reference becomes pending
        and moves to the active list of its priority. */
    method MoveOne(id: Id)
      requires Valid()
      modifies this, if id in jobStorage then {jobStorage[id]} else {}
      ensures jobStorage == old(jobStorage) && View() == Q.PromoteOne(old(View()), id)
      ensures id in jobStorage ==> jobStorage[id].Value() == old(jobStorage[id].Value()).(status := Pending)
    {
      if id in jobStorage {
        var job := jobStorage[id];
        delayedJobs := delayedJobs - {id};
        job.status := Pending;
        var list := if job.priority in queues then queues[job.priority] else [];
        queues := queues[job.priority := list + [id]];
      }
    }

    /** The second pass. */
    method MoveReady(ready: seq<Id>)
      requires Valid()
      modifies this, jobStorage.Values
      ensures jobStorage == old(jobStorage)
      ensures View() == Q.PromoteAll(old(View()), ready)
      ensures forall id :: id in jobStorage ==>
                jobStorage[id].Value() ==
                if id in ready then old(jobStorage[id].Value()).(status := Pending) else old(jobStorage[id].Value())
    {
      var i := 0;
      while i < |ready|
        invariant 0 <= i <= |ready| && jobStorage == old(jobStorage)
        invariant View() == Q.PromoteAll(old(View()), ready[..i])
        invariant forall id :: id in jobStorage ==>
                    jobStorage[id].Value() ==
                    if id in ready[..i] then old(jobStorage[id].Value()).(status := Pending)
                    else old(jobStorage[id].Value())
      {
        NextReady(old(View()), ready, i);
        MoveOne(ready[i]);
        i := i + 1;
      }
      assert ready[..i] == ready;
    }

    /** Both passes, for any order in which the map is visited. */
    method ProcessDelayedJobs(now: Time, iteration: seq<Id>)
      requires Valid() && Q.Enumerates(iteration, delayedJobs.Keys)
      modifies this, jobStorage.Values
      ensures Valid() && jobStorage == old(jobStorage)
      ensures View() == Q.ProcessDelayed(old(View()), now, iteration)
      ensures forall id :: id in jobStorage ==>
                jobStorage[id].Value() ==
                if id in old(delayedJobs) && old(delayedJobs)[id] <= now
                then old(jobStorage[id].Value()).(status := Pending)
                else old(jobStorage[id].Value())
    {
      Q.DueIsExact(View(), now, iteration);
      var ready := FindReady(now, iteration);
      MoveReady(ready);
    }

    /** The lengths of the collections; the map of lists may be visited in any order. */
    method GetQueueStats(priorities: seq<int>) returns (stats: Q.Stats)
      requires forall p :: p in priorities <==> p in queues
      ensures stats == Q.QueueStats(View())
      ensures stats.active.Keys == queues.Keys && forall p :: p in queues ==> stats.active[p] == |queues[p]|
      ensures stats.delayed == |delayedJobs| && stats.dead == |deadLetter|
    {
      var active: map<int, nat> := map[];
      var i := 0;
      while i < |priorities|
        invariant 0 <= i <= |priorities|
        invariant forall p :: p in active <==> p in priorities[..i]
        invariant forall p :: p in active ==> p in queues && active[p] == |queues[p]|
      {
        var p := priorities[i];
        assert p in priorities && priorities[..i + 1] == priorities[..i] + [p];
        active := active[p := |queues[p]|];
        i := i + 1;
      }
      assert priorities[..i] == priorities;
      ghost var lengths := Q.QueueStats(View()).active;
      forall p
        ensures p in active <==> p in lengths
        ensures p in active ==> active[p] == lengths[p]
      {
        assert p in active <==> p in priorities;
      }
      assert active == lengths;
      stats := Q.Stats(active, |delayedJobs|, |deadLetter|);
    }
  }

  lemma NextReady(q: Q.MemQueue, ready: seq<Id>, i: nat)
    requires i < |ready|
    ensures Q.PromoteAll(q, ready[..i + 1]) == Q.PromoteOne(Q.PromoteAll(q, ready[..i]), ready[i])
    ensures forall id :: id in ready[..i + 1] <==> id in ready[..i] || id == ready[i]
  {
    assert ready[..i + 1] == ready[..i] + [ready[i]] && ready[..i + 1][..i] == ready[..i];
  }
}
