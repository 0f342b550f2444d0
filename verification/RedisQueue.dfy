/** The Redis queue as the object it is: a client of one database, each method a
    sequence of commands, proved against RedisSpec. */
module RedisQueue {
  import opened Domain
  import R = RedisSpec

  class Queue {
    var db: R.Db

    constructor ()
      ensures db == R.Db(map[], map[])
    {
      db := R.Db(map[], map[]);
    }

    method Enqueue(job: JobRecord)
      modifies this
      ensures db == R.Enqueue(old(db), job) && db.delayed == old(db).delayed
      ensures var name := QueueName(job.priority);
              db.lists == old(db).lists[name := [R.Encoded(job)] + R.Elements(old(db), name)]
    {
      db := R.LPush(db, QueueName(job.priority), R.Encoded(job));
    }

    /** Pops the oldest entry of the first non-empty list; an entry that does not decode
        is gone and reported as an error. */
    method Dequeue(order: seq<int>) returns (got: Option<JobRecord>)
      modifies this
      ensures (db, got) == R.Dequeue(old(db), order)
      ensures var names := R.QueueNames(order);
              || (db == old(db) && got == None && forall i :: 0 <= i < |order| ==> R.Elements(db, names[i]) == [])
              || exists i :: 0 <= i < |order| && R.PopsAt(old(db), names, i, db, got)
    {
      R.DequeuePops(db, order);
      var names := [];
      var i := 0;
      while i < |order|
        invariant 0 <= i <= |order| && names == R.QueueNames(order[..i])
      {
        names := names + [QueueName(order[i])];
        assert order[..i + 1] == order[..i] + [order[i]];
        i := i + 1;
      }
      assert order[..i] == order;
      var (rest, raw) := R.BRPop(db, names);
      db := rest;
      got := if raw.Some? then R.Decode(raw.value) else None;
    }

    method EnqueueDelayed(job: JobRecord, until: Time)
      modifies this
      ensures db == R.EnqueueDelayed(old(db), job, until) && db.lists == old(db).lists
      ensures db.delayed == old(db).delayed[R.Encoded(job) := until / 1_000_000_000]
    {
      db := R.ZAdd(db, R.Encoded(job), R.Unix(until));
    }

    method MoveToDeadLetter(job: JobRecord)
      modifies this
      ensures db == R.MoveToDeadLetter(old(db), job) && db.delayed == old(db).delayed
      ensures var name := "dead_letter_queue";
              db.lists == old(db).lists[name := [R.Encoded(job)] + R.Elements(old(db), name)]
    {
      db := R.LPush(db, R.DEAD_LETTERS, R.Encoded(job));
    }

    /** One pass over the server's reply: an entry that is malformed or cannot be pushed is
        skipped, any other is pushed and then removed, where a failed removal is ignored.
        Whatever fails, each entry that was due is pushed to its own list at most once and
        leaves the delayed set exactly if it is well-formed and both commands succeeded. */
    method ProcessDelayedJobs(now: Time, reply: seq<R.Raw>, answers: seq<R.Answer>)
      requires R.RangeByScore(db, R.Unix(now), reply) && |answers| == |reply|
      modifies this
      ensures db == R.PromoteAll(old(db), reply, answers)
      ensures forall raw :: raw in db.delayed <==> raw in old(db).delayed && !R.WasMoved(reply, answers, raw)
      ensures forall name, raw ::
                R.Waiting(db, name, raw) == R.Waiting(old(db), name, raw) +
                if R.WasPushed(reply, answers, raw) && R.BelongsIn(raw, name) then 1 else 0
    {
      ghost var before := db;
      var i := 0;
      while i < |reply|
        invariant 0 <= i <= |reply| && db == R.PromoteAll(before, reply[..i], answers[..i])
      {
        assert reply[..i + 1][..i] == reply[..i] && answers[..i + 1][..i] == answers[..i];
        var job := R.Decode(reply[i]);
        if job.Some? && answers[i].pushed {
          Enqueue(job.value);
          if answers[i].removed {
            db := R.ZRem(db, reply[i]);
          }
        }
        i := i + 1;
      }
      assert reply[..i] == reply && answers[..i] == answers;
      R.PassEffects(before, reply, answers);
    }
  }
}
