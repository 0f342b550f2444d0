/** The Redis-backed queue: the commands it uses as functions on an abstract
    database, and its operations composed of those commands.  Jobs are stored as
    encoded copies; the codec round-trips, and anything else is a malformed entry. */
module RedisSpec {
  import opened Domain

  datatype Raw = Encoded(job: JobRecord) | Malformed(text: string)

  /** json.Unmarshal. */
  function Decode(raw: Raw): Option<JobRecord> {
    if raw.Encoded? then Some(raw.job) else None
  }

  /** The lists by key, and the sorted set "delayed_jobs" with its scores. */
  datatype Db = Db(lists: map<string, seq<Raw>>, delayed: map<Raw, int>)

  const DEAD_LETTERS: string := "dead_letter_queue"

  const NANOS_PER_SECOND: int := 1_000_000_000

  /** Whole seconds since the epoch, rounded down. */
  function Unix(t: Time): int {
    t / NANOS_PER_SECOND
  }

  function Elements(db: Db, name: string): seq<Raw> {
    if name in db.lists then db.lists[name] else []
  }

  function LPush(db: Db, name: string, raw: Raw): Db {
    db.(lists := db.lists[name := [raw] + Elements(db, name)])
  }

  /** Pops the last element of the first non-empty list; a timeout is None. */
  function BRPop(db: Db, names: seq<string>): (Db, Option<Raw>) {
    if names == [] then (db, None)
    else
      var raws := Elements(db, names[0]);
      if raws == [] then BRPop(db, names[1..])
      else (db.(lists := db.lists[names[0] := raws[..|raws| - 1]]), Some(raws[|raws| - 1]))
  }

  function ZAdd(db: Db, raw: Raw, score: int): Db {
    db.(delayed := db.delayed[raw := score])
  }

  function ZRem(db: Db, raw: Raw): Db {
    db.(delayed := db.delayed - {raw})
  }

  /** A reply of ZRANGEBYSCORE with bounds 0 and `max`: the members in range, each
      once, by rising score (members of equal score in any order). */
  ghost predicate RangeByScore(db: Db, max: int, reply: seq<Raw>) {
    && (forall i, j :: 0 <= i < j < |reply| ==> reply[i] != reply[j])
    && (forall raw :: raw in reply <==> raw in db.delayed && 0 <= db.delayed[raw] <= max)
    && (forall i, j :: 0 <= i < j < |reply| ==>
          reply[i] in db.delayed && reply[j] in db.delayed && db.delayed[reply[i]] <= db.delayed[reply[j]])
  }

  // ------------------------------------------------------- queue operations

  function Enqueue(db: Db, job: JobRecord): Db {
    LPush(db, QueueName(job.priority), Encoded(job))
  }

  function QueueNames(order: seq<int>): (names: seq<string>)
    ensures |names| == |order| && forall i :: 0 <= i < |order| ==> names[i] == QueueName(order[i])
  {
    seq(|order|, i requires 0 <= i < |order| => QueueName(order[i]))
  }

  /** A malformed entry is popped and reported as an error, so without a job. */
  function Dequeue(db: Db, order: seq<int>): (Db, Option<JobRecord>) {
    var (db', got) := BRPop(db, QueueNames(order));
    (db', if got.Some? then Decode(got.value) else None)
  }

  function EnqueueDelayed(db: Db, job: JobRecord, until: Time): Db {
    ZAdd(db, Encoded(job), Unix(until))
  }

  function MoveToDeadLetter(db: Db, job: JobRecord): Db {
    LPush(db, DEAD_LETTERS, Encoded(job))
  }

  /** BRPOP takes the last element of the first list that has one. */
  lemma {:induction false} PopsFirst(db: Db, names: seq<string>) returns (i: nat)
    ensures i <= |names| && forall h :: 0 <= h < i ==> Elements(db, names[h]) == []
    ensures i == |names| ==> BRPop(db, names) == (db, None)
    ensures i < |names| ==>
              var raws := Elements(db, names[i]);
              && raws != []
              && BRPop(db, names) ==
                 (db.(lists := db.lists[names[i] := raws[..|raws| - 1]]), Some(raws[|raws| - 1]))
    decreases |names|
  {
    if names == [] || Elements(db, names[0]) != [] {
      i := 0;
    } else {
      var n := PopsFirst(db, names[1..]);
      i := n + 1;
      assert forall h :: 0 < h < |names| ==> names[h] == names[1..][h - 1];
    }
  }

  /** The oldest entry of the list `names[i]` is gone and decoded, all lists before are empty. */
  ghost predicate PopsAt(db: Db, names: seq<string>, i: nat, db': Db, got: Option<JobRecord>)
    requires i < |names|
  {
    var raws := Elements(db, names[i]);
    && (forall h :: 0 <= h < i ==> Elements(db, names[h]) == [])
    && raws != []
    && db'.delayed == db.delayed && db'.lists == db.lists[names[i] := raws[..|raws| - 1]]
    && got == match raws[|raws| - 1] case Encoded(job) => Some(job) case Malformed(_) => None
  }

  lemma DequeuePops(db: Db, order: seq<int>)
    ensures var ((db', got), names) := (Dequeue(db, order), QueueNames(order));
            || (db' == db && got == None && forall i :: 0 <= i < |order| ==> Elements(db, names[i]) == [])
            || exists i :: 0 <= i < |order| && PopsAt(db, names, i, db', got)
  {
    var names := QueueNames(order);
    var i := PopsFirst(db, names);
    if i < |order| {
      assert PopsAt(db, names, i, Dequeue(db, order).0, Dequeue(db, order).1);
    }
  }

  /** Whether the push of an entry and, after it, its removal succeeded. */
  datatype Answer = Answer(pushed: bool, removed: bool)

  /** One element of a promotion pass: a malformed entry is skipped, and so is one that
      cannot be pushed; one that has been pushed is then removed. */
  function PromoteOne(db: Db, raw: Raw, answer: Answer): Db {
    match Decode(raw)
    case None => db
    case Some(job) =>
      if !answer.pushed then db
      else if answer.removed then ZRem(Enqueue(db, job), raw)
      else Enqueue(db, job)
  }

  /** A promotion pass over the reply of ZRANGEBYSCORE. */
  function PromoteAll(db: Db, reply: seq<Raw>, answers: seq<Answer>): Db
    requires |answers| == |reply|
  {
    if reply == [] then db
    else
      var n := |reply| - 1;
      PromoteOne(PromoteAll(db, reply[..n], answers[..n]), reply[n], answers[n])
  }

  // ---------------------------------------------------------- the name space

  /** The four active lists and the dead letters have five different keys. */
  lemma NamesDistinct(p: int, q: int)
    requires Named(p) && Named(q) && p != q
    ensures QueueName(p) != QueueName(q) && QueueName(p) != DEAD_LETTERS
  {
    assert |QueueName(p)| == 5 + |PriorityName(p)| && |QueueName(q)| == 5 + |PriorityName(q)|;
  }

  /** The keys by the values of the priorities. */
  lemma KeyNames(p: int)
    ensures QueueName(p) == if p == 4 then "jobs_critical" else if p == 3 then "jobs_high"
                            else if p == 1 then "jobs_low" else "jobs_medium"
  {}

  lemma NotDeadLetters(p: int)
    ensures QueueName(p) != DEAD_LETTERS
  {
    assert |QueueName(p)| == 5 + |PriorityName(p)|;
  }

  /** A priority without a name shares the list of medium jobs. */
  lemma UnnamedIsMedium(p: int)
    requires !Named(p)
    ensures QueueName(p) == QueueName(MEDIUM)
  {}

  // ------------------------------------------------------- whole-second time

  /** The whole-second test promotes every job that the exact test would promote,
      provided its time is not before the epoch, and any other job it promotes is
      due in less than one second. */
  lemma WholeSecondTest(until: Time, now: Time)
    ensures until <= now && until >= 0 ==> 0 <= Unix(until) <= Unix(now)
    ensures Unix(until) <= Unix(now) ==> until < now + NANOS_PER_SECOND
  {}

  function Waiting(db: Db, name: string, raw: Raw): nat {
    multiset(Elements(db, name))[raw]
  }

  /** The entry belongs in the list `name`. */
  predicate BelongsIn(raw: Raw, name: string) {
    raw.Encoded? && QueueName(raw.job.priority) == name
  }

  /** The pass has pushed the entry. */
  ghost predicate WasPushed(reply: seq<Raw>, answers: seq<Answer>, raw: Raw)
    requires |answers| == |reply|
  {
    raw.Encoded? && exists i :: 0 <= i < |reply| && reply[i] == raw && answers[i].pushed
  }

  /** The pass has pushed the entry and then removed it. */
  ghost predicate WasMoved(reply: seq<Raw>, answers: seq<Answer>, raw: Raw)
    requires |answers| == |reply|
  {
    raw.Encoded? && exists i :: 0 <= i < |reply| && reply[i] == raw && answers[i].pushed && answers[i].removed
  }

  lemma PromoteOneEffect(db: Db, next: Raw, answer: Answer, name: string, raw: Raw)
    ensures var db' := PromoteOne(db, next, answer);
            && Waiting(db', name, raw) ==
               Waiting(db, name, raw) + (if raw == next && answer.pushed && BelongsIn(raw, name) then 1 else 0)
            && (raw in db'.delayed <==>
                  raw in db.delayed && !(raw == next && raw.Encoded? && answer.pushed && answer.removed))
  {
    var db' := PromoteOne(db, next, answer);
    if answer.pushed && BelongsIn(next, name) {
      assert Elements(db', name) == [next] + Elements(db, name);
    } else {
      assert Elements(db', name) == Elements(db, name);
    }
  }

  /** What a pass does to one entry, whichever pushes and removals fail: it is pushed once
      to its own list exactly if its push succeeded, and leaves the delayed set exactly if
      its removal did as well. */
  lemma {:induction false} PassEffect(db: Db, reply: seq<Raw>, answers: seq<Answer>, name: string, raw: Raw)
    requires |answers| == |reply| && forall i, j :: 0 <= i < j < |reply| ==> reply[i] != reply[j]
    ensures var db' := PromoteAll(db, reply, answers);
            && Waiting(db', name, raw) ==
               Waiting(db, name, raw) + (if WasPushed(reply, answers, raw) && BelongsIn(raw, name) then 1 else 0)
            && (raw in db'.delayed <==> raw in db.delayed && !WasMoved(reply, answers, raw))
  {
    if reply != [] {
      var n := |reply| - 1;
      PassEffect(db, reply[..n], answers[..n], name, raw);
      PromoteOneEffect(PromoteAll(db, reply[..n], answers[..n]), reply[n], answers[n], name, raw);
      LastAnswer(reply, answers, raw);
    }
  }

  lemma PassEffects(db: Db, reply: seq<Raw>, answers: seq<Answer>)
    requires |answers| == |reply| && forall i, j :: 0 <= i < j < |reply| ==> reply[i] != reply[j]
    ensures var db' := PromoteAll(db, reply, answers);
            && (forall raw :: raw in db'.delayed <==> raw in db.delayed && !WasMoved(reply, answers, raw))
            && forall name, raw ::
                 Waiting(db', name, raw) == Waiting(db, name, raw) +
                 if WasPushed(reply, answers, raw) && BelongsIn(raw, name) then 1 else 0
  {
    forall name, raw
      ensures var db' := PromoteAll(db, reply, answers);
              Waiting(db', name, raw) == Waiting(db, name, raw) +
              if WasPushed(reply, answers, raw) && BelongsIn(raw, name) then 1 else 0
    {
      PassEffect(db, reply, answers, name, raw);
    }
    forall raw
      ensures raw in PromoteAll(db, reply, answers).delayed <==> raw in db.delayed && !WasMoved(reply, answers, raw)
    {
      PassEffect(db, reply, answers, "", raw);
    }
  }

  lemma LastAnswer(reply: seq<Raw>, answers: seq<Answer>, raw: Raw)
    requires reply != [] && |answers| == |reply| && forall i, j :: 0 <= i < j < |reply| ==> reply[i] != reply[j]
    ensures var n := |reply| - 1;
            && (WasPushed(reply, answers, raw) <==>
                  if raw == reply[n] then raw.Encoded? && answers[n].pushed
                  else WasPushed(reply[..n], answers[..n], raw))
            && (WasMoved(reply, answers, raw) <==>
                  if raw == reply[n] then raw.Encoded? && answers[n].pushed && answers[n].removed
                  else WasMoved(reply[..n], answers[..n], raw))
            && (raw == reply[n] ==>
                  !WasPushed(reply[..n], answers[..n], raw) && !WasMoved(reply[..n], answers[..n], raw))
  {
    var n := |reply| - 1;
    assert forall i :: 0 <= i < n ==> reply[..n][i] == reply[i] && answers[..n][i] == answers[i];
  }

  /** One pass at `now` in which every command succeeds: the entries that leave the
      delayed set are exactly the well-formed ones whose whole second has come, and each
      of them has been pushed once. */
  lemma UninterruptedPass(db: Db, now: Time, reply: seq<Raw>, answers: seq<Answer>, raw: Raw)
    requires RangeByScore(db, Unix(now), reply) && raw in db.delayed
    requires |answers| == |reply| && forall i :: 0 <= i < |answers| ==> answers[i] == Answer(true, true)
    ensures var db' := PromoteAll(db, reply, answers);
            var due := raw.Encoded? && 0 <= db.delayed[raw] <= Unix(now);
            && (raw !in db'.delayed <==> due)
            && forall name :: Waiting(db', name, raw) ==
                 Waiting(db, name, raw) + if due && BelongsIn(raw, name) then 1 else 0
  {
    PassEffect(db, reply, answers, "", raw);
    forall name
      ensures Waiting(PromoteAll(db, reply, answers), name, raw) ==
              Waiting(db, name, raw) + if raw in reply && BelongsIn(raw, name) then 1 else 0
    {
      PassEffect(db, reply, answers, name, raw);
    }
  }
}
