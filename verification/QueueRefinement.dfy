/** One abstract queue of job ids - a line per priority, a delayed map, a list of
    dead letters - and two implementations that refine it: the in-memory lists with
    their index, and the Redis lists, each of which is the reverse of its line. */
module QueueRefinement {
  import opened Domain
  import M = MemoryQueueSpec
  import R = RedisSpec

  /** `priorities` remembers the priority of each id the queue has been given. */
  datatype Abstract = Abstract(
    lines: map<int, seq<Id>>,
    delayed: map<Id, Time>,
    dead: seq<Id>,
    priorities: map<Id, int>)

  datatype Op =
    | Put(job: JobRecord)
    | Take(order: seq<int>)
    | Delay(job: JobRecord, until: Time)
    | Bury(job: JobRecord)
    | Promote(id: Id)

  function Line(a: Abstract, p: int): seq<Id> {
    if p in a.lines then a.lines[p] else []
  }

  function TakeFirst(a: Abstract, order: seq<int>): (Abstract, Option<Id>) {
    if order == [] then (a, None)
    else if Line(a, order[0]) == [] then TakeFirst(a, order[1..])
    else (a.(lines := a.lines[order[0] := Line(a, order[0])[1..]]), Some(Line(a, order[0])[0]))
  }

  /** A delayed job joins the line of its priority. */
  function Moved(a: Abstract, id: Id): Abstract
    requires id in a.priorities
  {
    a.(delayed := a.delayed - {id}, lines := a.lines[a.priorities[id] := Line(a, a.priorities[id]) + [id]])
  }

  function Step(a: Abstract, op: Op): Abstract {
    match op
    case Put(job) => a.(priorities := a.priorities[job.id := job.priority],
                        lines := a.lines[job.priority := Line(a, job.priority) + [job.id]])
    case Take(order) => TakeFirst(a, order).0
    case Delay(job, until) => a.(priorities := a.priorities[job.id := job.priority],
                                 delayed := a.delayed[job.id := until])
    case Bury(job) => a.(dead := a.dead + [job.id])
    case Promote(id) => if id in a.priorities then Moved(a, id) else a
  }

  /** What the services keep to: named priorities, one priority per job for its whole
      life, and no job delayed a second time while it is still delayed. */
  ghost predicate Legal(a: Abstract, op: Op) {
    match op
    case Put(job) => Named(job.priority) && Consistent(a, job)
    case Take(order) => forall p :: p in order ==> Named(p)
    case Delay(job, _) => Named(job.priority) && Consistent(a, job) && job.id !in a.delayed
    case Bury(job) => true
    case Promote(id) => id in a.delayed
  }

  predicate Consistent(a: Abstract, job: JobRecord) {
    job.id in a.priorities ==> a.priorities[job.id] == job.priority
  }

  /** Ids are listed and delayed under a known, named priority. */
  ghost predicate Sound(a: Abstract) {
    && (forall id :: id in a.priorities ==> Named(a.priorities[id]))
    && (forall id :: id in a.delayed ==> id in a.priorities)
    && (forall p, id :: id in Line(a, p) ==> id in a.priorities && a.priorities[id] == p)
  }

  // -------------------------------------------------- sequences of operations

  function Steps(a: Abstract, ops: seq<Op>): Abstract {
    if ops == [] then a else Step(Steps(a, ops[..|ops| - 1]), ops[|ops| - 1])
  }

  ghost predicate LegalAll(a: Abstract, ops: seq<Op>) {
    ops == [] || (LegalAll(a, ops[..|ops| - 1]) && Legal(Steps(a, ops[..|ops| - 1]), ops[|ops| - 1]))
  }

  /** What the queue hands out, an answer for each Take. */
  function Outputs(a: Abstract, ops: seq<Op>): seq<Option<Id>> {
    if ops == [] then []
    else
      var (front, op) := (ops[..|ops| - 1], ops[|ops| - 1]);
      Outputs(a, front) + if op.Take? then [TakeFirst(Steps(a, front), op.order).1] else []
  }

  lemma {:induction false} Concatenated(a: Abstract, x: seq<Op>, y: seq<Op>)
    ensures Steps(a, x + y) == Steps(Steps(a, x), y)
    ensures LegalAll(a, x + y) <==> LegalAll(a, x) && LegalAll(Steps(a, x), y)
    ensures Outputs(a, x + y) == Outputs(a, x) + Outputs(Steps(a, x), y)
    decreases |y|
  {
    if y == [] {
      assert x + y == x;
    } else {
      var n := |y| - 1;
      assert x + y == (x + y[..n]) + [y[n]] && (x + y)[..|x + y| - 1] == x + y[..n];
      Concatenated(a, x, y[..n]);
    }
  }

  lemma OneOp(a: Abstract, op: Op)
    ensures Steps(a, [op]) == Step(a, op) && (LegalAll(a, [op]) <==> Legal(a, op))
    ensures Outputs(a, [op]) == if op.Take? then [TakeFirst(a, op.order).1] else []
  {
    assert [op][..0] == [];
  }

  /** Promotions of several jobs, one after the other. */
  function Promotions(ids: seq<Id>): (ops: seq<Op>)
    ensures |ops| == |ids| && forall i :: 0 <= i < |ids| ==> ops[i] == Promote(ids[i])
  {
    seq(|ids|, i requires 0 <= i < |ids| => Promote(ids[i]))
  }

  lemma PromotionsLast(ids: seq<Id>)
    requires ids != []
    ensures Promotions(ids)[..|ids| - 1] == Promotions(ids[..|ids| - 1])
  {}

  lemma {:induction false} PromotionsOutput(a: Abstract, ids: seq<Id>)
    ensures Outputs(a, Promotions(ids)) == []
  {
    if ids != [] {
      PromotionsLast(ids);
      PromotionsOutput(a, ids[..|ids| - 1]);
    }
  }

  lemma {:induction false} PromotionsDelayed(a: Abstract, ids: seq<Id>)
    requires forall id :: id in ids ==> id in a.priorities
    ensures var b := Steps(a, Promotions(ids));
            b.priorities == a.priorities && forall id :: id in b.delayed <==> id in a.delayed && id !in ids
  {
    if ids != [] {
      var n := |ids| - 1;
      var b := Steps(a, Promotions(ids[..n]));
      assert ids == ids[..n] + [ids[n]];
      PromotionsLast(ids);
      PromotionsDelayed(a, ids[..n]);
      assert Steps(a, Promotions(ids)).delayed == b.delayed - {ids[n]};
    }
  }

  /** Promotions are legal if each is of a delayed job, each once. */
  lemma {:induction false} PromotionsLegal(a: Abstract, ids: seq<Id>)
    requires M.NoDup(ids) && forall id :: id in ids ==> id in a.delayed && id in a.priorities
    ensures LegalAll(a, Promotions(ids))
  {
    if ids != [] {
      var n := |ids| - 1;
      assert ids[n] in ids && ids[n] !in ids[..n];
      PromotionsLast(ids);
      PromotionsLegal(a, ids[..n]);
      PromotionsDelayed(a, ids[..n]);
    }
  }

  // ------------------------------------------------------- the memory queue

  ghost predicate MemoryRefines(m: M.MemQueue, a: Abstract) {
    && Sound(a) && m.index == a.priorities && m.delayed == a.delayed && m.dead == a.dead
    && forall p :: M.Listed(m, p) == Line(a, p)
  }

  /** The calls on the memory queue; a promotion pass reads the clock and visits the
      delayed map in some order. */
  datatype MemoryCall =
    | MPut(job: JobRecord)
    | MTake(order: seq<int>)
    | MDelay(job: JobRecord, until: Time)
    | MBury(job: JobRecord)
    | MPromote(now: Time, iteration: seq<Id>)

  function MemoryStep(m: M.MemQueue, call: MemoryCall): M.MemQueue {
    match call
    case MPut(job) => M.Enqueue(m, job.id, job.priority)
    case MTake(order) => M.Dequeue(m, order).0
    case MDelay(job, until) => M.EnqueueDelayed(m, job.id, job.priority, until)
    case MBury(job) => M.MoveToDeadLetter(m, job.id)
    case MPromote(now, iteration) => M.ProcessDelayed(m, now, iteration)
  }

  function MemoryOutput(m: M.MemQueue, call: MemoryCall): seq<Option<Id>> {
    if call.MTake? then [M.Dequeue(m, call.order).1] else []
  }

  /** The abstract operations that a call carries out. */
  function MemoryOps(m: M.MemQueue, call: MemoryCall): seq<Op> {
    match call
    case MPut(job) => [Put(job)]
    case MTake(order) => [Take(order)]
    case MDelay(job, until) => [Delay(job, until)]
    case MBury(job) => [Bury(job)]
    case MPromote(now, iteration) => Promotions(M.Due(m, now, iteration))
  }

  lemma PopSound(a: Abstract, p: int)
    requires Sound(a) && Line(a, p) != []
    ensures Sound(a.(lines := a.lines[p := Line(a, p)[1..]]))
  {
    var a' := a.(lines := a.lines[p := Line(a, p)[1..]]);
    assert forall q :: Line(a', q) == if q == p then Line(a, p)[1..] else Line(a, q);
  }

  lemma AppendSound(a: Abstract, id: Id, p: int)
    requires Sound(a) && id in a.priorities && a.priorities[id] == p
    ensures Sound(a.(lines := a.lines[p := Line(a, p) + [id]]))
  {
    var a' := a.(lines := a.lines[p := Line(a, p) + [id]]);
    assert forall q :: Line(a', q) == if q == p then Line(a, p) + [id] else Line(a, q);
  }

  lemma KnownSound(a: Abstract, job: JobRecord)
    requires Sound(a) && Named(job.priority) && Consistent(a, job)
    ensures Sound(a.(priorities := a.priorities[job.id := job.priority]))
  {
    var a' := a.(priorities := a.priorities[job.id := job.priority]);
    assert forall p :: Line(a', p) == Line(a, p);
  }

  lemma SameLines(m: M.MemQueue, a: Abstract, p: int, ids: seq<Id>, m': M.MemQueue, a': Abstract)
    requires forall q :: M.Listed(m, q) == Line(a, q)
    requires m'.queues == m.queues[p := ids] && a'.lines == a.lines[p := ids]
    ensures forall q :: M.Listed(m', q) == Line(a', q)
  {
    forall q
      ensures M.Listed(m', q) == Line(a', q)
    {
      assert M.Listed(m, q) == Line(a, q);
    }
  }

  lemma {:induction false} MemoryTakes(m: M.MemQueue, a: Abstract, order: seq<int>)
    requires MemoryRefines(m, a)
    ensures M.Dequeue(m, order).1 == TakeFirst(a, order).1
    ensures MemoryRefines(M.Dequeue(m, order).0, TakeFirst(a, order).0)
    decreases |order|
  {
    if order != [] {
      var p := order[0];
      if Line(a, p) == [] {
        MemoryTakes(m, a, order[1..]);
      } else {
        var id := Line(a, p)[0];
        assert id in Line(a, p);
        assert id in m.index;
        PopSound(a, p);
        SameLines(m, a, p, Line(a, p)[1..], M.Dequeue(m, order).0, TakeFirst(a, order).0);
      }
    }
  }

  lemma {:induction false} MemoryPromotes(m: M.MemQueue, a: Abstract, ids: seq<Id>)
    requires MemoryRefines(m, a)
    ensures MemoryRefines(M.PromoteAll(m, ids), Steps(a, Promotions(ids)))
  {
    if ids != [] {
      var n := |ids| - 1;
      PromotionsLast(ids);
      MemoryPromotes(m, a, ids[..n]);
      MemoryPromotesOne(M.PromoteAll(m, ids[..n]), Steps(a, Promotions(ids[..n])), ids[n]);
    }
  }

  lemma MovedSound(a: Abstract, id: Id)
    requires Sound(a) && id in a.priorities
    ensures Sound(Moved(a, id))
  {
    var a' := a.(delayed := a.delayed - {id});
    assert forall p :: Line(a', p) == Line(a, p);
    AppendSound(a', id, a.priorities[id]);
  }

  lemma MemoryPromotesOne(m: M.MemQueue, a: Abstract, id: Id)
    requires MemoryRefines(m, a)
    ensures MemoryRefines(M.PromoteOne(m, id), Step(a, Promote(id)))
  {
    if id in a.priorities {
      MovedSound(a, id);
      assert M.Listed(m, a.priorities[id]) == Line(a, a.priorities[id]);
      SameLines(m, a, a.priorities[id], Line(a, a.priorities[id]) + [id], M.PromoteOne(m, id), Moved(a, id));
    }
  }

  lemma MemoryPuts(m: M.MemQueue, a: Abstract, job: JobRecord)
    requires MemoryRefines(m, a) && Legal(a, Put(job))
    ensures MemoryRefines(M.Enqueue(m, job.id, job.priority), Step(a, Put(job)))
  {
    var a' := a.(priorities := a.priorities[job.id := job.priority]);
    KnownSound(a, job);
    assert Line(a', job.priority) == Line(a, job.priority);
    AppendSound(a', job.id, job.priority);
    assert M.Listed(m, job.priority) == Line(a, job.priority);
    SameLines(m, a, job.priority, Line(a, job.priority) + [job.id],
              M.Enqueue(m, job.id, job.priority), Step(a, Put(job)));
  }

  lemma MemoryDelays(m: M.MemQueue, a: Abstract, job: JobRecord, until: Time)
    requires MemoryRefines(m, a) && Legal(a, Delay(job, until))
    ensures MemoryRefines(M.EnqueueDelayed(m, job.id, job.priority, until), Step(a, Delay(job, until)))
  {
    KnownSound(a, job);
    var m', a' := M.EnqueueDelayed(m, job.id, job.priority, until), Step(a, Delay(job, until));
    forall p
      ensures M.Listed(m', p) == Line(a', p) == Line(a, p)
    {
      assert M.Listed(m, p) == Line(a, p);
    }
  }

  lemma MemoryBuries(m: M.MemQueue, a: Abstract, job: JobRecord)
    requires MemoryRefines(m, a)
    ensures MemoryRefines(M.MoveToDeadLetter(m, job.id), Step(a, Bury(job)))
  {
    var m', a' := M.MoveToDeadLetter(m, job.id), Step(a, Bury(job));
    forall p
      ensures M.Listed(m', p) == Line(a', p) == Line(a, p)
    {
      assert M.Listed(m, p) == Line(a, p);
    }
  }

  /** Each call on the memory queue does and hands out what the abstract operations do. */
  lemma MemoryStepRefines(m: M.MemQueue, a: Abstract, call: MemoryCall)
    requires MemoryRefines(m, a) && LegalAll(a, MemoryOps(m, call))
    ensures MemoryOutput(m, call) == Outputs(a, MemoryOps(m, call))
    ensures MemoryRefines(MemoryStep(m, call), Steps(a, MemoryOps(m, call)))
  {
    if call.MPromote? {
      MemoryPromotes(m, a, M.Due(m, call.now, call.iteration));
      PromotionsOutput(a, M.Due(m, call.now, call.iteration));
    } else {
      OneOp(a, MemoryOps(m, call)[0]);
      MemoryOneRefines(m, a, call);
    }
  }

  lemma MemoryOneRefines(m: M.MemQueue, a: Abstract, call: MemoryCall)
    requires MemoryRefines(m, a) && !call.MPromote? && Legal(a, MemoryOps(m, call)[0])
    ensures MemoryRefines(MemoryStep(m, call), Step(a, MemoryOps(m, call)[0]))
    ensures call.MTake? ==> M.Dequeue(m, call.order).1 == TakeFirst(a, call.order).1
  {
    match call
    case MPut(job) => MemoryPuts(m, a, job);
    case MTake(order) => MemoryTakes(m, a, order);
    case MDelay(job, until) => MemoryDelays(m, a, job, until);
    case MBury(job) => MemoryBuries(m, a, job);
  }

  // -------------------------------------------------------- the Redis queue

  function IdOf(raw: R.Raw): Id {
    if raw.Encoded? then raw.job.id else -1
  }

  /** The ids of a list, newest first. */
  function Ids(raws: seq<R.Raw>): (ids: seq<Id>)
    ensures |ids| == |raws| && forall i :: 0 <= i < |raws| ==> ids[i] == IdOf(raws[i])
  {
    seq(|raws|, i requires 0 <= i < |raws| => IdOf(raws[i]))
  }

  function Reverse(s: seq<Id>): (r: seq<Id>)
    ensures |r| == |s|
  {
    if s == [] then [] else Reverse(s[1..]) + [s[0]]
  }

  lemma {:induction false} ReverseAppend(s: seq<Id>, id: Id)
    ensures Reverse(s + [id]) == [id] + Reverse(s)
  {
    if s == [] {
      assert [id][1..] == [];
    } else {
      ReverseAppend(s[1..], id);
      assert (s + [id])[1..] == s[1..] + [id];
    }
  }

  /** A Redis list holds the ids of an abstract line, newest first, all decodable. */
  ghost predicate HoldsLine(raws: seq<R.Raw>, line: seq<Id>) {
    Ids(raws) == Reverse(line) && forall i :: 0 <= i < |raws| ==> raws[i].Encoded?
  }


  /** The database, and the delayed entries that a pass has pushed and not yet removed. */
  datatype Redis = Redis(db: R.Db, pending: set<R.Raw>)

  /** The entries that are still to be promoted, with their scores. */
  function ToPromote(r: Redis): map<R.Raw, int> {
    r.db.delayed - r.pending
  }

  ghost predicate HasMember(delayed: map<R.Raw, int>, id: Id) {
    exists raw :: raw in delayed && IdOf(raw) == id
  }

  ghost predicate MembersOk(delayed: map<R.Raw, int>, a: Abstract) {
    forall raw :: raw in delayed ==>
      && raw.Encoded? && raw.job.id in a.delayed && raw.job.id in a.priorities
      && raw.job.priority == a.priorities[raw.job.id] && delayed[raw] == R.Unix(a.delayed[raw.job.id])
  }

  ghost predicate MembersUnique(delayed: map<R.Raw, int>) {
    forall x, y :: x in delayed && y in delayed && IdOf(x) == IdOf(y) ==> x == y
  }

  ghost predicate MembersCover(delayed: map<R.Raw, int>, a: Abstract) {
    forall id {:trigger HasMember(delayed, id)} :: id in a.delayed ==> HasMember(delayed, id)
  }

  /** One member per delayed id, with the due second as score. */
  ghost predicate HoldsDelayed(delayed: map<R.Raw, int>, a: Abstract) {
    MembersOk(delayed, a) && MembersUnique(delayed) && MembersCover(delayed, a)
  }

  ghost predicate HoldsLists(db: R.Db, a: Abstract) {
    && (forall p :: Named(p) ==> HoldsLine(R.Elements(db, QueueName(p)), Line(a, p)))
    && HoldsLine(R.Elements(db, R.DEAD_LETTERS), a.dead)
  }

  ghost predicate RedisRefines(r: Redis, a: Abstract) {
    && Sound(a)
    && HoldsLists(r.db, a)
    && HoldsDelayed(ToPromote(r), a)
  }

  /** The calls on the Redis queue.  A promotion pass is not one call but, for each entry
      of its reply, a push and later a removal, with any other calls in between. */
  datatype RedisCall =
    | RPut(job: JobRecord)
    | RTake(order: seq<int>)
    | RDelay(job: JobRecord, until: Time)
    | RBury(job: JobRecord)
    | RPush(raw: R.Raw)
    | RRemove(raw: R.Raw)

  function RedisStep(r: Redis, call: RedisCall): Redis {
    match call
    case RPut(job) => r.(db := R.Enqueue(r.db, job))
    case RTake(order) => r.(db := R.Dequeue(r.db, order).0)
    case RDelay(job, until) => r.(db := R.EnqueueDelayed(r.db, job, until))
    case RBury(job) => r.(db := R.MoveToDeadLetter(r.db, job))
    case RPush(raw) =>
      if raw.Encoded? then Redis(R.Enqueue(r.db, raw.job), r.pending + {raw}) else r
    case RRemove(raw) => Redis(R.ZRem(r.db, raw), r.pending - {raw})
  }

  function RedisOutput(r: Redis, call: RedisCall): seq<Option<Id>> {
    if call.RTake?
    then [match R.Dequeue(r.db, call.order).1 case None => None case Some(job) => Some(job.id)]
    else []
  }

  /** The push promotes; the removal is no operation of the abstract queue. */
  function RedisOps(call: RedisCall): seq<Op> {
    match call
    case RPut(job) => [Put(job)]
    case RTake(order) => [Take(order)]
    case RDelay(job, until) => [Delay(job, until)]
    case RBury(job) => [Bury(job)]
    case RPush(raw) => [Promote(IdOf(raw))]
    case RRemove(_) => []
  }

  /** A pass pushes entries that are still to be promoted and removes what it has pushed;
      no job is delayed again as the very copy whose removal is to come (a retry counts
      one attempt more); the other calls are legal when the abstract operation is. */
  ghost predicate RedisLegal(r: Redis, a: Abstract, call: RedisCall) {
    match call
    case RPush(raw) => raw.Encoded? && raw in ToPromote(r)
    case RRemove(raw) => raw in r.pending
    case RDelay(job, until) => Legal(a, Delay(job, until)) && R.Encoded(job) !in r.pending
    case _ => Legal(a, RedisOps(call)[0])
  }

  lemma PushLine(raws: seq<R.Raw>, line: seq<Id>, job: JobRecord)
    requires HoldsLine(raws, line)
    ensures HoldsLine([R.Encoded(job)] + raws, line + [job.id])
  {
    ReverseAppend(line, job.id);
    assert Ids([R.Encoded(job)] + raws) == [job.id] + Ids(raws);
  }

  lemma PopLine(raws: seq<R.Raw>, line: seq<Id>)
    requires HoldsLine(raws, line)
    ensures raws == [] <==> line == []
    ensures raws != [] ==> raws[|raws| - 1].Encoded? && IdOf(raws[|raws| - 1]) == line[0]
                           && HoldsLine(raws[..|raws| - 1], line[1..])
  {
    assert |raws| == |Ids(raws)| == |line|;
    if raws != [] {
      var n := |raws| - 1;
      assert Ids(raws) == Reverse(line[1..]) + [line[0]];
      assert Ids(raws[..n]) == Ids(raws)[..n];
    }
  }

  /** Replacing one list leaves the other lines as they are. */
  lemma LinesFrame(db: R.Db, a: Abstract, p: int, raws: seq<R.Raw>, line: seq<Id>, db': R.Db, a': Abstract)
    requires HoldsLists(db, a)
    requires Named(p) && HoldsLine(raws, line)
    requires db'.lists == db.lists[QueueName(p) := raws] && a'.lines == a.lines[p := line] && a'.dead == a.dead
    ensures HoldsLists(db', a')
  {
    forall q | Named(q)
      ensures HoldsLine(R.Elements(db', QueueName(q)), Line(a', q))
    {
      if q != p {
        R.NamesDistinct(p, q);
        assert R.Elements(db', QueueName(q)) == R.Elements(db, QueueName(q)) && Line(a', q) == Line(a, q);
      }
    }
    R.NotDeadLetters(p);
  }

  lemma {:induction false} RedisTakes(db: R.Db, a: Abstract, order: seq<int>, names: seq<string>)
    requires Sound(a) && HoldsLists(db, a) && forall p :: p in order ==> Named(p)
    requires |names| == |order| && forall i :: 0 <= i < |order| ==> names[i] == QueueName(order[i])
    ensures var (db', got) := R.BRPop(db, names);
            var (a', id) := TakeFirst(a, order);
            && Sound(a') && HoldsLists(db', a') && db'.delayed == db.delayed
            && a'.delayed == a.delayed && a'.priorities == a.priorities
            && (got.Some? <==> id.Some?)
            && (got.Some? ==> got.value.Encoded? && got.value.job.id == id.value)
    decreases |order|
  {
    if order != [] {
      var p := order[0];
      var raws, line := R.Elements(db, names[0]), Line(a, p);
      assert Named(p) && HoldsLine(raws, line);
      PopLine(raws, line);
      if raws == [] {
        RedisTakes(db, a, order[1..], names[1..]);
      } else {
        PopSound(a, p);
        LinesFrame(db, a, p, raws[..|raws| - 1], line[1..], R.BRPop(db, names).0, TakeFirst(a, order).0);
      }
    }
  }

  lemma PutLine(db: R.Db, a: Abstract, job: JobRecord, db': R.Db, a': Abstract)
    requires HoldsLists(db, a) && Named(job.priority)
    requires db'.lists == R.Enqueue(db, job).lists
    requires a'.lines == a.lines[job.priority := Line(a, job.priority) + [job.id]] && a'.dead == a.dead
    ensures HoldsLists(db', a')
  {
    var p := job.priority;
    PushLine(R.Elements(db, QueueName(p)), Line(a, p), job);
    LinesFrame(db, a, p, [R.Encoded(job)] + R.Elements(db, QueueName(p)), Line(a, p) + [job.id], db', a');
  }

  lemma PutSound(a: Abstract, job: JobRecord)
    requires Sound(a) && Legal(a, Put(job))
    ensures Sound(Step(a, Put(job)))
  {
    var a' := a.(priorities := a.priorities[job.id := job.priority]);
    KnownSound(a, job);
    assert Line(a', job.priority) == Line(a, job.priority);
    AppendSound(a', job.id, job.priority);
  }

  lemma MembersFrame(delayed: map<R.Raw, int>, a: Abstract, a': Abstract)
    requires HoldsDelayed(delayed, a) && a'.delayed == a.delayed
    requires forall id :: id in a.priorities ==> id in a'.priorities && a'.priorities[id] == a.priorities[id]
    ensures HoldsDelayed(delayed, a')
  {
    forall id | id in a'.delayed
      ensures HasMember(delayed, id)
    {
      assert HasMember(delayed, id);
    }
  }

  lemma RedisPuts(r: Redis, a: Abstract, job: JobRecord)
    requires RedisRefines(r, a) && Legal(a, Put(job))
    ensures RedisRefines(RedisStep(r, RPut(job)), Step(a, Put(job)))
  {
    var r', a' := RedisStep(r, RPut(job)), Step(a, Put(job));
    PutSound(a, job);
    PutLine(r.db, a, job, r'.db, a');
    MembersFrame(ToPromote(r), a, a');
  }

  lemma ListsFrame(db: R.Db, a: Abstract, db': R.Db, a': Abstract)
    requires HoldsLists(db, a) && db'.lists == db.lists && a'.lines == a.lines && a'.dead == a.dead
    ensures HoldsLists(db', a')
  {
    assert forall p :: Line(a', p) == Line(a, p);
    assert forall name :: R.Elements(db', name) == R.Elements(db, name);
  }

  lemma DelayMember(delayed: map<R.Raw, int>, a: Abstract, job: JobRecord, until: Time)
    requires HoldsDelayed(delayed, a) && Legal(a, Delay(job, until))
    ensures HoldsDelayed(delayed[R.Encoded(job) := R.Unix(until)], Step(a, Delay(job, until)))
  {
    var delayed', a' := delayed[R.Encoded(job) := R.Unix(until)], Step(a, Delay(job, until));
    forall id | id in a'.delayed
      ensures HasMember(delayed', id)
    {
      if id == job.id {
        assert R.Encoded(job) in delayed';
      } else {
        assert HasMember(delayed, id);
        var raw :| raw in delayed && IdOf(raw) == id;
        assert raw in delayed';
      }
    }
  }

  lemma DelayedEntries(r: Redis, job: JobRecord, until: Time)
    requires R.Encoded(job) !in r.pending
    ensures ToPromote(RedisStep(r, RDelay(job, until))) == ToPromote(r)[R.Encoded(job) := R.Unix(until)]
  {}

  lemma RedisDelays(r: Redis, a: Abstract, job: JobRecord, until: Time)
    requires RedisRefines(r, a) && Legal(a, Delay(job, until)) && R.Encoded(job) !in r.pending
    ensures RedisRefines(RedisStep(r, RDelay(job, until)), Step(a, Delay(job, until)))
  {
    var r', a' := RedisStep(r, RDelay(job, until)), Step(a, Delay(job, until));
    assert Sound(a') by { DelaySound(a, job, until); }
    assert HoldsLists(r'.db, a') by { ListsFrame(r.db, a, r'.db, a'); }
    assert HoldsDelayed(ToPromote(r'), a') by {
      DelayMember(ToPromote(r), a, job, until);
      DelayedEntries(r, job, until);
    }
  }

  lemma DelaySound(a: Abstract, job: JobRecord, until: Time)
    requires Sound(a) && Legal(a, Delay(job, until))
    ensures Sound(Step(a, Delay(job, until)))
  {
    KnownSound(a, job);
    var a' := a.(priorities := a.priorities[job.id := job.priority]);
    assert forall p :: Line(Step(a, Delay(job, until)), p) == Line(a', p);
  }

  lemma BuryLine(db: R.Db, a: Abstract, job: JobRecord)
    requires HoldsLists(db, a)
    ensures HoldsLists(R.MoveToDeadLetter(db, job), Step(a, Bury(job)))
  {
    var db', a' := R.MoveToDeadLetter(db, job), Step(a, Bury(job));
    PushLine(R.Elements(db, R.DEAD_LETTERS), a.dead, job);
    forall p
      ensures Line(a', p) == Line(a, p)
      ensures R.Elements(db', QueueName(p)) == R.Elements(db, QueueName(p))
    {
      R.NotDeadLetters(p);
    }
  }

  lemma RedisBuries(r: Redis, a: Abstract, job: JobRecord)
    requires RedisRefines(r, a)
    ensures RedisRefines(RedisStep(r, RBury(job)), Step(a, Bury(job)))
  {
    var a' := Step(a, Bury(job));
    assert forall p :: Line(a', p) == Line(a, p);
    BuryLine(r.db, a, job);
    MembersFrame(ToPromote(r), a, a');
  }

  lemma RemoveMember(delayed: map<R.Raw, int>, a: Abstract, raw: R.Raw, a': Abstract)
    requires HoldsDelayed(delayed, a) && raw in delayed
    requires a'.delayed == a.delayed - {IdOf(raw)} && a'.priorities == a.priorities
    ensures HoldsDelayed(delayed - {raw}, a')
  {
    forall id | id in a'.delayed
      ensures HasMember(delayed - {raw}, id)
    {
      assert HasMember(delayed, id);
      var r :| r in delayed && IdOf(r) == id;
      assert r in delayed - {raw};
    }
  }

  lemma RedisPushes(r: Redis, a: Abstract, raw: R.Raw)
    requires RedisRefines(r, a) && raw.Encoded? && raw in ToPromote(r)
    ensures RedisRefines(RedisStep(r, RPush(raw)), Step(a, Promote(IdOf(raw))))
  {
    var r', a' := RedisStep(r, RPush(raw)), Step(a, Promote(IdOf(raw)));
    MovedSound(a, IdOf(raw));
    PutLine(r.db, a, raw.job, r'.db, a');
    RemoveMember(ToPromote(r), a, raw, a');
    assert ToPromote(r') == ToPromote(r) - {raw};
  }

  lemma RedisRemoves(r: Redis, a: Abstract, raw: R.Raw)
    requires RedisRefines(r, a) && raw in r.pending
    ensures RedisRefines(RedisStep(r, RRemove(raw)), a)
  {
    var r' := RedisStep(r, RRemove(raw));
    ListsFrame(r.db, a, r'.db, a);
    assert ToPromote(r') == ToPromote(r);
  }

  lemma RedisTakeStep(r: Redis, a: Abstract, order: seq<int>)
    requires RedisRefines(r, a) && forall p :: p in order ==> Named(p)
    ensures RedisOutput(r, RTake(order)) == [TakeFirst(a, order).1]
    ensures RedisRefines(RedisStep(r, RTake(order)), TakeFirst(a, order).0)
  {
    RedisTakes(r.db, a, order, R.QueueNames(order));
    MembersFrame(ToPromote(r), a, TakeFirst(a, order).0);
  }

  lemma RedisOneRefines(r: Redis, a: Abstract, call: RedisCall)
    requires RedisRefines(r, a) && RedisLegal(r, a, call) && !call.RRemove?
    ensures RedisRefines(RedisStep(r, call), Step(a, RedisOps(call)[0]))
    ensures call.RTake? ==> RedisOutput(r, call) == [TakeFirst(a, call.order).1]
  {
    match call
    case RPut(job) => RedisPuts(r, a, job);
    case RTake(order) => RedisTakeStep(r, a, order);
    case RDelay(job, until) => RedisDelays(r, a, job, until);
    case RBury(job) => RedisBuries(r, a, job);
    case RPush(raw) => RedisPushes(r, a, raw);
  }

  /** Each call on the Redis queue does and hands out what the abstract operations do,
      also between the push of an entry and its removal. */
  lemma RedisStepRefines(r: Redis, a: Abstract, call: RedisCall)
    requires RedisRefines(r, a) && RedisLegal(r, a, call)
    ensures RedisOutput(r, call) == Outputs(a, RedisOps(call))
    ensures RedisRefines(RedisStep(r, call), Steps(a, RedisOps(call)))
  {
    if call.RRemove? {
      RedisRemoves(r, a, call.raw);
    } else {
      OneOp(a, RedisOps(call)[0]);
      RedisOneRefines(r, a, call);
    }
  }

  /** Against the exact-time test: the reply to a pass at `now` has every id due since
      the epoch, and no entry still to be promoted that is due a second or more later. */
  lemma RedisPromotesWithinASecond(r: Redis, a: Abstract, now: Time, reply: seq<R.Raw>, id: Id)
    requires RedisRefines(r, a) && R.RangeByScore(r.db, R.Unix(now), reply) && id in a.delayed
    ensures 0 <= a.delayed[id] <= now ==> exists raw :: raw in reply && raw in ToPromote(r) && IdOf(raw) == id
    ensures forall raw :: raw in reply && raw in ToPromote(r) && IdOf(raw) == id ==>
              0 <= a.delayed[id] < now + R.NANOS_PER_SECOND
  {
    assert HasMember(ToPromote(r), id);
    var raw :| raw in ToPromote(r) && IdOf(raw) == id;
    R.WholeSecondTest(a.delayed[id], now);
    if 0 <= a.delayed[id] <= now {
      assert raw in reply;
    }
  }

  // -------------------------------------------------- whole sequences of calls

  function MemoryAfter(m: M.MemQueue, calls: seq<MemoryCall>): M.MemQueue {
    if calls == [] then m else MemoryStep(MemoryAfter(m, calls[..|calls| - 1]), calls[|calls| - 1])
  }

  function MemoryOutputs(m: M.MemQueue, calls: seq<MemoryCall>): seq<Option<Id>> {
    if calls == [] then []
    else
      var n := |calls| - 1;
      MemoryOutputs(m, calls[..n]) + MemoryOutput(MemoryAfter(m, calls[..n]), calls[n])
  }

  /** The abstract operations that the calls carry out, with the ids promoted. */
  function MemoryRun(m: M.MemQueue, calls: seq<MemoryCall>): seq<Op> {
    if calls == [] then []
    else
      var n := |calls| - 1;
      MemoryRun(m, calls[..n]) + MemoryOps(MemoryAfter(m, calls[..n]), calls[n])
  }

  function RedisAfter(r: Redis, calls: seq<RedisCall>): Redis {
    if calls == [] then r else RedisStep(RedisAfter(r, calls[..|calls| - 1]), calls[|calls| - 1])
  }

  function RedisOutputs(r: Redis, calls: seq<RedisCall>): seq<Option<Id>> {
    if calls == [] then []
    else
      var n := |calls| - 1;
      RedisOutputs(r, calls[..n]) + RedisOutput(RedisAfter(r, calls[..n]), calls[n])
  }

  function RedisRun(calls: seq<RedisCall>): seq<Op> {
    if calls == [] then [] else RedisRun(calls[..|calls| - 1]) + RedisOps(calls[|calls| - 1])
  }

  ghost predicate RedisLegalRun(r: Redis, a: Abstract, calls: seq<RedisCall>) {
    calls == [] ||
    var n := |calls| - 1;
    RedisLegalRun(r, a, calls[..n]) && RedisLegal(RedisAfter(r, calls[..n]), Steps(a, RedisRun(calls[..n])), calls[n])
  }

  /** Over any sequence of legal calls the memory queue follows the abstract queue and
      hands out the same ids. */
  lemma {:induction false} MemoryRunRefines(m: M.MemQueue, a: Abstract, calls: seq<MemoryCall>)
    requires MemoryRefines(m, a) && LegalAll(a, MemoryRun(m, calls))
    ensures MemoryOutputs(m, calls) == Outputs(a, MemoryRun(m, calls))
    ensures MemoryRefines(MemoryAfter(m, calls), Steps(a, MemoryRun(m, calls)))
  {
    if calls != [] {
      var n := |calls| - 1;
      var m', ops := MemoryAfter(m, calls[..n]), MemoryRun(m, calls[..n]);
      Concatenated(a, ops, MemoryOps(m', calls[n]));
      MemoryRunRefines(m, a, calls[..n]);
      MemoryStepRefines(m', Steps(a, ops), calls[n]);
    }
  }

  /** And so does the Redis queue, with the pushes and removals of a promotion pass
      anywhere between the other calls. */
  lemma {:induction false} RedisRunRefines(r: Redis, a: Abstract, calls: seq<RedisCall>)
    requires RedisRefines(r, a) && RedisLegalRun(r, a, calls)
    ensures RedisOutputs(r, calls) == Outputs(a, RedisRun(calls))
    ensures RedisRefines(RedisAfter(r, calls), Steps(a, RedisRun(calls)))
  {
    if calls != [] {
      var n := |calls| - 1;
      var r', ops := RedisAfter(r, calls[..n]), RedisRun(calls[..n]);
      Concatenated(a, ops, RedisOps(calls[n]));
      RedisRunRefines(r, a, calls[..n]);
      RedisStepRefines(r', Steps(a, ops), calls[n]);
    }
  }

  const NOTHING: Abstract := Abstract(map[], map[], [], map[])

  const EMPTY_REDIS: Redis := Redis(R.Db(map[], map[]), {})

  lemma StartRefines()
    ensures MemoryRefines(M.EMPTY, NOTHING) && RedisRefines(EMPTY_REDIS, NOTHING)
  {
    assert forall p :: M.Listed(M.EMPTY, p) == Line(NOTHING, p) == [];
    assert Reverse([]) == [] && Ids([]) == [];
    assert ToPromote(EMPTY_REDIS) == map[];
  }

  /** Both start out as the empty queue, so two services that promote the same ids in
      the same order hand out the same jobs, whichever queue they use. */
  lemma QueuesAgree(memory: seq<MemoryCall>, redis: seq<RedisCall>)
    requires MemoryRun(M.EMPTY, memory) == RedisRun(redis)
    requires LegalAll(NOTHING, RedisRun(redis)) && RedisLegalRun(EMPTY_REDIS, NOTHING, redis)
    ensures MemoryOutputs(M.EMPTY, memory) == RedisOutputs(EMPTY_REDIS, redis)
  {
    StartRefines();
    MemoryRunRefines(M.EMPTY, NOTHING, memory);
    RedisRunRefines(EMPTY_REDIS, NOTHING, redis);
  }

  // ------------------------------------------------------ unnamed priorities

  /** Workers ask in the runner's order, and no job is filed under another priority. */
  predicate Usual(m: M.MemQueue, call: MemoryCall) {
    && (call.MTake? ==> call.order == M.RUNNER_ORDER)
    && (call.MPut? || call.MDelay? ==> call.job.id in m.index ==> m.index[call.job.id] == call.job.priority)
  }

  /** A Dequeue in the runner's order leaves the lists under unnamed priorities alone. */
  lemma UsualTake(m: M.MemQueue, id: Id, p: int)
    requires M.Indexed(m) && !Named(p) && id in M.Listed(m, p)
    ensures var (m', got) := M.Dequeue(m, M.RUNNER_ORDER);
            M.Indexed(m') && id in M.Listed(m', p) && got != Some(id)
  {
    M.RunnerTakesHighest(m);
    var (m', got) := M.Dequeue(m, M.RUNNER_ORDER);
    if got.Some? {
      var n := m.index[got.value];
      assert got.value in M.Listed(m, n);
      assert forall q :: M.Listed(m', q) == if q == n then M.Listed(m, q)[1..] else M.Listed(m, q);
    }
  }

  lemma UsualPut(m: M.MemQueue, job: JobRecord, id: Id, p: int)
    requires M.Indexed(m) && Usual(m, MPut(job)) && id in M.Listed(m, p)
    ensures M.Indexed(MemoryStep(m, MPut(job))) && id in M.Listed(MemoryStep(m, MPut(job)), p)
  {
    var m' := MemoryStep(m, MPut(job));
    assert forall q :: M.Listed(m', q) == if q == job.priority then M.Listed(m, q) + [job.id] else M.Listed(m, q);
  }

  lemma UsualPass(m: M.MemQueue, now: Time, iteration: seq<Id>, id: Id, p: int)
    requires M.Indexed(m) && id in M.Listed(m, p)
    ensures var m' := MemoryStep(m, MPromote(now, iteration)); M.Indexed(m') && id in M.Listed(m', p)
  {
    M.PromoteAllEffect(m, M.Due(m, now, iteration));
  }

  lemma UsualRest(m: M.MemQueue, call: MemoryCall, id: Id, p: int)
    requires M.Indexed(m) && Usual(m, call) && id in M.Listed(m, p) && (call.MDelay? || call.MBury?)
    ensures M.Indexed(MemoryStep(m, call)) && id in M.Listed(MemoryStep(m, call), p)
  {
    assert forall q :: M.Listed(MemoryStep(m, call), q) == M.Listed(m, q);
  }

  lemma UsualKeeps(m: M.MemQueue, call: MemoryCall, id: Id, p: int)
    requires M.Indexed(m) && Usual(m, call) && !Named(p) && id in M.Listed(m, p)
    ensures M.Indexed(MemoryStep(m, call)) && id in M.Listed(MemoryStep(m, call), p)
    ensures MemoryOutput(m, call) != [Some(id)]
  {
    if call.MTake? {
      UsualTake(m, id, p);
    } else if call.MPut? {
      UsualPut(m, call.job, id, p);
    } else if call.MPromote? {
      UsualPass(m, call.now, call.iteration, id, p);
    } else {
      UsualRest(m, call, id, p);
    }
  }

  /** In memory, whatever usual calls follow: a job listed under an unnamed priority
      stays there and is never handed out. */
  lemma {:induction false} NeverFound(m: M.MemQueue, calls: seq<MemoryCall>, id: Id, p: int)
    requires M.Indexed(m) && !Named(p) && id in M.Listed(m, p)
    requires forall i :: 0 <= i < |calls| ==> Usual(MemoryAfter(m, calls[..i]), calls[i])
    ensures M.Indexed(MemoryAfter(m, calls)) && id in M.Listed(MemoryAfter(m, calls), p)
    ensures Some(id) !in MemoryOutputs(m, calls)
  {
    if calls != [] {
      var n := |calls| - 1;
      assert forall i :: 0 <= i < n ==> calls[..n][..i] == calls[..i];
      NeverFound(m, calls[..n], id, p);
      UsualKeeps(MemoryAfter(m, calls[..n]), calls[n], id, p);
    }
  }

  /** What the runner's Dequeue pops. */
  lemma RunnerPops(db: R.Db)
    ensures var (critical, high, medium) := (QueueName(CRITICAL), QueueName(HIGH), QueueName(MEDIUM));
            var name := if R.Elements(db, critical) != [] then critical
                        else if R.Elements(db, high) != [] then high else medium;
            var raws := R.Elements(db, name);
            raws != [] ==>
              R.Dequeue(db, M.RUNNER_ORDER) ==
              (db.(lists := db.lists[name := raws[..|raws| - 1]]), R.Decode(raws[|raws| - 1]))
  {
    var names := R.QueueNames(M.RUNNER_ORDER);
    assert names == [QueueName(CRITICAL), QueueName(HIGH), QueueName(MEDIUM), QueueName(LOW)];
    assert names[1..][0] == names[1] && names[1..][1..][0] == names[2];
    if R.Elements(db, names[0]) == [] {
      assert R.BRPop(db, names) == R.BRPop(db, names[1..]);
      if R.Elements(db, names[1]) == [] {
        assert R.BRPop(db, names[1..]) == R.BRPop(db, names[1..][1..]);
      }
    }
  }

  /** The answer to the last of `n` + 1 Dequeues in a row. */
  function Answer(db: R.Db, n: nat): Option<JobRecord>
    decreases n
  {
    var (db', got) := R.Dequeue(db, M.RUNNER_ORDER);
    if n == 0 then got else Answer(db', n - 1)
  }

  /** How many entries come before the newest medium one. */
  function Before(db: R.Db): int {
    |R.Elements(db, QueueName(CRITICAL))| + |R.Elements(db, QueueName(HIGH))| + |R.Elements(db, QueueName(MEDIUM))| - 1
  }

  lemma {:induction false} FoundInTurn(db: R.Db, job: JobRecord, n: nat)
    requires var raws := R.Elements(db, QueueName(MEDIUM)); raws != [] && raws[0] == R.Encoded(job)
    requires n == Before(db)
    ensures Answer(db, n) == Some(job)
    decreases n
  {
    var (critical, high, medium) := (QueueName(CRITICAL), QueueName(HIGH), QueueName(MEDIUM));
    R.NamesDistinct(CRITICAL, HIGH);
    R.NamesDistinct(CRITICAL, MEDIUM);
    R.NamesDistinct(HIGH, MEDIUM);
    RunnerPops(db);
    var db' := R.Dequeue(db, M.RUNNER_ORDER).0;
    if n > 0 {
      var name := if R.Elements(db, critical) != [] then critical
                  else if R.Elements(db, high) != [] then high else medium;
      var raws := R.Elements(db, name);
      assert forall q :: R.Elements(db', q) == if q == name then raws[..|raws| - 1] else R.Elements(db, q);
      FoundInTurn(db', job, n - 1);
    }
  }

  /** Named priorities are needed.  For any other priority, a job put in a memory queue is
      never handed out to a worker, whatever usual calls follow; put in Redis, it is handed
      out as soon as the entries before it have been. */
  lemma UnnamedPrioritiesDiffer(m: M.MemQueue, calls: seq<MemoryCall>, db: R.Db, job: JobRecord)
    requires !Named(job.priority) && M.Indexed(m) && Usual(m, MPut(job))
    requires var m' := M.Enqueue(m, job.id, job.priority);
             forall i :: 0 <= i < |calls| ==> Usual(MemoryAfter(m', calls[..i]), calls[i])
    ensures Some(job.id) !in MemoryOutputs(M.Enqueue(m, job.id, job.priority), calls)
    ensures Before(R.Enqueue(db, job)) >= 0 && Answer(R.Enqueue(db, job), Before(R.Enqueue(db, job))) == Some(job)
  {
    var m' := M.Enqueue(m, job.id, job.priority);
    var p := job.priority;
    assert forall q :: M.Listed(m', q) == if q == p then M.Listed(m, q) + [job.id] else M.Listed(m, q);
    NeverFound(m', calls, job.id, p);
    R.UnnamedIsMedium(p);
    FoundInTurn(R.Enqueue(db, job), job, Before(R.Enqueue(db, job)));
  }
}
