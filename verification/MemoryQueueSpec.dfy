/** The in-memory queue as a value, one function per operation, and what the two
    operations with loops (Dequeue and the promotion of delayed jobs) achieve. */
module MemoryQueueSpec {
  import opened Domain

  /** `index` stands for the map of job references: which ids have one, and the
      priority of the job referred to (a job's priority never changes once queued). */
  datatype MemQueue = MemQueue(
    queues: map<int, seq<Id>>,
    delayed: map<Id, Time>,
    dead: seq<Id>,
    index: map<Id, int>)

  const EMPTY: MemQueue := MemQueue(map[], map[], [], map[])

  /** The id list of a priority; a missing map entry reads as the empty list. */
  function Listed(q: MemQueue, p: int): seq<Id> {
    if p in q.queues then q.queues[p] else []
  }

  function Enqueue(q: MemQueue, id: Id, p: int): MemQueue {
    q.(index := q.index[id := p], queues := q.queues[p := Listed(q, p) + [id]])
  }

  function EnqueueDelayed(q: MemQueue, id: Id, p: int, until: Time): MemQueue {
    q.(index := q.index[id := p], delayed := q.delayed[id := until])
  }

  function MoveToDeadLetter(q: MemQueue, id: Id): MemQueue {
    q.(dead := q.dead + [id])
  }

  /** Pops the first id of the first non-empty list, in the given order.  An id
      without a job reference is dropped and the search goes on with the next list. */
  function Dequeue(q: MemQueue, order: seq<int>): (MemQueue, Option<Id>)
    decreases |order|
  {
    if order == [] then (q, None)
    else
      var p := order[0];
      var ids := Listed(q, p);
      if ids == [] then Dequeue(q, order[1..])
      else
        var q' := q.(queues := q.queues[p := ids[1..]]);
        if ids[0] in q.index then (q', Some(ids[0])) else Dequeue(q', order[1..])
  }

  /** The ids of `iteration` whose delay has passed at `now`, in that order. */
  function Due(q: MemQueue, now: Time, iteration: seq<Id>): (r: seq<Id>) {
    if iteration == [] then []
    else
      var n := |iteration| - 1;
      var id := iteration[n];
      Due(q, now, iteration[..n]) +
      if id in q.delayed && q.delayed[id] <= now then [id] else []
  }

  function PromoteOne(q: MemQueue, id: Id): MemQueue {
    if id in q.index
    then q.(delayed := q.delayed - {id},
            queues := q.queues[q.index[id] := Listed(q, q.index[id]) + [id]])
    else q
  }

  function PromoteAll(q: MemQueue, ids: seq<Id>): MemQueue {
    if ids == [] then q
    else PromoteOne(PromoteAll(q, ids[..|ids| - 1]), ids[|ids| - 1])
  }

  /** The effect on the collections of one promotion pass that visits the delayed
      map in the order `iteration`. */
  function ProcessDelayed(q: MemQueue, now: Time, iteration: seq<Id>): MemQueue {
    PromoteAll(q, Due(q, now, iteration))
  }

  datatype Stats = Stats(active: map<int, nat>, delayed: nat, dead: nat)

  function QueueStats(q: MemQueue): Stats {
    Stats(map p | p in q.queues :: |q.queues[p]|, |q.delayed|, |q.dead|)
  }

  // ------------------------------------------------------------- properties

  ghost predicate NoDup(s: seq<Id>) {
    forall i, j :: 0 <= i < j < |s| ==> s[i] != s[j]
  }

  /** `iteration` visits each of `keys` exactly once: any order a Go map range may take. */
  ghost predicate Enumerates(iteration: seq<Id>, keys: set<Id>) {
    NoDup(iteration) && forall id :: id in iteration <==> id in keys
  }

  /** Every listed id has a job reference, under the priority of its list. */
  ghost predicate Indexed(q: MemQueue) {
    forall p, id :: id in Listed(q, p) ==> id in q.index && q.index[id] == p
  }

  /** The ids of `ids` that the index files under priority `p`, in order. */
  function OfPriority(q: MemQueue, ids: seq<Id>, p: int): (r: seq<Id>)
    ensures forall id :: id in r <==> id in ids && id in q.index && q.index[id] == p
  {
    if ids == [] then []
    else
      var n := |ids| - 1;
      assert ids == ids[..n] + [ids[n]];
      OfPriority(q, ids[..n], p) +
      if ids[n] in q.index && q.index[ids[n]] == p then [ids[n]] else []
  }

  lemma {:induction false} OfPriorityNoDup(q: MemQueue, ids: seq<Id>, p: int)
    requires NoDup(ids)
    ensures NoDup(OfPriority(q, ids, p))
  {
    if ids != [] {
      OfPriorityNoDup(q, ids[..|ids| - 1], p);
    }
  }

  /** Due picks exactly the ids whose time has come, each once. */
  lemma {:induction false} DueIsExact(q: MemQueue, now: Time, iteration: seq<Id>)
    requires NoDup(iteration)
    ensures NoDup(Due(q, now, iteration))
    ensures forall id :: id in Due(q, now, iteration) <==>
                         id in iteration && id in q.delayed && q.delayed[id] <= now
  {
    if iteration != [] {
      var n := |iteration| - 1;
      DueIsExact(q, now, iteration[..n]);
      assert iteration == iteration[..n] + [iteration[n]];
    }
  }

  ghost predicate Before(ids: seq<Id>, x: Id, y: Id) {
    exists a, b :: 0 <= a < b < |ids| && ids[a] == x && ids[b] == y
  }

  /** And it keeps the order of the visits. */
  lemma {:induction false} DueInOrder(q: MemQueue, now: Time, iteration: seq<Id>, i: nat, j: nat)
    requires NoDup(iteration) && i < j < |iteration|
    requires iteration[i] in q.delayed && q.delayed[iteration[i]] <= now
    requires iteration[j] in q.delayed && q.delayed[iteration[j]] <= now
    ensures Before(Due(q, now, iteration), iteration[i], iteration[j])
  {
    var n := |iteration| - 1;
    var due, earlier := Due(q, now, iteration), Due(q, now, iteration[..n]);
    if j < n {
      DueInOrder(q, now, iteration[..n], i, j);
      var a, b :| 0 <= a < b < |earlier| && earlier[a] == iteration[i] && earlier[b] == iteration[j];
      assert due[a] == earlier[a] && due[b] == earlier[b];
    } else {
      DueIsExact(q, now, iteration[..n]);
      assert iteration[i] == iteration[..n][i];
      var a :| 0 <= a < |earlier| && earlier[a] == iteration[i];
      assert due[a] == earlier[a] && due[|earlier|] == iteration[j];
    }
  }

  /** What a promotion of `ids` leaves in each collection. */
  lemma {:induction false} PromoteAllEffect(q: MemQueue, ids: seq<Id>)
    ensures var r := PromoteAll(q, ids);
            && r.dead == q.dead && r.index == q.index
            && (forall id :: id in r.delayed <==> id in q.delayed && !(id in ids && id in q.index))
            && (forall id :: id in r.delayed ==> r.delayed[id] == q.delayed[id])
            && (forall p :: Listed(r, p) == Listed(q, p) + OfPriority(q, ids, p))
  {
    if ids != [] {
      var n := |ids| - 1;
      PromoteAllEffect(q, ids[..n]);
      assert ids == ids[..n] + [ids[n]];
      PromoteLastEffect(q, ids, PromoteAll(q, ids[..n]));
    }
  }

  lemma PromoteLastEffect(q: MemQueue, ids: seq<Id>, m: MemQueue)
    requires ids != [] && m.index == q.index
    requires forall id :: id in m.delayed <==> id in q.delayed && !(id in ids[..|ids| - 1] && id in q.index)
    requires forall id :: id in m.delayed ==> m.delayed[id] == q.delayed[id]
    requires forall p :: Listed(m, p) == Listed(q, p) + OfPriority(q, ids[..|ids| - 1], p)
    ensures var r := PromoteOne(m, ids[|ids| - 1]);
            && r.dead == m.dead && r.index == q.index
            && (forall id :: id in r.delayed <==> id in q.delayed && !(id in ids && id in q.index))
            && (forall id :: id in r.delayed ==> r.delayed[id] == q.delayed[id])
            && (forall p :: Listed(r, p) == Listed(q, p) + OfPriority(q, ids, p))
  {
    var last := ids[|ids| - 1];
    assert ids == ids[..|ids| - 1] + [last];
    forall p
      ensures Listed(PromoteOne(m, last), p) == Listed(q, p) + OfPriority(q, ids, p)
    {
      assert OfPriority(q, ids, p) ==
             OfPriority(q, ids[..|ids| - 1], p) + if last in q.index && q.index[last] == p then [last] else [];
    }
  }

  /** One promotion pass partitions the delayed map, whatever the order in which
      the map is visited: what stays is exactly what is not yet due (or has no
      job reference), and each list grows by the due ids of its own priority,
      each of them once. */
  lemma ProcessDelayedPartitions(q: MemQueue, now: Time, iteration: seq<Id>)
    requires Enumerates(iteration, q.delayed.Keys)
    ensures var r := ProcessDelayed(q, now, iteration);
            var due := Due(q, now, iteration);
            && (forall id :: id in r.delayed <==> id in q.delayed && (q.delayed[id] > now || id !in q.index))
            && (forall id :: id in r.delayed ==> r.delayed[id] == q.delayed[id])
            && r.dead == q.dead && r.index == q.index
            && forall p :: && Listed(r, p) == Listed(q, p) + OfPriority(q, due, p)
                           && NoDup(OfPriority(q, due, p))
                           && forall id :: id in OfPriority(q, due, p) <==>
                                id in q.delayed && q.delayed[id] <= now && id in q.index && q.index[id] == p
  {
    var due := Due(q, now, iteration);
    DueIsExact(q, now, iteration);
    PromoteAllEffect(q, due);
    forall p
      ensures NoDup(OfPriority(q, due, p))
    {
      OfPriorityNoDup(q, due, p);
    }
  }

  /** With an intact index, Dequeue takes the head of the first non-empty list. */
  lemma {:induction false} DequeueHead(q: MemQueue, order: seq<int>) returns (k: nat)
    requires Indexed(q)
    ensures k <= |order|
    ensures forall i :: 0 <= i < k ==> Listed(q, order[i]) == []
    ensures k == |order| ==> Dequeue(q, order) == (q, None)
    ensures k < |order| ==>
              var ids := Listed(q, order[k]);
              && ids != [] && ids[0] in q.index && q.index[ids[0]] == order[k]
              && Dequeue(q, order) == (q.(queues := q.queues[order[k] := ids[1..]]), Some(ids[0]))
    decreases |order|
  {
    if order == [] {
      k := 0;
    } else if Listed(q, order[0]) == [] {
      var k' := DequeueHead(q, order[1..]);
      k := k' + 1;
      assert order[1..][..k'] == order[1..k];
      assert k < |order| ==> order[1..][k'] == order[k];
    } else {
      k := 0;
      var id := Listed(q, order[0])[0];
      assert id in Listed(q, order[0]);
      assert id in q.index;
    }
  }

  /** How many ids of the list of `p` are gone once the lists `seen` have been looked at,
      each time for one id. */
  function Popped(q: MemQueue, seen: seq<int>, p: int): (n: nat)
    ensures n <= |Listed(q, p)|
  {
    var looks := multiset(seen)[p];
    if looks < |Listed(q, p)| then looks else |Listed(q, p)|
  }

  /** One look at the list of `first`, and then those at `seen`. */
  lemma PoppedFirst(q: MemQueue, first: int, seen: seq<int>, q': MemQueue, p: int)
    requires Listed(q, first) != [] ==> q' == q.(queues := q.queues[first := Listed(q, first)[1..]])
    requires Listed(q, first) == [] ==> q' == q
    ensures Popped(q, [first] + seen, p) ==
            Popped(q', seen, p) + if p == first && Listed(q, first) != [] then 1 else 0
    ensures Listed(q', p)[Popped(q', seen, p)..] == Listed(q, p)[Popped(q, [first] + seen, p)..]
    ensures forall i :: 0 <= i < |Listed(q', p)| ==>
              Listed(q', p)[i] == Listed(q, p)[if p == first && Listed(q, first) != [] then i + 1 else i]
  {
    assert multiset([first] + seen)[p] == multiset(seen)[p] + if p == first then 1 else 0;
  }

  /** After the looks at `seen`, `r` has what is left of each list. */
  ghost predicate LeftOf(q: MemQueue, seen: seq<int>, r: MemQueue) {
    forall p :: Listed(r, p) == Listed(q, p)[Popped(q, seen, p)..]
  }

  /** No head that these looks take away has a job reference. */
  ghost predicate Unreferenced(q: MemQueue, seen: seq<int>) {
    forall p, i :: 0 <= i < Popped(q, seen, p) ==> Listed(q, p)[i] !in q.index
  }

  /** The next look at the list of `p` finds an id with a reference. */
  ghost predicate FindsNext(q: MemQueue, seen: seq<int>, p: int, id: Id) {
    var n := Popped(q, seen, p);
    n < |Listed(q, p)| && Listed(q, p)[n] == id && id in q.index
  }

  /** A look that finds nothing to hand out. */
  predicate LooksOnce(q: MemQueue, first: int, q': MemQueue) {
    var ids := Listed(q, first);
    if ids == [] then q' == q else ids[0] !in q.index && q' == q.(queues := q.queues[first := ids[1..]])
  }

  lemma LeftOfMore(q: MemQueue, first: int, seen: seq<int>, q': MemQueue, r: MemQueue)
    requires LooksOnce(q, first, q') && LeftOf(q', seen, r)
    ensures LeftOf(q, [first] + seen, r)
  {
    forall p
      ensures Listed(r, p) == Listed(q, p)[Popped(q, [first] + seen, p)..]
    {
      PoppedFirst(q, first, seen, q', p);
    }
  }

  lemma UnreferencedMore(q: MemQueue, first: int, seen: seq<int>, q': MemQueue)
    requires LooksOnce(q, first, q') && Unreferenced(q', seen)
    ensures Unreferenced(q, [first] + seen)
  {
    forall p, i | 0 <= i < Popped(q, [first] + seen, p)
      ensures Listed(q, p)[i] !in q.index
    {
      PoppedFirst(q, first, seen, q', p);
      var j := if p == first && Listed(q, first) != [] then i - 1 else i;
      assert j >= 0 ==> Listed(q', p)[j] == Listed(q, p)[i];
    }
  }

  lemma FindsMore(q: MemQueue, first: int, seen: seq<int>, q': MemQueue, p: int, id: Id)
    requires LooksOnce(q, first, q') && FindsNext(q', seen, p, id)
    ensures FindsNext(q, [first] + seen, p, id)
  {
    PoppedFirst(q, first, seen, q', p);
  }

  /** The search drops the heads that have no job reference, up to the `k`-th look, where it
      takes one that has; or, after all looks, it finds none. */
  ghost predicate FoundAt(q: MemQueue, order: seq<int>, k: nat, r: MemQueue, got: Option<Id>) {
    && k <= |order| && Unreferenced(q, order[..k])
    && r.delayed == q.delayed && r.dead == q.dead && r.index == q.index
    && LeftOf(q, if k < |order| then order[..k + 1] else order, r)
    && (got.None? <==> k == |order|)
    && (k < |order| ==> FindsNext(q, order[..k], order[k], got.value))
  }

  /** Dequeue on any queue and for any order, repeated priorities included. */
  lemma {:induction false} DequeueDrops(q: MemQueue, order: seq<int>) returns (k: nat)
    ensures FoundAt(q, order, k, Dequeue(q, order).0, Dequeue(q, order).1)
    decreases |order|
  {
    if order == [] {
      k := 0;
    } else if Listed(q, order[0]) != [] && Listed(q, order[0])[0] in q.index {
      k := 0;
      TakesHead(q, order);
    } else {
      var q' := NextLook(q, order);
      var n := DequeueDrops(q', order[1..]);
      k := n + 1;
      LooksAgain(q, order, q', n, Dequeue(q, order).0, Dequeue(q, order).1);
    }
  }

  lemma NextLook(q: MemQueue, order: seq<int>) returns (q': MemQueue)
    requires order != [] && (Listed(q, order[0]) != [] ==> Listed(q, order[0])[0] !in q.index)
    ensures LooksOnce(q, order[0], q') && Dequeue(q, order) == Dequeue(q', order[1..])
  {
    var ids := Listed(q, order[0]);
    q' := if ids == [] then q else q.(queues := q.queues[order[0] := ids[1..]]);
  }

  lemma TakesHead(q: MemQueue, order: seq<int>)
    requires order != [] && Listed(q, order[0]) != [] && Listed(q, order[0])[0] in q.index
    ensures FoundAt(q, order, 0, Dequeue(q, order).0, Dequeue(q, order).1)
  {
    var r := Dequeue(q, order).0;
    forall p
      ensures Listed(r, p) == Listed(q, p)[Popped(q, order[..1], p)..]
    {
      assert order[..1] == [order[0]] + [];
      PoppedFirst(q, order[0], [], r, p);
    }
  }

  /** What the rest of the search finds, said of the whole order. */
  lemma LooksAgain(q: MemQueue, order: seq<int>, q': MemQueue, k: nat, r: MemQueue, got: Option<Id>)
    requires order != [] && LooksOnce(q, order[0], q') && FoundAt(q', order[1..], k, r, got)
    ensures FoundAt(q, order, k + 1, r, got)
  {
    Prefixes(order, k);
    UnreferencedMore(q, order[0], order[1..][..k], q');
    if k < |order| - 1 {
      LeftOfMore(q, order[0], order[1..][..k + 1], q', r);
      FindsMore(q, order[0], order[1..][..k], q', order[k + 1], got.value);
    } else {
      LeftOfMore(q, order[0], order[1..], q', r);
    }
  }

  lemma Prefixes(order: seq<int>, k: nat)
    requires order != [] && k <= |order| - 1
    ensures [order[0]] + order[1..][..k] == order[..k + 1] && [order[0]] + order[1..] == order
    ensures k < |order| - 1 ==> [order[0]] + order[1..][..k + 1] == order[..k + 2] && order[1..][k] == order[k + 1]
  {}

  /** The order in which a worker asks for jobs. */
  const RUNNER_ORDER: seq<int> := [CRITICAL, HIGH, MEDIUM, LOW]

  /** A worker's Dequeue never passes over a higher list, and finds something
      exactly when a list with a named priority is not empty. */
  lemma RunnerTakesHighest(q: MemQueue)
    requires Indexed(q)
    ensures var (q', got) := Dequeue(q, RUNNER_ORDER);
            && (got.None? <==> forall p :: Named(p) ==> Listed(q, p) == [])
            && (got.None? ==> q' == q)
            && (got.Some? ==>
                  && got.value in q.index && Named(q.index[got.value])
                  && var p := q.index[got.value];
                     && Listed(q, p) != [] && Listed(q, p)[0] == got.value
                     && q' == q.(queues := q.queues[p := Listed(q, p)[1..]])
                     && forall h :: p < h <= CRITICAL ==> Listed(q, h) == [])
  {
    var k := DequeueHead(q, RUNNER_ORDER);
    assert forall p :: Named(p) ==> p == RUNNER_ORDER[CRITICAL - p];
    if k < 4 {
      assert Listed(q, RUNNER_ORDER[k]) != [];
      forall h | RUNNER_ORDER[k] < h <= CRITICAL
        ensures Listed(q, h) == []
      {
        assert h == RUNNER_ORDER[CRITICAL - h];
      }
    }
  }
}
