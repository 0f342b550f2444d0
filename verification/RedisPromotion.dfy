/** ProcessDelayedJobs over Redis as single commands: any number of callers, workers
    and schedulers interleave, commands fail and callers crash between any two
    commands. */
module RedisPromotion {
  import opened Domain
  import opened MapSum
  import opened RedisSpec

  /** A promoting process: between passes, at the head of its loop over the reply, or
      between the push of an entry and its removal. */
  datatype Caller = Resting | Looping(todo: seq<Raw>) | Pushed(raw: Raw, todo: seq<Raw>)

  /** `added`, `removed`, `promoted`, `put` and `taken` log what has ever come into the
      delayed set, left it, been pushed by promotion, been pushed directly, and been
      popped; no command reads them. */
  datatype State = State(
    db: Db,
    callers: map<nat, Caller>,
    added: multiset<Raw>,
    removed: multiset<Raw>,
    promoted: multiset<Raw>,
    put: multiset<Raw>,
    taken: multiset<Raw>)

  datatype Action =
    | Add(raw: Raw, score: int)                        // ZADD
    | Put(job: JobRecord)                              // LPUSH by a scheduler
    | Take(order: seq<int>)                            // BRPOP by a worker
    | Scan(c: nat, now: Time, reply: seq<Raw>)         // ZRANGEBYSCORE
    | Push(c: nat, ok: bool)                           // LPUSH of the next entry
    | Remove(c: nat, ok: bool)                         // ZREM of the entry just pushed
    | Finish(c: nat)
    | Crash(c: nat)

  ghost predicate Enabled(s: State, a: Action) {
    match a
    case Add(_, _) => true
    case Put(_) => true
    case Take(_) => true
    case Scan(c, now, reply) => c in s.callers && s.callers[c].Resting? && RangeByScore(s.db, Unix(now), reply)
    case Push(c, _) => c in s.callers && s.callers[c].Looping? && s.callers[c].todo != []
    case Remove(c, _) => c in s.callers && s.callers[c].Pushed?
    case Finish(c) => c in s.callers && s.callers[c] == Looping([])
    case Crash(c) => c in s.callers
  }

  function SetCaller(s: State, c: nat, pc: Caller): State {
    s.(callers := s.callers[c := pc])
  }

  ghost function Apply(s: State, a: Action): State
    requires Enabled(s, a)
  {
    match a
    case Add(raw, score) =>
      s.(db := ZAdd(s.db, raw, score), added := if raw in s.db.delayed then s.added else s.added + multiset{raw})
    case Put(job) => s.(db := Enqueue(s.db, job), put := s.put + multiset{Encoded(job)})
    case Take(order) =>
      var (db, got) := BRPop(s.db, QueueNames(order));
      s.(db := db, taken := if got.Some? then s.taken + multiset{got.value} else s.taken)
    case Scan(c, now, reply) => SetCaller(s, c, Looping(reply))
    case Push(c, ok) =>
      var raw, rest := s.callers[c].todo[0], s.callers[c].todo[1..];
      if raw.Malformed? || !ok then SetCaller(s, c, Looping(rest))
      else SetCaller(s, c, Pushed(raw, rest)).(db := Enqueue(s.db, raw.job), promoted := s.promoted + multiset{raw})
    case Remove(c, ok) =>
      var raw := s.callers[c].raw;
      SetCaller(s, c, Looping(s.callers[c].todo)).(
        db := if ok then ZRem(s.db, raw) else s.db,
        removed := if ok && raw in s.db.delayed then s.removed + multiset{raw} else s.removed)
    case Finish(c) => SetCaller(s, c, Resting)
    case Crash(c) => SetCaller(s, c, Resting)
  }

  ghost predicate Init(s: State) {
    && s.db == Db(map[], map[]) && s.added == s.removed == s.promoted == s.put == s.taken == multiset{}
    && forall c :: c in s.callers ==> s.callers[c] == Resting
  }

  ghost predicate IsRun(trace: seq<State>, acts: seq<Action>) {
    && |trace| == |acts| + 1 && Init(trace[0])
    && forall i :: 0 <= i < |acts| ==> Enabled(trace[i], acts[i]) && trace[i + 1] == Apply(trace[i], acts[i])
  }

  // ------------------------------------------------------------ nothing lost

  /** The caller has pushed the entry and not yet removed it. */
  function Holding(raw: Raw): Caller -> bool {
    (pc: Caller) => pc.Pushed? && pc.raw == raw
  }

  ghost function InHand(s: State, raw: Raw): nat {
    Count(s.callers, Holding(raw))
  }

  /** What leaves the delayed set has been pushed before, once for every time it left. */
  ghost predicate PushedFirst(s: State) {
    && (forall raw :: s.added[raw] == s.removed[raw] + Unit(raw in s.db.delayed))
    && (forall raw :: s.removed[raw] + InHand(s, raw) <= s.promoted[raw])
    && (forall c :: c in s.callers && s.callers[c].Pushed? ==> s.callers[c].raw.Encoded?)
    && (forall raw :: raw in s.promoted ==> raw.Encoded?)
  }

  /** The logs follow the delayed set and the caller that moves from `s.callers[c]` to `pc`. */
  lemma CallerMoves(s: State, c: nat, pc: Caller, raw: Raw)
    requires c in s.callers
    ensures InHand(SetCaller(s, c, pc), raw) ==
            InHand(s, raw) - Unit(Holding(raw)(s.callers[c])) + Unit(Holding(raw)(pc))
  {
    CountUpdate(s.callers, Holding(raw), c, pc);
  }

  lemma StepPushedFirst(s: State, a: Action)
    requires PushedFirst(s) && Enabled(s, a)
    ensures PushedFirst(Apply(s, a))
  {
    var s' := Apply(s, a);
    forall raw
      ensures s'.added[raw] == s'.removed[raw] + Unit(raw in s'.db.delayed)
      ensures s'.removed[raw] + InHand(s', raw) <= s'.promoted[raw]
    {
      StepPushedFirstOf(s, a, raw);
    }
    StepEncoded(s, a);
  }

  lemma StepPushedFirstOf(s: State, a: Action, raw: Raw)
    requires Enabled(s, a) && s.added[raw] == s.removed[raw] + Unit(raw in s.db.delayed)
    requires s.removed[raw] + InHand(s, raw) <= s.promoted[raw]
    ensures var s' := Apply(s, a);
            && s'.added[raw] == s'.removed[raw] + Unit(raw in s'.db.delayed)
            && s'.removed[raw] + InHand(s', raw) <= s'.promoted[raw]
  {
    StepLogs(s, a, raw);
    StepInHand(s, a, raw);
  }

  lemma StepEncoded(s: State, a: Action)
    requires Enabled(s, a)
    requires forall c :: c in s.callers && s.callers[c].Pushed? ==> s.callers[c].raw.Encoded?
    requires forall raw :: raw in s.promoted ==> raw.Encoded?
    ensures var s' := Apply(s, a);
            && (forall c :: c in s'.callers && s'.callers[c].Pushed? ==> s'.callers[c].raw.Encoded?)
            && (forall raw :: raw in s'.promoted ==> raw.Encoded?)
  {}

  /** What an action logs about one entry. */
  lemma StepLogs(s: State, a: Action, raw: Raw)
    requires Enabled(s, a)
    ensures var s' := Apply(s, a);
            && s'.promoted[raw] == s.promoted[raw] +
               Unit(a.Push? && a.ok && s.callers[a.c].todo[0] == raw && raw.Encoded?)
            && s'.removed[raw] == s.removed[raw] +
               Unit(a.Remove? && a.ok && s.callers[a.c].raw == raw && raw in s.db.delayed)
            && s'.added[raw] - Unit(raw in s'.db.delayed) - s'.removed[raw] ==
               s.added[raw] - Unit(raw in s.db.delayed) - s.removed[raw]
  {
    if a.Take? {
      BRPopKeeps(s.db, QueueNames(a.order));
    }
  }

  /** How the callers' hands change. */
  lemma StepInHand(s: State, a: Action, raw: Raw)
    requires Enabled(s, a)
    ensures var s' := Apply(s, a);
            InHand(s', raw) == InHand(s, raw)
              + Unit(a.Push? && a.ok && s.callers[a.c].todo[0] == raw && raw.Encoded?)
              - Unit((a.Remove? || a.Crash?) && Holding(raw)(s.callers[a.c]))
  {
    if a.Scan? || a.Push? || a.Remove? || a.Finish? || a.Crash? {
      CallerMoves(s, a.c, Apply(s, a).callers[a.c], raw);
    }
  }

  lemma {:induction false} BRPopKeeps(db: Db, names: seq<string>)
    ensures BRPop(db, names).0.delayed == db.delayed
  {
    if names != [] {
      BRPopKeeps(db, names[1..]);
    }
  }

  function Home(raw: Raw): string
    requires raw.Encoded?
  {
    QueueName(raw.job.priority)
  }

  /** Lists hold only entries of their own priority. */
  ghost predicate AtHome(db: Db) {
    forall name, raw :: raw in Elements(db, name) ==> raw.Encoded? && Home(raw) == name
  }

  /** Everything pushed to the list of its priority is still there or was popped. */
  ghost predicate Accounted(s: State) {
    forall raw: Raw :: raw.Encoded? ==>
      Waiting(s.db, Home(raw), raw) + s.taken[raw] == s.promoted[raw] + s.put[raw]
  }

  /** A list after a push or a pop. */
  lemma EnqueueWaiting(db: Db, job: JobRecord)
    requires AtHome(db)
    ensures AtHome(Enqueue(db, job))
    ensures forall raw: Raw :: raw.Encoded? ==>
              Waiting(Enqueue(db, job), Home(raw), raw) == Waiting(db, Home(raw), raw) + multiset{Encoded(job)}[raw]
  {
    var db' := Enqueue(db, job);
    var home := QueueName(job.priority);
    assert Elements(db', home) == [Encoded(job)] + Elements(db, home);
    assert forall name :: name != home ==> Elements(db', name) == Elements(db, name);
  }

  lemma PopWaiting(db: Db, name: string)
    requires AtHome(db) && Elements(db, name) != []
    ensures var raws := Elements(db, name);
            var db' := db.(lists := db.lists[name := raws[..|raws| - 1]]);
            var got := raws[|raws| - 1];
            && AtHome(db')
            && forall raw: Raw :: raw.Encoded? ==>
                 Waiting(db', Home(raw), raw) + multiset{got}[raw] == Waiting(db, Home(raw), raw)
  {
    var raws := Elements(db, name);
    var db' := db.(lists := db.lists[name := raws[..|raws| - 1]]);
    var got := raws[|raws| - 1];
    assert forall n :: Elements(db', n) == if n == name then raws[..|raws| - 1] else Elements(db, n);
    LastCounts(raws);
    assert got in raws;
  }

  lemma LastCounts(raws: seq<Raw>)
    requires raws != []
    ensures forall raw :: multiset(raws[..|raws| - 1])[raw] + multiset{raws[|raws| - 1]}[raw] == multiset(raws)[raw]
  {
    assert raws == raws[..|raws| - 1] + [raws[|raws| - 1]];
  }

  lemma {:induction false} BRPopWaiting(db: Db, names: seq<string>)
    requires AtHome(db)
    ensures var (db', got) := BRPop(db, names);
            && AtHome(db')
            && (got.None? ==> db' == db)
            && (got.Some? ==> forall raw: Raw :: raw.Encoded? ==>
                 Waiting(db', Home(raw), raw) + multiset{got.value}[raw] == Waiting(db, Home(raw), raw))
  {
    if names != [] {
      if Elements(db, names[0]) == [] {
        BRPopWaiting(db, names[1..]);
      } else {
        PopWaiting(db, names[0]);
      }
    }
  }

  ghost predicate Kept(s: State) {
    PushedFirst(s) && AtHome(s.db) && Accounted(s)
  }

  lemma TakeAccounted(s: State, order: seq<int>)
    requires AtHome(s.db) && Accounted(s)
    ensures AtHome(Apply(s, Take(order)).db) && Accounted(Apply(s, Take(order)))
  {
    var s' := Apply(s, Take(order));
    BRPopWaiting(s.db, QueueNames(order));
    forall raw: Raw | raw.Encoded?
      ensures Waiting(s'.db, Home(raw), raw) + s'.taken[raw] == s'.promoted[raw] + s'.put[raw]
    {
      assert Waiting(s.db, Home(raw), raw) + s.taken[raw] == s.promoted[raw] + s.put[raw];
      var got := BRPop(s.db, QueueNames(order)).1;
      assert s'.taken[raw] == s.taken[raw] + if got.Some? then multiset{got.value}[raw] else 0;
    }
  }

  /** A command that leaves the lists and the counts of pushes and pops alone. */
  lemma SameAccounts(s: State, s': State)
    requires AtHome(s.db) && Accounted(s) && s'.db.lists == s.db.lists
    requires s'.taken == s.taken && s'.promoted == s.promoted && s'.put == s.put
    ensures AtHome(s'.db) && Accounted(s')
  {
    assert forall name :: Elements(s'.db, name) == Elements(s.db, name);
    forall raw: Raw | raw.Encoded?
      ensures Waiting(s'.db, Home(raw), raw) + s'.taken[raw] == s'.promoted[raw] + s'.put[raw]
    {
      assert Waiting(s.db, Home(raw), raw) + s.taken[raw] == s.promoted[raw] + s.put[raw];
    }
  }

  lemma PushAccounted(s: State, c: nat, ok: bool)
    requires AtHome(s.db) && Accounted(s) && Enabled(s, Push(c, ok))
    ensures AtHome(Apply(s, Push(c, ok)).db) && Accounted(Apply(s, Push(c, ok)))
  {
    if s.callers[c].todo[0].Encoded? {
      EnqueueWaiting(s.db, s.callers[c].todo[0].job);
    }
  }

  lemma StepAccounted(s: State, a: Action)
    requires AtHome(s.db) && Accounted(s) && Enabled(s, a)
    ensures AtHome(Apply(s, a).db) && Accounted(Apply(s, a))
  {
    if a.Put? {
      EnqueueWaiting(s.db, a.job);
    } else if a.Take? {
      TakeAccounted(s, a.order);
    } else if a.Push? {
      PushAccounted(s, a.c, a.ok);
    } else {
      SameAccounts(s, Apply(s, a));
    }
  }

  lemma {:induction false} RunKept(trace: seq<State>, acts: seq<Action>, i: nat)
    requires IsRun(trace, acts) && i < |trace|
    ensures Kept(trace[i])
  {
    if i == 0 {
      InitTidy(trace[0]);
      assert forall name :: Elements(trace[0].db, name) == [];
    } else {
      RunKept(trace, acts, i - 1);
      StepPushedFirst(trace[i - 1], acts[i - 1]);
      StepAccounted(trace[i - 1], acts[i - 1]);
    }
  }

  /** Whatever interleaves and crashes: as often as an entry has come into the delayed
      set and is gone, it has been pushed, and each time it waits in the active list of
      its priority or has been handed to a worker; a malformed entry never leaves. */
  lemma NothingLost(trace: seq<State>, acts: seq<Action>, i: nat, raw: Raw)
    requires IsRun(trace, acts) && i < |trace|
    ensures var s := trace[i];
            var left := s.added[raw] - Unit(raw in s.db.delayed);
            && 0 <= left <= s.promoted[raw]
            && (raw.Encoded? ==> left + s.put[raw] <= Waiting(s.db, Home(raw), raw) + s.taken[raw])
            && (raw.Malformed? ==> left == 0)
  {
    RunKept(trace, acts, i);
  }

  // --------------------------------------------------------- pushed only once

  /** One pass at a time, no removal fails, and no caller stops between the push of an
      entry and its removal. */
  ghost predicate Careful(s: State, a: Action) {
    match a
    case Scan(_, _, _) => forall c :: c in s.callers ==> s.callers[c].Resting?
    case Remove(_, ok) => ok
    case Crash(c) => c in s.callers ==> !s.callers[c].Pushed?
    case _ => true
  }

  ghost predicate NoRepeats(raws: seq<Raw>) {
    forall i, j :: 0 <= i < j < |raws| ==> raws[i] != raws[j]
  }

  /** What a caller still has to do is still in the delayed set. */
  ghost predicate CallerTidy(delayed: map<Raw, int>, pc: Caller) {
    match pc
    case Resting => true
    case Looping(todo) => NoRepeats(todo) && forall r :: r in todo ==> r in delayed
    case Pushed(raw, todo) =>
      NoRepeats(todo) && raw in delayed && raw !in todo && forall r :: r in todo ==> r in delayed
  }

  ghost predicate Tidy(s: State) {
    && PushedFirst(s)
    && (forall raw :: s.promoted[raw] == s.removed[raw] + InHand(s, raw))
    && (forall c, d :: c in s.callers && d in s.callers && !s.callers[c].Resting? && !s.callers[d].Resting? ==> c == d)
    && (forall c :: c in s.callers ==> CallerTidy(s.db.delayed, s.callers[c]))
  }

  lemma InHandIsDelayed(s: State, raw: Raw)
    requires Tidy(s)
    ensures InHand(s, raw) <= Unit(raw in s.db.delayed)
  {
    if c :| c in s.callers && Holding(raw)(s.callers[c]) {
      CountSplit(s.callers, Holding(raw), c);
      assert Others(s.callers, Holding(raw), c) == {};
      assert CallerTidy(s.db.delayed, s.callers[c]);
    } else {
      CountNone(s.callers, Holding(raw));
    }
  }

  lemma StepPushes(s: State, a: Action)
    requires Tidy(s) && Enabled(s, a) && Careful(s, a)
    ensures forall raw :: Apply(s, a).promoted[raw] == Apply(s, a).removed[raw] + InHand(Apply(s, a), raw)
  {
    forall raw
      ensures Apply(s, a).promoted[raw] == Apply(s, a).removed[raw] + InHand(Apply(s, a), raw)
    {
      StepLogs(s, a, raw);
      StepInHand(s, a, raw);
    }
  }

  /** The caller that moves stays the only one in a pass, and tidy. */
  lemma CallersTidy(s: State, c: nat, pc: Caller, s': State)
    requires Tidy(s) && c in s.callers && s'.callers == s.callers[c := pc] && CallerTidy(s'.db.delayed, pc)
    requires !pc.Resting? ==> !s.callers[c].Resting? || forall d :: d in s.callers ==> s.callers[d].Resting?
    requires s'.db.delayed == s.db.delayed || !s.callers[c].Resting?
    ensures forall d, e ::
              d in s'.callers && e in s'.callers && !s'.callers[d].Resting? && !s'.callers[e].Resting? ==> d == e
    ensures forall d :: d in s'.callers ==> CallerTidy(s'.db.delayed, s'.callers[d])
  {
    forall d | d in s'.callers && d != c
      ensures CallerTidy(s'.db.delayed, s'.callers[d])
    {
      assert s'.callers[d] == s.callers[d] && CallerTidy(s.db.delayed, s.callers[d]);
      assert s.callers[c].Resting? || s.callers[d].Resting?;
    }
  }

  lemma StepCallers(s: State, a: Action)
    requires Tidy(s) && Enabled(s, a) && Careful(s, a) && (a.Scan? || a.Push? || a.Remove? || a.Finish? || a.Crash?)
    ensures var s' := Apply(s, a);
            CallerTidy(s'.db.delayed, s'.callers[a.c])
  {
    assert CallerTidy(s.db.delayed, s.callers[a.c]);
    if a.Push? {
      TailTidy(s.db.delayed, s.callers[a.c].todo);
    }
  }

  lemma TailTidy(delayed: map<Raw, int>, todo: seq<Raw>)
    requires todo != [] && CallerTidy(delayed, Looping(todo))
    ensures CallerTidy(delayed, Looping(todo[1..])) && CallerTidy(delayed, Pushed(todo[0], todo[1..]))
  {
    assert todo == [todo[0]] + todo[1..];
  }

  lemma StepTidy(s: State, a: Action)
    requires Tidy(s) && Enabled(s, a) && Careful(s, a)
    ensures Tidy(Apply(s, a))
  {
    var s' := Apply(s, a);
    StepPushedFirst(s, a);
    StepPushes(s, a);
    if a.Add? || a.Put? || a.Take? {
      if a.Take? {
        BRPopKeeps(s.db, QueueNames(a.order));
      }
    } else {
      StepCallers(s, a);
      CallersTidy(s, a.c, s'.callers[a.c], s');
    }
  }

  lemma {:induction false} RunTidy(trace: seq<State>, acts: seq<Action>, i: nat)
    requires IsRun(trace, acts) && i < |trace|
    requires forall j :: 0 <= j < i ==> Careful(trace[j], acts[j])
    ensures Tidy(trace[i])
  {
    if i == 0 {
      InitTidy(trace[0]);
    } else {
      RunTidy(trace, acts, i - 1);
      StepTidy(trace[i - 1], acts[i - 1]);
    }
  }

  lemma InitTidy(s: State)
    requires Init(s)
    ensures Tidy(s)
  {
    forall raw
      ensures InHand(s, raw) == 0
    {
      CountNone(s.callers, Holding(raw));
    }
  }

  /** In runs of that kind an entry is pushed at most once for every time it comes into
      the delayed set, and exactly once by the time it has left, whatever workers and
      schedulers do meanwhile. */
  lemma PushedOnce(trace: seq<State>, acts: seq<Action>, i: nat, raw: Raw)
    requires IsRun(trace, acts) && i < |trace|
    requires forall j :: 0 <= j < i ==> Careful(trace[j], acts[j])
    ensures trace[i].promoted[raw] <= trace[i].added[raw]
    ensures raw !in trace[i].db.delayed ==> trace[i].promoted[raw] == trace[i].added[raw]
    ensures (forall c :: c in trace[i].callers ==> trace[i].callers[c].Resting?) ==>
              trace[i].promoted[raw] == trace[i].added[raw] - Unit(raw in trace[i].db.delayed)
  {
    RunTidy(trace, acts, i);
    InHandIsDelayed(trace[i], raw);
    if forall c :: c in trace[i].callers ==> trace[i].callers[c].Resting? {
      CountNone(trace[i].callers, Holding(raw));
    }
  }

  // ------------------------------------------ why each of the conditions is needed

  /** The state after a sequence of actions, if each is enabled in its turn. */
  ghost function Play(s: State, acts: seq<Action>): Option<State>
    decreases |acts|
  {
    if acts == [] then Some(s) else if Enabled(s, acts[0]) then Play(Apply(s, acts[0]), acts[1..]) else None
  }

  lemma PlayOne(s: State, a: Action, rest: seq<Action>)
    requires Enabled(s, a)
    ensures Play(s, [a] + rest) == Play(Apply(s, a), rest)
  {
    assert ([a] + rest)[1..] == rest;
  }

  lemma {:induction false} PlayMore(s: State, acts: seq<Action>, rest: seq<Action>)
    requires Play(s, acts).Some?
    ensures Play(s, acts + rest) == Play(Play(s, acts).value, rest)
    decreases |acts|
  {
    if acts == [] {
      assert acts + rest == rest;
    } else {
      assert (acts + rest)[0] == acts[0] && (acts + rest)[1..] == acts[1..] + rest;
      PlayMore(Apply(s, acts[0]), acts[1..], rest);
    }
  }

  /** What a caller still has to push. */
  function Todo(pc: Caller): seq<Raw> {
    if pc.Resting? then [] else pc.todo
  }

  /** How much of its pass a caller still has before it. */
  function Ahead(pc: Caller): nat {
    2 * |Todo(pc)| + if pc.Pushed? then 1 else 0
  }

  /** The next command of a pass, if it succeeds. */
  function Next(c: nat, pc: Caller): Action {
    if pc.Pushed? then Remove(c, true) else Push(c, true)
  }

  /** One command of a pass, short of pushing `raw`. */
  lemma NextStep(s: State, c: nat, raw: Raw)
    requires c in s.callers && raw.Encoded? && raw in Todo(s.callers[c])
    requires s.callers[c].Looping? ==> s.callers[c].todo[0] != raw
    ensures Enabled(s, Next(c, s.callers[c]))
    ensures var s' := Apply(s, Next(c, s.callers[c]));
            && c in s'.callers && s'.callers == s.callers[c := s'.callers[c]] && raw in Todo(s'.callers[c])
            && Ahead(s'.callers[c]) < Ahead(s.callers[c])
            && s'.added == s.added && s'.promoted[raw] == s.promoted[raw]
  {}

  /** A caller that has an entry in its list of things to do may come to push it, with
      every command on the way succeeding. */
  lemma {:induction false} ComesToPush(s: State, c: nat, raw: Raw) returns (acts: seq<Action>, s': State)
    requires c in s.callers && raw.Encoded? && raw in Todo(s.callers[c])
    ensures Play(s, acts) == Some(s') && s'.added == s.added && s'.promoted[raw] == s.promoted[raw] + 1
    ensures c in s'.callers && s'.callers == s.callers[c := s'.callers[c]]
    decreases Ahead(s.callers[c])
  {
    var pc := s.callers[c];
    if pc.Looping? && pc.todo[0] == raw {
      acts, s' := [Push(c, true)] + [], Apply(s, Push(c, true));
      PlayOne(s, Push(c, true), []);
    } else {
      NextStep(s, c, raw);
      var rest;
      rest, s' := ComesToPush(Apply(s, Next(c, pc)), c, raw);
      acts := [Next(c, pc)] + rest;
      PlayOne(s, Next(c, pc), rest);
    }
  }

  /** An entry has been pushed more often than it came into the delayed set. */
  ghost predicate PushedTooOften(s: State, raw: Raw) {
    s.promoted[raw] > s.added[raw]
  }

  /** One pass at a time: wherever two callers have the same entry to push, every command
      may succeed and it is pushed twice, hence more often than it was added. */
  lemma TwoCallersPushTwice(s: State, c: nat, d: nat, raw: Raw) returns (acts: seq<Action>, s': State)
    requires PushedFirst(s) && raw.Encoded? && c in s.callers && d in s.callers && c != d
    requires raw in Todo(s.callers[c]) && raw in Todo(s.callers[d])
    ensures Play(s, acts) == Some(s') && s'.added == s.added
    ensures s'.promoted[raw] == s.promoted[raw] + 2 && PushedTooOften(s', raw)
  {
    var first, s1 := ComesToPush(s, c, raw);
    var second;
    second, s' := ComesToPush(s1, d, raw);
    acts := first + second;
    PlayMore(s, first, second);
    assert s.added[raw] == s.removed[raw] + Unit(raw in s.db.delayed);
    assert s.removed[raw] + InHand(s, raw) <= s.promoted[raw];
  }

  /** Such states are reached whenever two callers scan while the entry is due. */
  lemma BothScan(s: State, c: nat, d: nat, now: Time, reply: seq<Raw>)
    requires c in s.callers && d in s.callers && c != d && s.callers[c].Resting? && s.callers[d].Resting?
    requires RangeByScore(s.db, Unix(now), reply)
    ensures Enabled(s, Scan(c, now, reply))
    ensures var s1 := Apply(s, Scan(c, now, reply));
            && Enabled(s1, Scan(d, now, reply))
            && var s2 := Apply(s1, Scan(d, now, reply));
               c in s2.callers && Todo(s2.callers[c]) == reply && d in s2.callers && Todo(s2.callers[d]) == reply
  {}

  /** One command of a pass, or its end, that does not concern `raw`. */
  lemma RestStep(s: State, c: nat, raw: Raw, a: Action)
    requires c in s.callers && !s.callers[c].Resting? && raw !in s.callers[c].todo
    requires s.callers[c].Pushed? ==> s.callers[c].raw != raw
    requires a == if s.callers[c] == Looping([]) then Finish(c) else Next(c, s.callers[c])
    ensures Enabled(s, a)
    ensures var s' := Apply(s, a);
            && c in s'.callers && s'.callers == s.callers[c := s'.callers[c]] && raw !in Todo(s'.callers[c])
            && (s'.callers[c].Pushed? ==> s'.callers[c].raw != raw)
            && (s'.callers[c].Resting? || Ahead(s'.callers[c]) < Ahead(s.callers[c]))
            && s'.added == s.added && s'.promoted[raw] == s.promoted[raw]
            && (raw in s.db.delayed ==> raw in s'.db.delayed && s'.db.delayed[raw] == s.db.delayed[raw])
  {}

  /** A caller may finish its pass, with every command succeeding. */
  lemma {:induction false} ComesToRest(s: State, c: nat, raw: Raw) returns (acts: seq<Action>, s': State)
    requires c in s.callers && raw in s.db.delayed && raw !in Todo(s.callers[c])
    requires s.callers[c].Pushed? ==> s.callers[c].raw != raw
    ensures Play(s, acts) == Some(s') && s'.added == s.added && s'.promoted[raw] == s.promoted[raw]
    ensures c in s'.callers && s'.callers[c].Resting?
    ensures raw in s'.db.delayed && s'.db.delayed[raw] == s.db.delayed[raw]
    decreases if s.callers[c].Resting? then 0 else 1 + Ahead(s.callers[c])
  {
    var pc := s.callers[c];
    if pc.Resting? {
      acts, s' := [], s;
    } else {
      var a := if pc == Looping([]) then Finish(c) else Next(c, pc);
      RestStep(s, c, raw, a);
      var rest;
      rest, s' := ComesToRest(Apply(s, a), c, raw);
      acts := [a] + rest;
      PlayOne(s, a, rest);
    }
  }

  /** Sorting the members of a set by score. */
  function Inserted(scores: map<Raw, int>, sorted: seq<Raw>, raw: Raw): (r: seq<Raw>)
    requires raw in scores && forall x :: x in sorted ==> x in scores
    ensures forall x :: x in r <==> x in sorted || x == raw
  {
    if sorted == [] || scores[raw] <= scores[sorted[0]] then [raw] + sorted
    else [sorted[0]] + Inserted(scores, sorted[1..], raw)
  }

  ghost predicate Sorted(scores: map<Raw, int>, raws: seq<Raw>)
    requires forall x :: x in raws ==> x in scores
  {
    NoRepeats(raws) && forall i, j :: 0 <= i < j < |raws| ==> scores[raws[i]] <= scores[raws[j]]
  }

  lemma {:induction false} InsertedSorted(scores: map<Raw, int>, sorted: seq<Raw>, raw: Raw)
    requires raw in scores && raw !in sorted && (forall x :: x in sorted ==> x in scores) && Sorted(scores, sorted)
    ensures Sorted(scores, Inserted(scores, sorted, raw))
  {
    if sorted != [] && scores[raw] > scores[sorted[0]] {
      var rest := Inserted(scores, sorted[1..], raw);
      InsertedSorted(scores, sorted[1..], raw);
      forall i | 0 <= i < |rest|
        ensures rest[i] != sorted[0] && scores[sorted[0]] <= scores[rest[i]]
      {
        assert rest[i] in rest;
      }
    }
  }

  /** The server has a reply for every range. */
  lemma {:induction false} SomeReply(scores: map<Raw, int>, max: int) returns (reply: seq<Raw>)
    ensures forall raw :: raw in reply <==> raw in scores && 0 <= scores[raw] <= max
    ensures Sorted(scores, reply)
    decreases |scores|
  {
    reply := [];
    if |scores| != 0 {
      var raw := Pick(scores);
      Shrinks(scores, raw);
      reply := SomeReply(scores - {raw}, max);
      if 0 <= scores[raw] <= max {
        InsertedSorted(scores, reply, raw);
        reply := Inserted(scores, reply, raw);
      }
    }
  }

  /** A caller between passes may come to push any entry that is delayed and can be due. */
  lemma MayPush(s: State, c: nat, raw: Raw) returns (acts: seq<Action>, s': State)
    requires c in s.callers && s.callers[c].Resting? && raw.Encoded?
    requires raw in s.db.delayed && s.db.delayed[raw] >= 0
    ensures Play(s, acts) == Some(s') && s'.added == s.added && s'.promoted[raw] == s.promoted[raw] + 1
  {
    var now := s.db.delayed[raw] * NANOS_PER_SECOND;
    assert Unix(now) == s.db.delayed[raw];
    var reply := SomeReply(s.db.delayed, Unix(now));
    var a := Scan(c, now, reply);
    assert Enabled(s, a);
    var rest;
    rest, s' := ComesToPush(Apply(s, a), c, raw);
    acts := [a] + rest;
    PlayOne(s, a, rest);
  }

  /** The second and third condition: wherever a caller has pushed an entry and then its
      removal fails or the caller stops, the caller may go on, with every later command
      succeeding, and push the entry again in its next pass: more often than it was added. */
  lemma NotRemovedPushedAgain(s: State, c: nat, a: Action) returns (acts: seq<Action>, s': State)
    requires PushedFirst(s) && c in s.callers && s.callers[c].Pushed? && (a == Remove(c, false) || a == Crash(c))
    requires var raw := s.callers[c].raw;
             raw in s.db.delayed && s.db.delayed[raw] >= 0 && raw !in s.callers[c].todo
    ensures Play(s, [a] + acts) == Some(s') && s'.added == s.added
    ensures var raw := s.callers[c].raw;
            s'.promoted[raw] == s.promoted[raw] + 1 && PushedTooOften(s', raw)
  {
    var raw := s.callers[c].raw;
    var s1 := Apply(s, a);
    var rest, s2 := ComesToRest(s1, c, raw);
    var again;
    again, s' := MayPush(s2, c, raw);
    acts := rest + again;
    PlayMore(s1, rest, again);
    PlayOne(s, a, acts);
    HandHolds(s, c);
    assert s.added[raw] == s.removed[raw] + Unit(raw in s.db.delayed);
    assert s.removed[raw] + InHand(s, raw) <= s.promoted[raw];
  }

  lemma HandHolds(s: State, c: nat)
    requires c in s.callers && s.callers[c].Pushed?
    ensures InHand(s, s.callers[c].raw) >= 1
  {
    CountSplit(s.callers, Holding(s.callers[c].raw), c);
  }
}
