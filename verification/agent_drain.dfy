// Draining the one tagged queue is the same as draining two separate FIFO queues.
module AgentDrain {
  import opened Common
  import opened AgentState
  import opened AgentInvariants

  // ---------------------------------------------------------------- the reference: one FIFO queue

  datatype Fifo = Fifo(started: seq<Entry>, rest: seq<Entry>)

  /** A start that fails its directory check takes no slot and leaves the record queued. */
  predicate FailsAtOnce(e: Entry, bad: set<AgentId>) {
    e.kind == SpawnEntry && e.id in bad
  }

  /** Drain a plain FIFO queue from the front while there is room (`None` = unlimited). */
  function FifoDrain(q: seq<Entry>, live: set<AgentId>, room: Option<int>, bad: set<AgentId>): Fifo {
    if q == [] || (room.Some? && room.value <= 0) then Fifo([], q)
    else if q[0].id !in live then FifoDrain(q[1..], live, room, bad)
    else
      var failed := FailsAtOnce(q[0], bad);
      var next := FifoDrain(q[1..],
                            if failed then live else live - {q[0].id},
                            if failed || room.None? then room else Some(room.value - 1),
                            bad);
      Fifo([q[0]] + next.started, next.rest)
  }

  function OfPool(q: seq<Entry>, pool: Pool): seq<Entry> {
    if q == [] then []
    else (if q[0].pool == pool then [q[0]] else []) + OfPool(q[1..], pool)
  }

  function RoomOf(s: State, pool: Pool): Option<int> {
    match pool
    case Background => Some(s.maxConcurrent - s.runningBackground)
    case Foreground =>
      if s.maxConcurrentForeground == 0 then None
      else Some(s.maxConcurrentForeground - s.runningForeground)
  }

  ghost function LiveIds(s: State): set<AgentId> {
    set id | id in s.agents && IsLive(s, id)
  }

  /** The entries a drain starts, in the order it starts them. */
  function DrainStarts(s: State, env: Env): seq<Entry>
    decreases |s.queue|
  {
    var i := FirstWithRoom(s, s.queue);
    if i == |s.queue| then []
    else (if IsLive(s, s.queue[i].id) then [s.queue[i]] else []) + DrainStarts(Take(s, i, env), env)
  }

  // ---------------------------------------------------------------- filtering

  lemma {:induction false} OfPoolConcat(a: seq<Entry>, b: seq<Entry>, pool: Pool)
    ensures OfPool(a + b, pool) == OfPool(a, pool) + OfPool(b, pool)
  {
    if a == [] {
      assert a + b == b;
    } else {
      assert (a + b)[1..] == a[1..] + b;
      OfPoolConcat(a[1..], b, pool);
    }
  }

  lemma {:induction false} OfPoolMembers(q: seq<Entry>, pool: Pool)
    ensures forall e :: e in OfPool(q, pool) <==> e in q && e.pool == pool
  {
    if q != [] {
      OfPoolMembers(q[1..], pool);
      assert q == [q[0]] + q[1..];
    }
  }

  lemma OfPoolSplit(q: seq<Entry>, i: nat, pool: Pool)
    requires i < |q|
    ensures OfPool(q, pool) == OfPool(q[..i], pool) + (if q[i].pool == pool then [q[i]] else []) + OfPool(q[i + 1..], pool)
    ensures OfPool(RemoveAt(q, i), pool) == OfPool(q[..i], pool) + OfPool(q[i + 1..], pool)
  {
    assert q == q[..i] + ([q[i]] + q[i + 1..]);
    OfPoolConcat(q[..i], [q[i]] + q[i + 1..], pool);
    OfPoolConcat([q[i]], q[i + 1..], pool);
    OfPoolConcat(q[..i], q[i + 1..], pool);
  }

  lemma {:induction false} OfPoolEmpty(q: seq<Entry>, pool: Pool)
    requires forall e :: e in q ==> e.pool != pool
    ensures OfPool(q, pool) == []
  {
    if q != [] {
      assert q[0] in q;
      OfPoolEmpty(q[1..], pool);
    }
  }

  // ---------------------------------------------------------------- one turn of the loop

  /** A FIFO drain depends on the liveness of its own entries only. */
  lemma {:induction false} FifoFrame(q: seq<Entry>, live: set<AgentId>, other: set<AgentId>, room: Option<int>, bad: set<AgentId>)
    requires forall e :: e in q ==> (e.id in live <==> e.id in other)
    ensures FifoDrain(q, live, room, bad) == FifoDrain(q, other, room, bad)
  {
    if q == [] || (room.Some? && room.value <= 0) {
    } else if q[0].id !in live {
      FifoFrame(q[1..], live, other, room, bad);
    } else {
      var failed := FailsAtOnce(q[0], bad);
      var nextRoom := if failed || room.None? then room else Some(room.value - 1);
      if failed {
        FifoFrame(q[1..], live, other, nextRoom, bad);
      } else {
        FifoFrame(q[1..], live - {q[0].id}, other - {q[0].id}, nextRoom, bad);
      }
    }
  }

  ghost predicate OneFewer(s: State, r: State, id: AgentId, pool: Pool) {
    && LiveIds(r) == LiveIds(s) - {id}
    && (forall p :: RoomOf(r, p) ==
          if p == pool && RoomOf(s, p).Some? then Some(RoomOf(s, p).value - 1) else RoomOf(s, p))
  }

  /** Starting a live spawn entry uses up its record and one slot of its own pool. */
  lemma StartAgentEffect(s: State, e: Entry, env: Env)
    requires e.id in s.records && s.records[e.id].IsTopLevel() && s.maxConcurrentForeground >= 0
    requires e.pool == Background ==> s.records[e.id].isBackground
    requires e.pool == Foreground ==> s.records[e.id].blocking && !s.records[e.id].isBackground
    ensures e.id in env.badCwd ==>
              var r := StartAgent(s, e.id, FromQueue(e.pool, e.ticket), env);
              LiveIds(r) == LiveIds(s) && forall p :: RoomOf(r, p) == RoomOf(s, p)
    ensures e.id !in env.badCwd ==> OneFewer(s, StartAgent(s, e.id, FromQueue(e.pool, e.ticket), env), e.id, e.pool)
  {
    if e.id !in env.badCwd {
      var pool := PoolFor(s, s.records[e.id]);
      var started := Charge(WithStatus(s, e.id, Running), pool);
      assert LiveIds(started) == LiveIds(s) - {e.id};
      assert OneFewer(s, started, e.id, e.pool);
      if s.records[e.id].isolated && env.worktrees {
      } else {
        var run := BeginRun(started, e.id, pool, env);
        assert LiveIds(run) == LiveIds(started);
      }
    } else {
      assert LiveIds(StartAgent(s, e.id, FromQueue(e.pool, e.ticket), env)) == LiveIds(s);
    }
  }

  lemma StartResumeEffect(s: State, id: AgentId, ticket: Ticket)
    requires id in s.records && s.records[id].OccupiesPoolSlot() && s.records[id].hasSession
    ensures OneFewer(s, AddTask(StartResume(s, id), ReleasePending(ticket)), id, Background)
  {
    var r := AddTask(StartResume(s, id), ReleasePending(ticket));
    assert LiveIds(r) == LiveIds(s) - {id};
  }

  lemma PoppedEffect(s: State, popped: State, r: State, id: AgentId, pool: Pool)
    requires popped == s.(queue := popped.queue)
    ensures LiveIds(popped) == LiveIds(s)
    ensures OneFewer(popped, r, id, pool) ==> OneFewer(s, r, id, pool)
  {
    assert LiveIds(popped) == LiveIds(s);
    assert forall p :: RoomOf(popped, p) == RoomOf(s, p);
  }

  /** What one turn of the loop does to room and liveness. */
  lemma TakeEffect(s: State, i: nat, env: Env)
    requires Sound(s) && i < |s.queue|
    ensures var e, r := s.queue[i], Take(s, i, env);
            if IsLive(s, e.id) && !FailsAtOnce(e, env.badCwd) then OneFewer(s, r, e.id, e.pool)
            else LiveIds(r) == LiveIds(s) && forall p :: RoomOf(r, p) == RoomOf(s, p)
  {
    var e := s.queue[i];
    var popped := s.(queue := RemoveAt(s.queue, i));
    PopKeepsSound(s, i);
    hide TicketsLoose, CountersMatch, TasksSound, QueueSound;
    PoppedEffect(s, popped, Take(s, i, env), e.id, e.pool);
    if IsLive(s, e.id) {
      hide OneFewer, StartAgent, StartResume;
      match e.kind
      case SpawnEntry => StartAgentEffect(popped, e, env);
      case ResumeEntry => StartResumeEffect(popped, e.id, e.ticket);
    } else {
      assert LiveIds(Release(popped, e.ticket)) == LiveIds(popped);
    }
  }

  lemma PoolsShareNoAgent(s: State, e: Entry, f: Entry)
    requires Sound(s) && e in s.queue && f in s.queue && e.pool != f.pool
    ensures e.id != f.id
  {
    hide TicketsLoose, CountersMatch, TasksSound;
    var i :| 0 <= i < |s.queue| && s.queue[i] == e;
    var j :| 0 <= j < |s.queue| && s.queue[j] == f;
    assert i != j;
    if i < j {
      assert e.id == f.id ==> e.kind == ResumeEntry && f.kind == ResumeEntry;
    } else {
      assert e.id == f.id ==> e.kind == ResumeEntry && f.kind == ResumeEntry;
    }
  }

  /** The reference FIFO drain of one pool's entries in state `s`. */
  ghost function Reference(s: State, pool: Pool, env: Env): Fifo {
    FifoDrain(OfPool(s.queue, pool), LiveIds(s), RoomOf(s, pool), env.badCwd)
  }

  lemma FirstOfItsPool(s: State, i: nat)
    requires i < |s.queue| && i == FirstWithRoom(s, s.queue)
    ensures OfPool(s.queue, s.queue[i].pool) == [s.queue[i]] + OfPool(RemoveAt(s.queue, i), s.queue[i].pool)
  {
    var e := s.queue[i];
    OfPoolSplit(s.queue, i, e.pool);
    forall f | f in s.queue[..i]
      ensures f.pool != e.pool
    {
      var j :| 0 <= j < i && s.queue[..i][j] == f;
      assert s.queue[j] == f;
    }
    OfPoolEmpty(s.queue[..i], e.pool);
  }

  lemma TakeOwnPool(s: State, i: nat, env: Env)
    requires Sound(s) && i < |s.queue| && i == FirstWithRoom(s, s.queue)
    ensures var e := s.queue[i];
            var after := Reference(Take(s, i, env), e.pool, env);
            Reference(s, e.pool, env) == Fifo((if IsLive(s, e.id) then [e] else []) + after.started, after.rest)
  {
    hide Sound, Take;
    var e := s.queue[i];
    TakeEffect(s, i, env);
    TakePops(s, i, env);
    FirstOfItsPool(s, i);
    var tail := OfPool(RemoveAt(s.queue, i), e.pool);
    assert OfPool(s.queue, e.pool)[1..] == tail;
    assert IsLive(s, e.id) <==> e.id in LiveIds(s);
    assert HasRoom(s, e.pool);
  }

  lemma TakePops(s: State, i: nat, env: Env)
    requires i < |s.queue|
    ensures Take(s, i, env).queue == RemoveAt(s.queue, i)
  {
  }

  lemma OtherPoolAgents(s: State, i: nat, pool: Pool)
    requires Sound(s) && i < |s.queue| && pool != s.queue[i].pool
    ensures forall f :: f in OfPool(s.queue, pool) ==> f.id != s.queue[i].id
  {
    hide Sound;
    OfPoolMembers(s.queue, pool);
    forall f | f in OfPool(s.queue, pool)
      ensures f.id != s.queue[i].id
    {
      PoolsShareNoAgent(s, s.queue[i], f);
    }
  }

  lemma TakeOtherPool(s: State, i: nat, env: Env, pool: Pool)
    requires Sound(s) && i < |s.queue| && pool != s.queue[i].pool
    ensures Reference(Take(s, i, env), pool, env) == Reference(s, pool, env)
  {
    assert Take(s, i, env).queue == RemoveAt(s.queue, i);
    hide Sound, Take;
    TakeEffect(s, i, env);
    OfPoolSplit(s.queue, i, pool);
    assert OfPool(s.queue[..i], pool) + [] == OfPool(s.queue[..i], pool);
    OtherPoolAgents(s, i, pool);
    FifoFrame(OfPool(s.queue, pool), LiveIds(s), LiveIds(Take(s, i, env)), RoomOf(s, pool), env.badCwd);
  }

  /** Main result: per pool, the drain of the tagged queue is the drain of a FIFO queue of its own. */
  lemma {:induction false} DrainRefinesTwoFifos(s: State, env: Env, pool: Pool)
    requires Sound(s)
    ensures OfPool(Drain(s, env).queue, pool) == Reference(s, pool, env).rest
    ensures OfPool(DrainStarts(s, env), pool) == Reference(s, pool, env).started
    decreases |s.queue|
  {
    var i := FirstWithRoom(s, s.queue);
    if i == |s.queue| {
      OfPoolMembers(s.queue, pool);
      if OfPool(s.queue, pool) != [] {
        var f := OfPool(s.queue, pool)[0];
        assert f in OfPool(s.queue, pool);
        var j :| 0 <= j < |s.queue| && s.queue[j] == f;
        assert !HasRoom(s, pool);
      }
    } else {
      hide Reference, Sound;
      var e := s.queue[i];
      var head := if IsLive(s, e.id) then [e] else [];
      TakeKeepsSound(s, i, env);
      DrainRefinesTwoFifos(Take(s, i, env), env, pool);
      OfPoolConcat(head, DrainStarts(Take(s, i, env), env), pool);
      if pool == e.pool {
        TakeOwnPool(s, i, env);
        assert OfPool(head, pool) == head;
      } else {
        TakeOtherPool(s, i, env, pool);
        assert OfPool(head, pool) == [];
      }
    }
  }

  // ---------------------------------------------------------------- what a FIFO drain does

  /** Every non-stale entry, in order: what would start if there were no limit. */
  function LiveEntries(q: seq<Entry>, live: set<AgentId>): seq<Entry> {
    if q == [] then []
    else if q[0].id !in live then LiveEntries(q[1..], live)
    else [q[0]] + LiveEntries(q[1..], live - {q[0].id})
  }

  /** With `room` slots it starts exactly the first min(room, live) non-stale entries. */
  lemma {:induction false} FifoStartsTheFirst(q: seq<Entry>, live: set<AgentId>, room: int)
    ensures var n := Min(Max(room, 0), |LiveEntries(q, live)|);
            && FifoDrain(q, live, Some(room), {}).started == LiveEntries(q, live)[..n]
            && |FifoDrain(q, live, Some(room), {}).started| == n
    ensures FifoDrain(q, live, None, {}).started == LiveEntries(q, live)
  {
    if q == [] {
    } else if q[0].id !in live {
      FifoStartsTheFirst(q[1..], live, room);
    } else {
      FifoStartsTheFirst(q[1..], live - {q[0].id}, room - 1);
      var all := LiveEntries(q[1..], live - {q[0].id});
      if room > 0 {
        var n := Min(room - 1, |all|);
        assert ([q[0]] + all)[..n + 1] == [q[0]] + all[..n];
      }
    }
  }

  /** It takes a prefix of the queue, and stops before the end only when the room is used up. */
  lemma {:induction false} FifoTakesAPrefix(q: seq<Entry>, live: set<AgentId>, room: Option<int>, bad: set<AgentId>)
    ensures var f := FifoDrain(q, live, room, bad);
            && |f.rest| <= |q| && f.rest == q[|q| - |f.rest|..]
            && (forall e :: e in f.started ==> e in q)
            && (f.rest != [] ==> room.Some?)
    ensures bad == {} && room.Some? && FifoDrain(q, live, room, bad).rest != [] ==>
              |FifoDrain(q, live, room, bad).started| == Max(room.value, 0)
  {
    if q == [] || (room.Some? && room.value <= 0) {
      assert q[0..] == q;
    } else if q[0].id !in live {
      FifoTakesAPrefix(q[1..], live, room, bad);
    } else {
      var failed := FailsAtOnce(q[0], bad);
      FifoTakesAPrefix(q[1..], if failed then live else live - {q[0].id},
                       if failed || room.None? then room else Some(room.value - 1), bad);
    }
  }

  /** Both together: a drain in which no directory check fails starts, per pool, the first
      min(room, live) non-stale entries of that pool. */
  lemma DrainStartsTheFirst(s: State, env: Env, pool: Pool)
    requires Sound(s) && env.badCwd == {}
    ensures var waiting := LiveEntries(OfPool(s.queue, pool), LiveIds(s));
            var room := RoomOf(s, pool);
            OfPool(DrainStarts(s, env), pool) ==
              if room.None? then waiting else waiting[..Min(Max(room.value, 0), |waiting|)]
  {
    DrainRefinesTwoFifos(s, env, pool);
    var room := RoomOf(s, pool);
    FifoStartsTheFirst(OfPool(s.queue, pool), LiveIds(s), if room.Some? then room.value else 0);
  }

  // ---------------------------------------------------------------- limits

  /** Neither pool runs more agents than its limit. */
  ghost predicate WithinLimits(s: State) {
    && s.runningBackground <= s.maxConcurrent
    && (s.maxConcurrentForeground == 0 || s.runningForeground <= s.maxConcurrentForeground)
  }

  lemma TakeStaysWithin(s: State, i: nat, env: Env)
    requires Sound(s) && WithinLimits(s) && i < |s.queue| && HasRoom(s, s.queue[i].pool)
    ensures WithinLimits(Take(s, i, env))
  {
    TakeEffect(s, i, env);
    hide Sound, Take;
    var r := Take(s, i, env);
    assert RoomOf(r, Background).value >= 0;
    assert RoomOf(r, Foreground).Some? ==> RoomOf(r, Foreground).value >= 0;
  }

  lemma {:induction false} DrainStaysWithin(s: State, env: Env)
    requires Sound(s) && WithinLimits(s)
    ensures WithinLimits(Drain(s, env))
    decreases |s.queue|
  {
    hide Sound, WithinLimits;
    var i := FirstWithRoom(s, s.queue);
    if i < |s.queue| {
      TakeKeepsSound(s, i, env);
      TakeStaysWithin(s, i, env);
      DrainStaysWithin(Take(s, i, env), env);
    }
  }

  /** A drain keeps the state sound and within its limits, and leaves no entry whose pool has room. */
  lemma DrainKeepsAll(s: State, env: Env)
    requires Sound(s)
    ensures Sound(Drain(s, env)) && NoEntryHasRoom(Drain(s, env))
    ensures WithinLimits(s) ==> WithinLimits(Drain(s, env))
  {
    hide Sound, WithinLimits;
    DrainKeepsInv(s, env);
    if WithinLimits(s) {
      DrainStaysWithin(s, env);
    }
  }
}
