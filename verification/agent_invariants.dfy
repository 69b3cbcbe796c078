// What every step of the subagent manager keeps.
module AgentInvariants {
  import opened Common
  import opened AgentState

  /** In-flight continuations that hold a slot of `pool`. */
  ghost function ChargedTo(tasks: map<TaskKey, Task>, pool: Pool): set<TaskKey> {
    set k | k in tasks && ChargeOf(tasks[k]) == Some(pool)
  }

  /** Each counter is the number of in-flight runs charged to its pool at start. */
  ghost predicate CountersMatch(tasks: map<TaskKey, Task>, runningBackground: int, runningForeground: int) {
    && runningBackground == |ChargedTo(tasks, Background)|
    && runningForeground == |ChargedTo(tasks, Foreground)|
  }

  ghost predicate TaskSound(records: map<AgentId, Record>, t: Task) {
    && (AgentOf(t).Some? ==> AgentOf(t).value in records)
    && (t.BackgroundResume? ==> records[t.id].isBackground && t.charged == records[t.id].IsTopLevel())
  }

  ghost predicate TasksSound(tasks: map<TaskKey, Task>, nextTask: TaskKey, records: map<AgentId, Record>,
                             agents: set<AgentId>)
  {
    && agents <= records.Keys
    && forall k :: k in tasks ==> k < nextTask && TaskSound(records, tasks[k])
  }

  ghost predicate Untouched(tasks: map<TaskKey, Task>, id: AgentId) {
    forall k :: k in tasks ==> AgentOf(tasks[k]) != Some(id)
  }

  /** Only top-level agents wait, each in the pool its record belongs to. */
  ghost predicate EntrySound(records: map<AgentId, Record>, agents: set<AgentId>, tasks: map<TaskKey, Task>, e: Entry)
  {
    && e.id in records
    && records[e.id].IsTopLevel()
    && (e.pool == Background ==> records[e.id].isBackground)
    && (e.pool == Foreground ==> e.kind == SpawnEntry && records[e.id].blocking && !records[e.id].isBackground)
    && (e.kind == SpawnEntry ==>
          e.id in agents && records[e.id].status == Queued && !records[e.id].hasSession && Untouched(tasks, e.id))
    && (e.kind == ResumeEntry && e.id in agents ==> records[e.id].hasSession)
  }

  ghost predicate QueueSound(queue: seq<Entry>, records: map<AgentId, Record>, agents: set<AgentId>,
                             tasks: map<TaskKey, Task>)
  {
    && (forall e :: e in queue ==> EntrySound(records, agents, tasks, e))
    && (forall i, j :: 0 <= i < j < |queue| && queue[i].id == queue[j].id ==>
          queue[i].kind == ResumeEntry && queue[j].kind == ResumeEntry)
  }

  ghost function Tickets(q: seq<Entry>): set<Ticket> {
    set i | 0 <= i < |q| :: q[i].ticket
  }

  ghost predicate DistinctTickets(q: seq<Entry>) {
    forall i, j :: 0 <= i < j < |q| ==> q[i].ticket != q[j].ticket
  }

  /** Release callbacks, while the ones in `loose` are between the queue and a startup. */
  ghost predicate TicketsLoose(queue: seq<Entry>, tasks: map<TaskKey, Task>, places: map<Ticket, Place>,
                               nextTicket: Ticket, released: seq<Ticket>, loose: set<Ticket>)
  {
    && (forall t: Ticket :: t in places <==> t < nextTicket)
    && (forall t :: t in places && places[t] == InQueue <==> t in Tickets(queue) || t in loose)
    && DistinctTickets(queue)
    && Tickets(queue) !! loose
    && (forall k :: k in tasks && TicketOf(tasks[k]).Some? ==>
          TicketOf(tasks[k]).value in places && places[TicketOf(tasks[k]).value] == Settling(k))
    && (forall t :: t in places && places[t].Settling? ==>
          places[t].key in tasks && TicketOf(tasks[places[t].key]) == Some(t))
    && (forall t :: t in released <==> t in places && places[t] == Released)
    && NoDuplicates(released)
  }

  /** Every release callback is in the queue, with a settling start, or called; never twice. */
  ghost predicate TicketsTracked(s: State) {
    TicketsLoose(s.queue, s.tasks, s.places, s.nextTicket, s.released, {})
  }

  /** The part of the invariant that also holds in the middle of a drain. */
  ghost predicate SoundLoose(s: State, loose: set<Ticket>) {
    && CountersMatch(s.tasks, s.runningBackground, s.runningForeground)
    && TasksSound(s.tasks, s.nextTask, s.records, s.agents)
    && QueueSound(s.queue, s.records, s.agents, s.tasks)
    && TicketsLoose(s.queue, s.tasks, s.places, s.nextTicket, s.released, loose)
    && s.maxConcurrentForeground >= 0
  }

  ghost predicate Sound(s: State) {
    SoundLoose(s, {})
  }

  /** A startup that failed, has handed back any slot it held, and has yet to drain. */
  predicate OwesDrain(t: Task) {
    t.DiscardingCopy? || t.StartupRejected?
  }

  ghost predicate DrainOwed(s: State) {
    exists k :: k in s.tasks && OwesDrain(s.tasks[k])
  }

  ghost predicate NoEntryHasRoom(s: State) {
    forall i :: 0 <= i < |s.queue| ==> !HasRoom(s, s.queue[i].pool)
  }

  ghost predicate Inv(s: State) {
    Sound(s) && (NoEntryHasRoom(s) || DrainOwed(s))
  }

  // ---------------------------------------------------------------- counting

  lemma ChargedAfterPut(tasks: map<TaskKey, Task>, k: TaskKey, t: Task, pool: Pool)
    requires k !in tasks
    ensures |ChargedTo(tasks[k := t], pool)| ==
            |ChargedTo(tasks, pool)| + (if ChargeOf(t) == Some(pool) then 1 else 0)
  {
    var was := ChargedTo(tasks, pool);
    if ChargeOf(t) == Some(pool) {
      assert ChargedTo(tasks[k := t], pool) == was + {k};
    } else {
      assert ChargedTo(tasks[k := t], pool) == was;
    }
  }

  lemma ChargedAfterDrop(tasks: map<TaskKey, Task>, k: TaskKey, pool: Pool)
    requires k in tasks
    ensures |ChargedTo(tasks - {k}, pool)| ==
            |ChargedTo(tasks, pool)| - (if ChargeOf(tasks[k]) == Some(pool) then 1 else 0)
  {
    var was := ChargedTo(tasks, pool);
    if ChargeOf(tasks[k]) == Some(pool) {
      assert ChargedTo(tasks - {k}, pool) == was - {k};
    } else {
      assert ChargedTo(tasks - {k}, pool) == was;
    }
  }

  lemma ChargedAfterSwap(tasks: map<TaskKey, Task>, k: TaskKey, t: Task, pool: Pool)
    requires k in tasks
    ensures |ChargedTo(tasks[k := t], pool)| ==
            |ChargedTo(tasks, pool)| - (if ChargeOf(tasks[k]) == Some(pool) then 1 else 0)
                                     + (if ChargeOf(t) == Some(pool) then 1 else 0)
  {
    ChargedAfterDrop(tasks, k, pool);
    ChargedAfterPut(tasks - {k}, k, t, pool);
    assert (tasks - {k})[k := t] == tasks[k := t];
  }

  /** Taking a slot and suspending the continuation that holds it. */
  lemma CountersAfterTask(s: State, t: Task)
    requires CountersMatch(s.tasks, s.runningBackground, s.runningForeground) && s.nextTask !in s.tasks
    ensures var r := AddTask(Charge(s, ChargeOf(t)), t);
            CountersMatch(r.tasks, r.runningBackground, r.runningForeground)
  {
    ChargedAfterPut(s.tasks, s.nextTask, t, Background);
    ChargedAfterPut(s.tasks, s.nextTask, t, Foreground);
  }

  /** A continuation that gives up its slot, kept as `t` (which holds none of its own). */
  lemma CountersAfterSwap(s: State, k: TaskKey, t: Task)
    requires CountersMatch(s.tasks, s.runningBackground, s.runningForeground) && k in s.tasks
    requires ChargeOf(t).None?
    ensures var r := ReplaceTask(Discharge(s, ChargeOf(s.tasks[k])), k, t);
            CountersMatch(r.tasks, r.runningBackground, r.runningForeground)
  {
    ChargedAfterSwap(s.tasks, k, t, Background);
    ChargedAfterSwap(s.tasks, k, t, Foreground);
  }

  lemma CountersAfterRemove(s: State, k: TaskKey)
    requires CountersMatch(s.tasks, s.runningBackground, s.runningForeground) && k in s.tasks
    ensures var r := Discharge(RemoveTask(s, k), ChargeOf(s.tasks[k]));
            CountersMatch(r.tasks, r.runningBackground, r.runningForeground)
  {
    ChargedAfterDrop(s.tasks, k, Background);
    ChargedAfterDrop(s.tasks, k, Foreground);
  }

  // ---------------------------------------------------------------- releases

  lemma TicketsOfRemaining(q: seq<Entry>, i: nat)
    requires DistinctTickets(q) && i < |q|
    ensures DistinctTickets(RemoveAt(q, i))
    ensures Tickets(RemoveAt(q, i)) == Tickets(q) - {q[i].ticket}
  {
    var r := RemoveAt(q, i);
    assert forall j :: 0 <= j < |r| ==> r[j] == q[if j < i then j else j + 1];
    forall u | u in Tickets(q) && u != q[i].ticket
      ensures u in Tickets(r)
    {
      var j :| 0 <= j < |q| && q[j].ticket == u;
      assert r[if j < i then j else j - 1].ticket == u;
    }
  }

  lemma TicketsAfterPop(s: State, i: nat)
    requires TicketsTracked(s) && i < |s.queue|
    ensures TicketsLoose(RemoveAt(s.queue, i), s.tasks, s.places, s.nextTicket, s.released, {s.queue[i].ticket})
  {
    TicketsOfRemaining(s.queue, i);
    assert s.queue[i].ticket in Tickets(s.queue);
  }

  lemma TicketsAfterRelease(s: State, t: Ticket)
    requires TicketsLoose(s.queue, s.tasks, s.places, s.nextTicket, s.released, {t})
    ensures TicketsTracked(Release(s, t))
  {
    assert t in s.places && s.places[t] == InQueue;
  }

  /** A startup taken from the queue now owes the release. */
  lemma TicketsAfterStart(s: State, t: Task)
    requires TicketOf(t).Some? && s.nextTask !in s.tasks
    requires TicketsLoose(s.queue, s.tasks, s.places, s.nextTicket, s.released, {TicketOf(t).value})
    ensures TicketsTracked(AddTask(s, t))
  {
    assert TicketOf(t).value in s.places;
  }

  lemma TicketsAfterPlainTask(s: State, t: Task, loose: set<Ticket>)
    requires TicketsLoose(s.queue, s.tasks, s.places, s.nextTicket, s.released, loose)
    requires TicketOf(t).None? && s.nextTask !in s.tasks
    ensures var r := AddTask(s, t);
            TicketsLoose(r.queue, r.tasks, r.places, r.nextTicket, r.released, loose)
  {
  }

  lemma TicketsAfterEnqueue(s: State, id: AgentId, pool: Pool, kind: EntryKind)
    requires TicketsTracked(s)
    ensures TicketsTracked(Enqueue(s, id, pool, kind))
  {
    var q := s.queue + [Entry(id, pool, kind, s.nextTicket)];
    assert forall i :: 0 <= i < |s.queue| ==> q[i] == s.queue[i];
    assert q[|s.queue|].ticket == s.nextTicket;
    assert Tickets(q) == Tickets(s.queue) + {s.nextTicket};
    forall t | t in Tickets(s.queue)
      ensures t != s.nextTicket
    {
      assert t in s.places;
    }
  }

  lemma {:induction false} PickedMeaning(q: seq<Entry>, pick: Pick, t: Ticket)
    ensures t in PickedTickets(q, pick) <==> exists e :: e in q && e.ticket == t && Picks(pick, e)
  {
    if q != [] {
      PickedMeaning(q[..|q| - 1], pick, t);
      assert q == q[..|q| - 1] + [q[|q| - 1]];
      assert forall e :: e in q <==> e in q[..|q| - 1] || e == q[|q| - 1];
    }
  }

  lemma {:induction false} KeptMeaning(q: seq<Entry>, pick: Pick)
    ensures forall e :: e in Kept(q, pick) <==> e in q && !Picks(pick, e)
  {
    if q != [] {
      KeptMeaning(q[..|q| - 1], pick);
      assert q == q[..|q| - 1] + [q[|q| - 1]];
      assert forall e :: e in q <==> e in q[..|q| - 1] || e == q[|q| - 1];
    }
  }

  lemma TicketsMembership(q: seq<Entry>, t: Ticket)
    ensures t in Tickets(q) <==> exists e :: e in q && e.ticket == t
  {
    if t in Tickets(q) {
      var i :| 0 <= i < |q| && q[i].ticket == t;
      assert q[i] in q;
    }
  }

  lemma DistinctTicketsPrefix(q: seq<Entry>, e: Entry)
    requires q != [] && DistinctTickets(q) && e in q[..|q| - 1]
    ensures e.ticket != q[|q| - 1].ticket
  {
    var i :| 0 <= i < |q| - 1 && q[..|q| - 1][i] == e;
    assert q[i] == e;
  }

  /** What leaves and what stays of a queue with distinct tickets has distinct tickets. */
  lemma {:induction false} PickedDistinct(q: seq<Entry>, pick: Pick)
    requires DistinctTickets(q)
    ensures NoDuplicates(PickedTickets(q, pick))
    ensures DistinctTickets(Kept(q, pick))
  {
    if q != [] {
      var p, last := q[..|q| - 1], q[|q| - 1];
      PickedDistinct(p, pick);
      PickedMeaning(p, pick, last.ticket);
      KeptMeaning(p, pick);
      forall e | e in p
        ensures e.ticket != last.ticket
      {
        DistinctTicketsPrefix(q, e);
      }
      assert forall i :: 0 <= i < |Kept(p, pick)| ==> Kept(p, pick)[i] in p;
    }
  }

  lemma SameTicketSameEntry(q: seq<Entry>, e: Entry, f: Entry)
    requires DistinctTickets(q) && e in q && f in q && e.ticket == f.ticket
    ensures e == f
  {
    var i :| 0 <= i < |q| && q[i] == e;
    var j :| 0 <= j < |q| && q[j] == f;
    assert i == j;
  }

  /** The entries kept and the tickets called split the queue. */
  lemma KeptTickets(q: seq<Entry>, pick: Pick, t: Ticket)
    requires DistinctTickets(q)
    ensures t in Tickets(Kept(q, pick)) <==> t in Tickets(q) && t !in PickedTickets(q, pick)
    ensures t in PickedTickets(q, pick) ==> t in Tickets(q)
  {
    KeptMeaning(q, pick);
    PickedMeaning(q, pick, t);
    TicketsMembership(q, t);
    TicketsMembership(Kept(q, pick), t);
    forall e, f | e in q && f in q && e.ticket == t && f.ticket == t
      ensures e == f
    {
      SameTicketSameEntry(q, e, f);
    }
  }

  lemma NoDuplicatesConcat<T>(a: seq<T>, b: seq<T>)
    requires NoDuplicates(a) && NoDuplicates(b) && (forall x :: x in b ==> x !in a)
    ensures NoDuplicates(a + b)
  {
    assert forall i :: 0 <= i < |b| ==> b[i] in b;
  }

  lemma TicketsAfterDequeue(s: State, pick: Pick)
    requires TicketsTracked(s)
    ensures TicketsTracked(Dequeue(s, pick))
  {
    var r := Dequeue(s, pick);
    var gone := PickedTickets(s.queue, pick);
    forall t: Ticket
      ensures t in Tickets(r.queue) <==> t in Tickets(s.queue) && t !in gone
      ensures t in gone ==> t in Tickets(s.queue)
    {
      KeptTickets(s.queue, pick, t);
    }
    PickedDistinct(s.queue, pick);
    NoDuplicatesConcat(s.released, gone);
  }

  lemma TicketsAfterSwap(s: State, k: TaskKey, t: Task)
    requires TicketsTracked(s) && k in s.tasks && TicketOf(t) == TicketOf(s.tasks[k])
    ensures TicketsTracked(ReplaceTask(s, k, t))
  {
  }

  lemma TicketsAfterRemove(s: State, k: TaskKey)
    requires TicketsTracked(s) && k in s.tasks && TicketOf(s.tasks[k]).None?
    ensures TicketsTracked(RemoveTask(s, k))
  {
  }

  lemma TicketsAfterReleaseFired(s: State, k: TaskKey)
    requires TicketsTracked(s) && k in s.tasks && s.tasks[k].ReleasePending?
    ensures TicketsTracked(ReleaseFired(s, k))
  {
    assert s.tasks[k].ticket in s.places && s.places[s.tasks[k].ticket] == Settling(k);
  }

  // ---------------------------------------------------------------- primitives

  /** No entry of the queue is still waiting for the first start of `id`. */
  ghost predicate NoSpawnEntryOf(queue: seq<Entry>, id: AgentId) {
    forall e :: e in queue && e.id == id ==> e.kind == ResumeEntry
  }

  /** A change of a record that keeps what the queue and the tasks rely on. */
  ghost predicate HarmlessUpdate(before: Record, after: Record) {
    && after.blocking == before.blocking && after.parent == before.parent && after.inWorkflow == before.inWorkflow
    && (before.isBackground ==> after.isBackground)
    && (before.hasSession ==> after.hasSession)
  }

  lemma UpdateKeepsSound(s: State, id: AgentId, r: Record, loose: set<Ticket>)
    requires SoundLoose(s, loose) && id in s.records && NoSpawnEntryOf(s.queue, id)
    requires HarmlessUpdate(s.records[id], r)
    ensures SoundLoose(s.(records := s.records[id := r]), loose)
  {
    hide TicketsLoose, CountersMatch;
  }

  lemma StatusKeepsSound(s: State, id: AgentId, status: Status, loose: set<Ticket>)
    requires SoundLoose(s, loose) && id in s.records && NoSpawnEntryOf(s.queue, id)
    ensures SoundLoose(WithStatus(s, id, status), loose)
  {
    UpdateKeepsSound(s, id, s.records[id].(status := status), loose);
  }

  lemma QueueAfterTask(s: State, t: Task)
    requires QueueSound(s.queue, s.records, s.agents, s.tasks)
    requires AgentOf(t).Some? ==> NoSpawnEntryOf(s.queue, AgentOf(t).value)
    ensures QueueSound(s.queue, s.records, s.agents, s.tasks[s.nextTask := t])
  {
  }

  lemma PlainTaskKeepsSound(s: State, t: Task, loose: set<Ticket>)
    requires SoundLoose(s, loose) && TaskSound(s.records, t) && TicketOf(t).None?
    requires AgentOf(t).Some? ==> NoSpawnEntryOf(s.queue, AgentOf(t).value)
    ensures SoundLoose(AddTask(Charge(s, ChargeOf(t)), t), loose)
  {
    hide TicketsLoose, CountersMatch, QueueSound;
    CountersAfterTask(s, t);
    QueueAfterTask(s, t);
    TicketsAfterPlainTask(Charge(s, ChargeOf(t)), t, loose);
  }

  lemma StartupTaskKeepsSound(s: State, t: Task)
    requires TicketOf(t).Some? && SoundLoose(s, {TicketOf(t).value}) && TaskSound(s.records, t)
    requires AgentOf(t).Some? ==> NoSpawnEntryOf(s.queue, AgentOf(t).value)
    ensures Sound(AddTask(Charge(s, ChargeOf(t)), t))
  {
    hide TicketsLoose, CountersMatch, QueueSound;
    CountersAfterTask(s, t);
    QueueAfterTask(s, t);
    TicketsAfterStart(Charge(s, ChargeOf(t)), t);
  }

  ghost function LooseOf(o: Origin): set<Ticket> {
    match o
    case Immediate => {}
    case FromQueue(_, ticket) => {ticket}
  }

  /** A startup continuation: it carries the ticket of its origin, if it has one. */
  lemma OriginTaskKeepsSound(s: State, t: Task, origin: Origin)
    requires SoundLoose(s, LooseOf(origin)) && TaskSound(s.records, t) && TicketOf(t) == OriginTicket(origin)
    requires AgentOf(t).Some? ==> NoSpawnEntryOf(s.queue, AgentOf(t).value)
    ensures Sound(AddTask(Charge(s, ChargeOf(t)), t))
  {
    hide SoundLoose;
    match origin
    case Immediate => PlainTaskKeepsSound(s, t, {});
    case FromQueue(_, _) => StartupTaskKeepsSound(s, t);
  }

  // ---------------------------------------------------------------- starting

  lemma BeginRunKeepsSound(s: State, id: AgentId, pool: Option<Pool>, env: Env, loose: set<Ticket>)
    requires SoundLoose(s, loose) && id in s.records && NoSpawnEntryOf(s.queue, id)
    ensures SoundLoose(BeginRun(Charge(s, pool), id, pool, env), loose)
  {
    hide SoundLoose;
    var stopped := id in env.abortedSignals && id in s.agents;
    var marked := if stopped then WithStatus(s, id, Stopped) else s;
    if stopped {
      StatusKeepsSound(s, id, Stopped, loose);
    }
    PlainTaskKeepsSound(marked, AgentRun(id, pool), loose);
    assert BeginRun(Charge(s, pool), id, pool, env) == AddTask(Charge(marked, pool), AgentRun(id, pool));
  }

  lemma StartAgentKeepsSound(s: State, id: AgentId, origin: Origin, env: Env)
    requires SoundLoose(s, LooseOf(origin)) && id in s.records && NoSpawnEntryOf(s.queue, id)
    ensures Sound(StartAgent(s, id, origin, env))
  {
    hide SoundLoose;
    if id in env.badCwd {
      OriginTaskKeepsSound(s, StartupRejected(id, origin), origin);
    } else {
      var pool := PoolFor(s, s.records[id]);
      var running := WithStatus(s, id, Running);
      StatusKeepsSound(s, id, Running, LooseOf(origin));
      if s.records[id].isolated && env.worktrees {
        OriginTaskKeepsSound(running, CopyingRepo(id, pool, origin), origin);
      } else {
        BeginRunKeepsSound(running, id, pool, env, LooseOf(origin));
        OriginTaskKeepsSound(BeginRun(Charge(running, pool), id, pool, env), StartupResolved(id, origin), origin);
      }
    }
  }

  lemma StartResumeKeepsSound(s: State, id: AgentId, loose: set<Ticket>)
    requires SoundLoose(s, loose) && id in s.records && NoSpawnEntryOf(s.queue, id) && s.records[id].isBackground
    ensures SoundLoose(StartResume(s, id), loose)
  {
    hide SoundLoose;
    if s.records[id].hasSession {
      StatusKeepsSound(s, id, Running, loose);
      PlainTaskKeepsSound(WithStatus(s, id, Running), BackgroundResume(id, s.records[id].OccupiesPoolSlot()), loose);
    }
  }

  lemma PopKeepsSound(s: State, i: nat)
    requires Sound(s) && i < |s.queue|
    ensures SoundLoose(s.(queue := RemoveAt(s.queue, i)), {s.queue[i].ticket})
    ensures EntrySound(s.records, s.agents, s.tasks, s.queue[i])
    ensures IsLive(s, s.queue[i].id) ==> NoSpawnEntryOf(RemoveAt(s.queue, i), s.queue[i].id)
  {
    hide TicketsLoose, CountersMatch, TasksSound;
    TicketsAfterPop(s, i);
    var q := RemoveAt(s.queue, i);
    assert forall j :: 0 <= j < |q| ==> q[j] == s.queue[if j < i then j else j + 1];
    assert forall e :: e in q ==> e in s.queue;
    forall e | e in q && e.id == s.queue[i].id
      ensures e.kind == ResumeEntry
    {
      var j :| 0 <= j < |q| && q[j] == e;
      var m := if j < i then j else j + 1;
      assert s.queue[m] == e;
      assert m < i || i < m;
    }
  }

  lemma TakeKeepsSound(s: State, i: nat, env: Env)
    requires Sound(s) && i < |s.queue|
    ensures Sound(Take(s, i, env))
  {
    var e := s.queue[i];
    var popped := s.(queue := RemoveAt(s.queue, i));
    PopKeepsSound(s, i);
    if !IsLive(s, e.id) {
      hide CountersMatch, TasksSound, QueueSound;
      TicketsAfterRelease(popped, e.ticket);
    } else {
      hide SoundLoose;
      match e.kind
      case SpawnEntry =>
        StartAgentKeepsSound(popped, e.id, FromQueue(e.pool, e.ticket), env);
      case ResumeEntry =>
        StartResumeKeepsSound(popped, e.id, {e.ticket});
        StartupTaskKeepsSound(StartResume(popped, e.id), ReleasePending(e.ticket));
    }
  }

  /** A drain keeps the state sound and leaves no entry whose pool has room. */
  lemma {:induction false} DrainKeepsInv(s: State, env: Env)
    requires Sound(s)
    ensures Sound(Drain(s, env)) && NoEntryHasRoom(Drain(s, env))
    decreases |s.queue|
  {
    hide Sound;
    var i := FirstWithRoom(s, s.queue);
    if i < |s.queue| {
      TakeKeepsSound(s, i, env);
      DrainKeepsInv(Take(s, i, env), env);
    }
  }
}
