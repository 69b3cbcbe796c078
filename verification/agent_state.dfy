// The subagent manager as a state machine: one step per stretch of code between
// two `await` points of pi-subagents/src/agent-manager.ts.
module AgentState {
  import opened Common

  type AgentId = nat
  type Ticket = nat
  type TaskKey = nat

  datatype Pool = Background | Foreground

  datatype Status = Queued | Running | Stopped | Completed | Steered | Aborted | Failed

  datatype Record = Record(
    isBackground: bool,
    blocking: bool,
    parent: Option<AgentId>,
    inWorkflow: bool,
    isolated: bool,
    status: Status,
    hasSession: bool)
  {
    predicate IsTopLevel() {
      parent.None? && !inWorkflow
    }

    predicate OccupiesPoolSlot() {
      isBackground && IsTopLevel()
    }

    predicate OccupiesForegroundSlot() {
      blocking && IsTopLevel()
    }
  }

  datatype EntryKind = SpawnEntry | ResumeEntry

  /** A queue entry. The ticket names the entry's `release` callback. */
  datatype Entry = Entry(id: AgentId, pool: Pool, kind: EntryKind, ticket: Ticket)

  /** How a startup was launched: by `spawn` itself, or later from the queue. */
  datatype Origin = Immediate | FromQueue(pool: Pool, ticket: Ticket)

  /** A suspended continuation: what the event loop may run next. */
  datatype Task =
    | CopyingRepo(id: AgentId, pool: Option<Pool>, origin: Origin)
    | DiscardingCopy(id: AgentId, origin: Origin)
    | StartupRejected(id: AgentId, origin: Origin)
    | StartupResolved(id: AgentId, origin: Origin)
    | ReleasePending(ticket: Ticket)
    | AgentRun(id: AgentId, pool: Option<Pool>)
    | WrappingUp(id: AgentId, pool: Option<Pool>)
    | BackgroundResume(id: AgentId, charged: bool)
    | InlineResume(id: AgentId)

  /** Where the release callback of a queue entry stands. */
  datatype Place = InQueue | Settling(key: TaskKey) | Released

  /** What the outside world answers while a step runs. */
  datatype Env = Env(badCwd: set<AgentId>, worktrees: bool, abortedSignals: set<AgentId>)

  datatype Signal = NoSignal | Armed | AlreadyAborted

  datatype SpawnOptions = SpawnOptions(
    isBackground: bool,
    blocking: bool,
    parent: Option<AgentId>,
    inWorkflow: bool,
    isolated: bool,
    bypassQueue: bool,
    signal: Signal)

  datatype Outcome = Finished | FinishedSteered | HardAborted | RunFailed

  /** Which entries `dequeue` removes. */
  datatype Pick = OnlyAgent(id: AgentId) | Everyone

  datatype State = State(
    records: map<AgentId, Record>,   // every record some closure still holds
    agents: set<AgentId>,            // the ones the manager's map lists
    queue: seq<Entry>,
    runningBackground: int,
    runningForeground: int,
    maxConcurrent: int,
    maxConcurrentForeground: int,
    tasks: map<TaskKey, Task>,
    nextTask: TaskKey,
    places: map<Ticket, Place>,
    nextTicket: Ticket,
    released: seq<Ticket>)           // every call of `release`, in order

  const DEFAULT_MAX_CONCURRENT := 10
  const DEFAULT_MAX_CONCURRENT_FOREGROUND := 0

  function Init(maxConcurrent: int): State {
    State(map[], {}, [], 0, 0, maxConcurrent, DEFAULT_MAX_CONCURRENT_FOREGROUND, map[], 0, map[], 0, [])
  }

  // ---------------------------------------------------------------- pools

  function PoolFor(s: State, r: Record): Option<Pool> {
    if r.OccupiesPoolSlot() then Some(Background)
    else if s.maxConcurrentForeground > 0 && r.OccupiesForegroundSlot() then Some(Foreground)
    else None
  }

  predicate HasRoom(s: State, pool: Pool) {
    match pool
    case Background => s.runningBackground < s.maxConcurrent
    case Foreground => s.maxConcurrentForeground == 0 || s.runningForeground < s.maxConcurrentForeground
  }

  function Charge(s: State, pool: Option<Pool>): State {
    match pool
    case None => s
    case Some(Background) => s.(runningBackground := s.runningBackground + 1)
    case Some(Foreground) => s.(runningForeground := s.runningForeground + 1)
  }

  function Discharge(s: State, pool: Option<Pool>): State {
    match pool
    case None => s
    case Some(Background) => s.(runningBackground := s.runningBackground - 1)
    case Some(Foreground) => s.(runningForeground := s.runningForeground - 1)
  }

  // ---------------------------------------------------------------- tasks

  /** The pool a suspended continuation holds a slot of. */
  function ChargeOf(t: Task): Option<Pool> {
    match t
    case CopyingRepo(_, pool, _) => pool
    case AgentRun(_, pool) => pool
    case WrappingUp(_, pool) => pool
    case BackgroundResume(_, charged) => if charged then Some(Background) else None
    case _ => None
  }

  function OriginTicket(o: Origin): Option<Ticket> {
    match o
    case Immediate => None
    case FromQueue(_, ticket) => Some(ticket)
  }

  /** The release callback a suspended continuation still has to call. */
  function TicketOf(t: Task): Option<Ticket> {
    match t
    case CopyingRepo(_, _, origin) => OriginTicket(origin)
    case DiscardingCopy(_, origin) => OriginTicket(origin)
    case StartupRejected(_, origin) => OriginTicket(origin)
    case StartupResolved(_, origin) => OriginTicket(origin)
    case ReleasePending(ticket) => Some(ticket)
    case _ => None
  }

  function AgentOf(t: Task): Option<AgentId> {
    match t
    case ReleasePending(_) => None
    case CopyingRepo(id, _, _) => Some(id)
    case DiscardingCopy(id, _) => Some(id)
    case StartupRejected(id, _) => Some(id)
    case StartupResolved(id, _) => Some(id)
    case AgentRun(id, _) => Some(id)
    case WrappingUp(id, _) => Some(id)
    case BackgroundResume(id, _) => Some(id)
    case InlineResume(id) => Some(id)
  }

  function AddTask(s: State, t: Task): State {
    s.(tasks := s.tasks[s.nextTask := t],
       nextTask := s.nextTask + 1,
       places := match TicketOf(t)
                 case Some(ticket) => s.places[ticket := Settling(s.nextTask)]
                 case None => s.places)
  }

  function ReplaceTask(s: State, k: TaskKey, t: Task): State {
    s.(tasks := s.tasks[k := t])
  }

  function RemoveTask(s: State, k: TaskKey): State {
    s.(tasks := s.tasks - {k})
  }

  function WithStatus(s: State, id: AgentId, status: Status): State
    requires id in s.records
  {
    s.(records := s.records[id := s.records[id].(status := status)])
  }

  // ---------------------------------------------------------------- queue

  function Release(s: State, ticket: Ticket): State {
    s.(released := s.released + [ticket], places := s.places[ticket := Released])
  }

  function Enqueue(s: State, id: AgentId, pool: Pool, kind: EntryKind): State {
    s.(queue := s.queue + [Entry(id, pool, kind, s.nextTicket)],
       places := s.places[s.nextTicket := InQueue],
       nextTicket := s.nextTicket + 1)
  }

  predicate Picks(pick: Pick, e: Entry) {
    match pick
    case OnlyAgent(id) => e.id == id
    case Everyone => true
  }

  function Kept(q: seq<Entry>, pick: Pick): seq<Entry> {
    if q == [] then []
    else Kept(q[..|q| - 1], pick) + (if Picks(pick, q[|q| - 1]) then [] else [q[|q| - 1]])
  }

  function PickedTickets(q: seq<Entry>, pick: Pick): seq<Ticket> {
    if q == [] then []
    else PickedTickets(q[..|q| - 1], pick) + (if Picks(pick, q[|q| - 1]) then [q[|q| - 1].ticket] else [])
  }

  function PlacesAfterRelease(places: map<Ticket, Place>, gone: seq<Ticket>): map<Ticket, Place> {
    map t | t in places.Keys + (set g | g in gone) :: if t in gone then Released else places[t]
  }

  /** `dequeue`: leaving the queue releases the waiter. */
  function Dequeue(s: State, pick: Pick): State {
    var gone := PickedTickets(s.queue, pick);
    s.(queue := Kept(s.queue, pick),
       released := s.released + gone,
       places := PlacesAfterRelease(s.places, gone))
  }

  /** Index of the first entry whose own pool has room; `|q|` when there is none. */
  function FirstWithRoom(s: State, q: seq<Entry>): (i: nat)
    ensures i <= |q|
    ensures i < |q| ==> HasRoom(s, q[i].pool)
    ensures forall j :: 0 <= j < i ==> !HasRoom(s, q[j].pool)
  {
    if q == [] then 0
    else if HasRoom(s, q[0].pool) then 0
    else 1 + FirstWithRoom(s, q[1..])
  }

  predicate IsLive(s: State, id: AgentId) {
    id in s.agents && id in s.records && s.records[id].status == Queued
  }

  // ---------------------------------------------------------------- starting

  /** The tail of `startAgent`: the run is under way and the startup has resolved. */
  function BeginRun(s: State, id: AgentId, pool: Option<Pool>, env: Env): State
    requires id in s.records
  {
    AddTask(if id in env.abortedSignals && id in s.agents then WithStatus(s, id, Stopped) else s, AgentRun(id, pool))
  }

  function StartAgent(s: State, id: AgentId, origin: Origin, env: Env): State
    requires id in s.records
  {
    if id in env.badCwd then AddTask(s, StartupRejected(id, origin))
    else
      var pool := PoolFor(s, s.records[id]);
      var started := Charge(WithStatus(s, id, Running), pool);
      if s.records[id].isolated && env.worktrees then AddTask(started, CopyingRepo(id, pool, origin))
      else AddTask(BeginRun(started, id, pool, env), StartupResolved(id, origin))
  }

  function StartResume(s: State, id: AgentId): State
    requires id in s.records
  {
    if !s.records[id].hasSession then s
    else
      var occupies := s.records[id].OccupiesPoolSlot();
      AddTask(Charge(WithStatus(s, id, Running), if occupies then Some(Background) else None),
              BackgroundResume(id, occupies))
  }

  function StartEntry(s: State, e: Entry, env: Env): State
    requires e.id in s.records
  {
    match e.kind
    case SpawnEntry => StartAgent(s, e.id, FromQueue(e.pool, e.ticket), env)
    case ResumeEntry => AddTask(StartResume(s, e.id), ReleasePending(e.ticket))
  }

  /** One turn of the drain loop: take entry `i` out, then start it or drop it as stale. */
  function Take(s: State, i: nat, env: Env): (r: State)
    requires i < |s.queue|
    ensures r.queue == RemoveAt(s.queue, i)
  {
    var e := s.queue[i];
    var popped := s.(queue := RemoveAt(s.queue, i));
    if IsLive(s, e.id) then StartEntry(popped, e, env) else Release(popped, e.ticket)
  }

  function Drain(s: State, env: Env): State
    decreases |s.queue|
  {
    var i := FirstWithRoom(s, s.queue);
    if i == |s.queue| then s else Drain(Take(s, i, env), env)
  }

  // ---------------------------------------------------------------- events

  function NewRecord(o: SpawnOptions): Record {
    Record(o.isBackground, o.blocking, o.parent, o.inWorkflow, o.isolated,
           if o.isBackground then Queued else Running, false)
  }

  function Register(s: State, id: AgentId, r: Record): State {
    s.(records := s.records[id := r], agents := s.agents + {id})
  }

  /** A spawn its pool has no room for waits in the queue, unless its signal already fired. */
  function Defer(s: State, id: AgentId, pool: Pool, signal: Signal): State
    requires id in s.records
  {
    if signal == AlreadyAborted then WithStatus(s, id, Stopped)
    else Enqueue(WithStatus(s, id, Queued), id, pool, SpawnEntry)
  }

  function Spawn(s: State, id: AgentId, o: SpawnOptions, env: Env): State
    requires id !in s.records
  {
    var s1 := Register(s, id, NewRecord(o));
    var pool := PoolFor(s1, NewRecord(o));
    if pool.Some? && !o.bypassQueue && !HasRoom(s1, pool.value) then Defer(s1, id, pool.value, o.signal)
    else StartAgent(s1, id, Immediate, env)
  }

  /** The awaited worktree copy answered: `copied` is false when it returned nothing. */
  function CopySettled(s: State, k: TaskKey, copied: bool, env: Env): State
    requires k in s.tasks && s.tasks[k].CopyingRepo? && s.tasks[k].id in s.records
  {
    var CopyingRepo(id, pool, origin) := s.tasks[k];
    if !copied then ReplaceTask(Discharge(s, pool), k, StartupRejected(id, origin))
    else if s.records[id].status != Running then ReplaceTask(Discharge(s, pool), k, DiscardingCopy(id, origin))
    else BeginRun(ReplaceTask(s, k, StartupResolved(id, origin)), id, pool, env)
  }

  /** The fresh copy of a run stopped in the meantime has been removed. */
  function DiscardSettled(s: State, k: TaskKey, env: Env): State
    requires k in s.tasks && s.tasks[k].DiscardingCopy?
  {
    Drain(ReplaceTask(s, k, StartupResolved(s.tasks[k].id, s.tasks[k].origin)), env)
  }

  /** After a startup handler: a drained start still has to wake its waiter. */
  function AwaitRelease(s: State, k: TaskKey, origin: Origin): State {
    match origin
    case Immediate => RemoveTask(s, k)
    case FromQueue(_, ticket) => ReplaceTask(s, k, ReleasePending(ticket))
  }

  function StartupSettled(s: State, k: TaskKey, env: Env): State
    requires k in s.tasks && (s.tasks[k].StartupRejected? || s.tasks[k].StartupResolved?)
    requires s.tasks[k].id in s.records
  {
    var id, origin := s.tasks[k].id, s.tasks[k].origin;
    if s.tasks[k].StartupResolved? then AwaitRelease(s, k, origin)
    else
      var s1 := if origin.FromQueue? then WithStatus(s, id, Failed) else s.(agents := s.agents - {id});
      Drain(AwaitRelease(s1, k, origin), env)
  }

  function ReleaseFired(s: State, k: TaskKey): State
    requires k in s.tasks && s.tasks[k].ReleasePending?
  {
    Release(RemoveTask(s, k), s.tasks[k].ticket)
  }

  function SessionCreated(s: State, k: TaskKey): State
    requires k in s.tasks && s.tasks[k].AgentRun? && s.tasks[k].id in s.records
  {
    var id := s.tasks[k].id;
    s.(records := s.records[id := s.records[id].(hasSession := true)])
  }

  function Settled(current: Status, outcome: Outcome): Status {
    if current == Stopped then Stopped
    else match outcome
      case Finished => Completed
      case FinishedSteered => Steered
      case HardAborted => Aborted
      case RunFailed => Failed
  }

  /** `abort(id)`: release a queued entry, or mark a running record stopped. */
  function Abort(s: State, id: AgentId): State {
    if id !in s.agents || id !in s.records then s
    else if s.records[id].status == Queued then WithStatus(Dequeue(s, OnlyAgent(id)), id, Stopped)
    else if s.records[id].status == Running then WithStatus(s, id, Stopped)
    else s
  }

  predicate IsLiveChild(s: State, parent: AgentId, id: AgentId) {
    id in s.agents && id in s.records && s.records[id].parent == Some(parent)
    && (s.records[id].status == Queued || s.records[id].status == Running)
  }

  /** `abortOwnedChildren`: nested children are never queued, so only statuses change. */
  function StopChildren(s: State, parent: AgentId): State {
    s.(records := map id | id in s.records ::
         if IsLiveChild(s, parent, id) then s.records[id].(status := Stopped) else s.records[id])
  }

  /** The run promise answered; the worktree clean-up is awaited next. */
  function RunFinished(s: State, k: TaskKey, outcome: Outcome): State
    requires k in s.tasks && s.tasks[k].AgentRun? && s.tasks[k].id in s.records
  {
    var AgentRun(id, pool) := s.tasks[k];
    ReplaceTask(WithStatus(s, id, Settled(s.records[id].status, outcome)), k, WrappingUp(id, pool))
  }

  /** `settleRun`, after the clean-up; one that throws turns the run into an error. */
  function RunSettled(s: State, k: TaskKey, cleanupFailed: bool, env: Env): State
    requires k in s.tasks && s.tasks[k].WrappingUp? && s.tasks[k].id in s.records
  {
    var WrappingUp(id, pool) := s.tasks[k];
    var s0 := if cleanupFailed then WithStatus(s, id, Settled(s.records[id].status, RunFailed)) else s;
    var s1 := StopChildren(s0, id);
    var s2 := Discharge(RemoveTask(s1, k), pool);
    if s.records[id].isBackground || pool.Some? then Drain(s2, env) else s2
  }

  predicate CanResumeInBackground(s: State, id: AgentId) {
    id in s.agents && id in s.records && s.records[id].hasSession
    && s.records[id].status != Running && s.records[id].status != Queued
  }

  function ResumeInBackground(s: State, id: AgentId): State {
    if !CanResumeInBackground(s, id) then s
    else
      var r := s.records[id].(isBackground := true, status := Queued);
      var s1 := s.(records := s.records[id := r]);
      if r.OccupiesPoolSlot() && !HasRoom(s1, Background) then Enqueue(s1, id, Background, ResumeEntry)
      else StartResume(s1, id)
  }

  /** The settle path of a background resume recomputes the pool it gives back. */
  function ResumeSettled(s: State, k: TaskKey, outcome: Outcome, env: Env): State
    requires k in s.tasks && s.tasks[k].BackgroundResume? && s.tasks[k].id in s.records
  {
    var id := s.tasks[k].id;
    var s1 := StopChildren(WithStatus(s, id, Settled(s.records[id].status, outcome)), id);
    var s2 := Discharge(RemoveTask(s1, k),
                        if s.records[id].OccupiesPoolSlot() then Some(Background) else None);
    Drain(s2, env)
  }

  function ResumeInline(s: State, id: AgentId): State {
    if id !in s.agents || id !in s.records || !s.records[id].hasSession then s
    else AddTask(WithStatus(s, id, Running), InlineResume(id))
  }

  function InlineSettled(s: State, k: TaskKey, outcome: Outcome): State
    requires k in s.tasks && s.tasks[k].InlineResume? && s.tasks[k].id in s.records
  {
    var id := s.tasks[k].id;
    RemoveTask(StopChildren(WithStatus(s, id, if outcome == RunFailed then Failed else Completed), id), k)
  }

  /** `abortAll`, first loop: the records of the first `n` entries are stopped, whatever their status. */
  function StopQueued(s: State, n: nat): State
    requires n <= |s.queue|
  {
    s.(records := map id | id in s.records ::
         if id in s.agents && (exists j :: 0 <= j < n && s.queue[j].id == id)
         then s.records[id].(status := Stopped) else s.records[id])
  }

  /** `abortAll`, last loop: running records are stopped, those in `todo` excepted. */
  function StopRunning(s: State, todo: set<AgentId>): State {
    s.(records := map id | id in s.records ::
         if id in s.agents && s.records[id].status == Running && id !in todo
         then s.records[id].(status := Stopped) else s.records[id])
  }

  /** `abortAll`: queued agents first, then every running one. */
  function AbortAll(s: State): State {
    StopRunning(Dequeue(StopQueued(s, |s.queue|), Everyone), {})
  }

  /** Eviction of a record that is neither running nor queued. */
  function Evict(s: State, id: AgentId): State {
    if id !in s.agents || id !in s.records || s.records[id].status == Running || s.records[id].status == Queued
    then s
    else s.(agents := s.agents - {id}, records := s.records[id := s.records[id].(hasSession := false)])
  }

  function SetMaxConcurrent(s: State, n: int, env: Env): State {
    Drain(s.(maxConcurrent := Max(1, n)), env)
  }

  function SetMaxConcurrentForeground(s: State, n: int, env: Env): State {
    Drain(s.(maxConcurrentForeground := Max(0, n)), env)
  }

  function Dispose(s: State): State {
    Dequeue(s, Everyone).(agents := {})
  }
}
