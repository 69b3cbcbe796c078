// The fire queue of a session: its state and its steps between two await points.
module FireState {
  import opened Common
  import opened FireBudget
  import Json

  type HookId = string

  const MAX_QUEUE_DEPTH := 3
  const MULTI_TRIGGER_COLLAPSE_MS := 500

  datatype HookEvent = SessionStart | AgentEnd | SessionShutdown

  datatype Once = Daily | PerSession

  datatype Kind = Pulse | Cron | OneOff | Hook | Github | Api | Manual

  /** `event` is only read on hook triggers. */
  datatype Trigger = Trigger(kind: Kind, event: HookEvent)

  datatype Routine = Routine(triggers: seq<Trigger>, paused: bool, quiet: bool, limits: Limits)

  datatype Payload = Payload(
    apiArgs: Option<Json.Json>,
    githubEvent: Option<Json.Json>,
    contextNote: Option<string>,
    onceKey: Option<string>,
    once: Option<Once>)

  const NO_PAYLOAD := Payload(None, None, None, None, None)

  datatype Entry = Entry(
    routine: RoutineId,
    run: RunId,
    index: int,
    kind: Kind,
    queuedAt: Option<int>,
    payload: Payload,
    deferred: Option<HookId>)

  datatype DeferredHook = DeferredHook(id: HookId, routine: RoutineId, index: nat, note: string)

  datatype PendingRun = PendingRun(routine: RoutineId, run: RunId, status: Status, quiet: bool, deferred: Option<HookId>)

  /** Where the one drain coroutine is: not running, awaiting the save of a shifted entry, awaiting
      something after which it goes back to the loop head. */
  datatype Drain = Resting | Holding(entry: Entry) | Looping

  /** What became of run ids so far. `audited`: logged as skipped without ever being queued. */
  datatype History = History(
    issued: multiset<RunId>,
    audited: multiset<RunId>,
    logged: multiset<RunId>,
    discarded: multiset<RunId>,
    stranded: multiset<RunId>)

  /** `stopped`: the queue was cleared by a teardown and the persisted mirror still holds it. */
  datatype State = State(
    routines: map<RoutineId, Routine>,
    ticks: map<RoutineId, TickState>,
    queue: seq<Entry>,
    mirror: seq<Entry>,
    hooks: seq<DeferredHook>,
    enqueuedAt: map<RoutineId, int>,
    drain: Drain,
    watchdog: bool,
    turn: bool,
    pending: Option<PendingRun>,
    stopped: bool,
    h: History)

  /** What the drain finds when it asks the session for its context. */
  datatype Context = Stale | Broken | Missing | Live(idle: bool, pendingMessages: bool)

  // ---------------------------------------------------------------- the queue as a list

  /** The part that is mirrored to disk: entries that do not stem from a deferred hook. */
  function Normals(queue: seq<Entry>): seq<Entry> {
    if queue == [] then []
    else if queue[0].deferred.Some? then Normals(queue[1..])
    else [queue[0]] + Normals(queue[1..])
  }

  function FirstNormal(queue: seq<Entry>): (i: nat)
    ensures i <= |queue|
    ensures i < |queue| ==> queue[i].deferred.None?
    ensures forall j :: 0 <= j < i ==> queue[j].deferred.Some?
  {
    if queue == [] || queue[0].deferred.None? then 0 else 1 + FirstNormal(queue[1..])
  }

  /** One past the last normal entry; zero when there is none. */
  function LastNormalEnd(queue: seq<Entry>): (i: nat)
    ensures i <= |queue|
    ensures i > 0 ==> queue[i - 1].deferred.None?
    ensures forall j :: i <= j < |queue| ==> queue[j].deferred.Some?
  {
    if queue == [] then 0
    else if queue[|queue| - 1].deferred.None? then |queue|
    else LastNormalEnd(queue[..|queue| - 1])
  }

  function InsertAt(queue: seq<Entry>, i: nat, e: Entry): seq<Entry>
    requires i <= |queue|
  {
    queue[..i] + [e] + queue[i..]
  }

  function Without(queue: seq<Entry>, routine: RoutineId): seq<Entry> {
    if queue == [] then []
    else if queue[0].routine == routine then Without(queue[1..], routine)
    else [queue[0]] + Without(queue[1..], routine)
  }

  function Of(queue: seq<Entry>, routine: RoutineId): seq<Entry> {
    if queue == [] then []
    else if queue[0].routine == routine then [queue[0]] + Of(queue[1..], routine)
    else Of(queue[1..], routine)
  }

  predicate HasRoutine(queue: seq<Entry>, routine: RoutineId) {
    exists i :: 0 <= i < |queue| && queue[i].routine == routine
  }

  function Ids(queue: seq<Entry>): multiset<RunId> {
    if queue == [] then multiset{} else multiset{queue[0].run} + Ids(queue[1..])
  }

  function DropHook(hooks: seq<DeferredHook>, id: Option<HookId>): seq<DeferredHook> {
    if id.None? || hooks == [] then hooks
    else if hooks[0].id == id.value then DropHook(hooks[1..], id)
    else [hooks[0]] + DropHook(hooks[1..], id)
  }

  // ---------------------------------------------------------------- logging and persisting

  function Tick(s: State, routine: RoutineId): Option<TickState> {
    if routine in s.ticks then Some(s.ticks[routine]) else None
  }

  function Log(s: State, routine: RoutineId, run: RunRecord): State {
    s.(ticks := s.ticks[routine := RecordRun(Tick(s, routine), run)],
       h := s.h.(logged := s.h.logged + multiset{run.id}))
  }

  function LogSkip(s: State, routine: RoutineId, id: RunId): State {
    Log(s, routine, RunRecord(id, Skipped, false))
  }

  /** A skip row for a fire that never got into the queue. */
  function Audit(s: State, routine: RoutineId, id: RunId): State {
    LogSkip(s, routine, id).(h := LogSkip(s, routine, id).h.(audited := s.h.audited + multiset{id}))
  }

  function Discard(s: State, id: RunId): State {
    s.(h := s.h.(discarded := s.h.discarded + multiset{id}))
  }

  function WithQueue(s: State, queue: seq<Entry>): State {
    s.(queue := queue, mirror := Normals(queue), stopped := false)
  }

  // ---------------------------------------------------------------- enqueueing

  function DropAt(s: State, i: nat): State
    requires i < |s.queue|
  {
    var e := s.queue[i];
    var t := WithQueue(s, RemoveAt(s.queue, i));
    if e.routine in s.routines then LogSkip(t, e.routine, e.run) else Discard(t, e.run)
  }

  /** Which entry makes room: the oldest, or for a priority entry the newest normal one if there is one. */
  function Victim(queue: seq<Entry>, priority: bool): (i: nat)
    requires queue != []
    ensures i < |queue|
  {
    if priority && LastNormalEnd(queue) > 0 then LastNormalEnd(queue) - 1 else 0
  }

  function MakeRoom(s: State, priority: bool): State {
    if |s.queue| >= MAX_QUEUE_DEPTH then DropAt(s, Victim(s.queue, priority)) else s
  }

  function Insert(queue: seq<Entry>, e: Entry, priority: bool): seq<Entry> {
    if priority then InsertAt(queue, FirstNormal(queue), e) else queue + [e]
  }

  function Enqueue(s: State, e: Entry, priority: bool): State {
    var t := MakeRoom(s, priority);
    WithQueue(t, Insert(t.queue, e, priority)).(watchdog := true, h := t.h.(issued := t.h.issued + multiset{e.run}))
  }

  function EnqueueAndDrain(s: State, e: Entry, ctx: Context): State {
    StartDrain(Enqueue(s, e, false), ctx)
  }

  /** A timer fired: existence, pause, collapse window, in-flight and already-queued gates, then the queue. */
  function TriggerFires(s: State, routine: RoutineId, index: nat, now: int, id: RunId, ctx: Context): State {
    if routine !in s.routines then s
    else
      var live := s.routines[routine];
      if index >= |live.triggers| then s
      else if live.paused then Audit(s, routine, id)
      else if now - (if routine in s.enqueuedAt then s.enqueuedAt[routine] else 0) < MULTI_TRIGGER_COLLAPSE_MS then
        Audit(s, routine, id)
      else
        var t := s.(enqueuedAt := s.enqueuedAt[routine := now]);
        if (s.pending.Some? && s.pending.value.routine == routine) || HasRoutine(s.queue, routine) then
          Audit(t, routine, id)
        else
          EnqueueAndDrain(t, Entry(routine, id, index, live.triggers[index].kind, Some(now), NO_PAYLOAD, None), ctx)
  }

  /** An API call or a GitHub event: these may stack several entries of one routine. */
  function Requested(s: State, routine: RoutineId, index: nat, payload: Payload, now: int, id: RunId, ctx: Context): State {
    if routine !in s.routines || index >= |s.routines[routine].triggers| then s
    else if s.routines[routine].paused then Audit(s, routine, id)
    else
      EnqueueAndDrain(s, Entry(routine, id, index, s.routines[routine].triggers[index].kind, Some(now), payload, None), ctx)
  }

  /** `/routine-run-now`: not while a turn runs, not twice, but past a pause. */
  function RunNow(s: State, routine: RoutineId, now: int, id: RunId, ctx: Context): State {
    if routine !in s.routines || s.turn || HasRoutine(s.queue, routine) then s
    else EnqueueAndDrain(s, Entry(routine, id, -1, Manual, Some(now), NO_PAYLOAD, None), ctx)
  }

  /** The bounded fire for a slot missed while no session was live; it is not drained at once. */
  function CatchUp(s: State, routine: RoutineId, index: nat, kind: Kind, payload: Payload, now: int, id: RunId): State {
    if routine !in s.routines || s.routines[routine].paused || HasRoutine(s.queue, routine)
       || (s.pending.Some? && s.pending.value.routine == routine) then s
    else Enqueue(s, Entry(routine, id, index, kind, Some(now), payload, None), false)
  }

  /** A lifecycle hook found for a routine; `due`: its once-marker does not hold it back. */
  datatype Pick = Pick(routine: RoutineId, index: nat, due: bool, payload: Payload, id: RunId)

  function HookIsQueued(s: State, p: Pick): bool {
    p.routine in s.routines && p.due && |s.queue| < MAX_QUEUE_DEPTH
  }

  function EnqueueHook(s: State, p: Pick, now: int): State {
    if p.routine !in s.routines || !p.due then s
    else if |s.queue| >= MAX_QUEUE_DEPTH then Audit(s, p.routine, p.id)
    else Enqueue(s, Entry(p.routine, p.id, p.index, Hook, Some(now), p.payload, None), false)
  }

  /** The picking loop logs a skip for each paused routine that carries the hook. */
  function PassOverPaused(s: State, routine: RoutineId, id: RunId): State {
    if routine in s.routines && s.routines[routine].paused then Audit(s, routine, id) else s
  }

  /** At most one `agent_end` hook a turn: the first pick that gets into the queue ends the search. */
  function OfferHooks(s: State, picks: seq<Pick>, now: int, ctx: Context): State
    decreases |picks|
  {
    if picks == [] || s.turn then s
    else if HookIsQueued(s, picks[0]) then StartDrain(EnqueueHook(s, picks[0], now), ctx)
    else OfferHooks(EnqueueHook(s, picks[0], now), picks[1..], now, ctx)
  }

  /** The hooks queued or in flight already. */
  function KnownHooks(s: State): set<HookId> {
    (set i | 0 <= i < |s.queue| && s.queue[i].deferred.Some? :: s.queue[i].deferred.value) +
    (if s.pending.Some? && s.pending.value.deferred.Some? then {s.pending.value.deferred.value} else {})
  }

  predicate IsShutdownHook(s: State, item: DeferredHook) {
    && item.routine in s.routines
    && item.index < |s.routines[item.routine].triggers|
    && s.routines[item.routine].triggers[item.index] == Trigger(Hook, SessionShutdown)
  }

  /** Deferred shutdown hooks go to the front, while there is room; `ids` are the fresh run ids, one an item. */
  function Promote(s: State, items: seq<DeferredHook>, ids: seq<RunId>, known: set<HookId>, now: int): State
    requires |ids| == |items|
    decreases |items|
  {
    if items == [] || |s.queue| >= MAX_QUEUE_DEPTH then s
    else
      var item := items[0];
      if item.id in known then Promote(s, items[1..], ids[1..], known, now)
      else if !IsShutdownHook(s, item) || s.routines[item.routine].paused then
        var t := s.(hooks := DropHook(s.hooks, Some(item.id)));
        Promote(if item.routine in s.routines then Audit(t, item.routine, ids[0]) else t, items[1..], ids[1..], known, now)
      else
        var e := Entry(item.routine, ids[0], item.index, Hook, Some(now), NO_PAYLOAD.(contextNote := Some(item.note)), Some(item.id));
        Promote(Enqueue(s, e, true), items[1..], ids[1..], known + {item.id}, now)
  }

  // ---------------------------------------------------------------- the drain

  /** `stopScheduler`: the queue goes, the persisted mirror stays. */
  function Stop(s: State): State {
    s.(queue := [], watchdog := false, enqueuedAt := map[], stopped := s.stopped || s.queue != [],
       h := s.h.(stranded := s.h.stranded + Ids(s.queue)))
  }

  function ExitDrain(s: State): State {
    s.(drain := Resting, watchdog := s.queue != [])
  }

  /** One evaluation of the loop head, up to the await after the shift. */
  function LoopHead(s: State, ctx: Context): State {
    if s.queue == [] then ExitDrain(s)
    else match ctx
      case Stale => ExitDrain(Stop(s))
      case Broken => ExitDrain(s)
      case Missing => ExitDrain(s)
      case Live(idle, pendingMessages) =>
        if s.turn || !idle || pendingMessages then ExitDrain(s)
        else WithQueue(s, s.queue[1..]).(drain := Holding(s.queue[0]))
  }

  function StartDrain(s: State, ctx: Context): State {
    if s.drain.Resting? then LoopHead(s, ctx) else s
  }

  /** What the two reads of the clock and the send give. */
  datatype Firing = Firing(checked: Date, sends: bool, sent: Date)

  function RequestOf(e: Entry, f: Firing, free: bool): Request {
    Request(e.run, e.kind == Manual || e.deferred.Some?, f.checked, f.sends && free, f.sent)
  }

  /** `fireRoutine`; acquiring the turn throws when one is active, and the handler then releases it. */
  function FireEntry(s: State, e: Entry, f: Firing): State
    requires e.routine in s.routines
  {
    match Fire(s.routines[e.routine].limits, Tick(s, e.routine), RequestOf(e, f, !s.turn))
    case Deleted =>
      Discard(s.(hooks := DropHook(s.hooks, e.deferred), routines := s.routines - {e.routine}, ticks := s.ticks - {e.routine}), e.run)
    case Capped(t) => s.(ticks := s.ticks[e.routine := t], h := s.h.(logged := s.h.logged + multiset{e.run}))
    case Failed(t) =>
      s.(ticks := s.ticks[e.routine := t], turn := false, pending := None, h := s.h.(logged := s.h.logged + multiset{e.run}))
    case Started(t) =>
      s.(ticks := s.ticks[e.routine := t], turn := true, hooks := DropHook(s.hooks, e.deferred),
         pending := Some(PendingRun(e.routine, e.run, Success, false, e.deferred)))
  }

  /** The drain continues after an await. */
  function ResumeDrain(s: State, f: Firing, ctx: Context): State {
    match s.drain
    case Resting => s
    case Looping => LoopHead(s, ctx)
    case Holding(e) =>
      if e.routine !in s.routines then
        var t := Discard(s.(hooks := DropHook(s.hooks, e.deferred)), e.run);
        if e.deferred.Some? then t.(drain := Looping) else LoopHead(t.(drain := Looping), ctx)
      else if s.routines[e.routine].paused && e.kind != Manual then
        LoopHead(LogSkip(s.(hooks := DropHook(s.hooks, e.deferred)), e.routine, e.run).(drain := Looping), ctx)
      else FireEntry(s, e, f).(drain := Looping)
  }

  function WatchdogTick(s: State, ctx: Context): State {
    if !s.watchdog then s
    else if s.queue == [] then s.(watchdog := false)
    else StartDrain(s, ctx)
  }

  // ---------------------------------------------------------------- lifecycle

  /** The suppressor sees the assistant's message. */
  function MessageEnds(s: State, isToken: bool, hasText: bool, opensWithToken: bool): State {
    if !s.turn || s.pending.None? then s
    else
      var p := s.pending.value;
      if p.routine in s.routines && s.routines[p.routine].quiet && isToken then
        s.(pending := Some(p.(status := Silent, quiet := true)))
      else if hasText then s.(pending := Some(p.(quiet := opensWithToken)))
      else s
  }

  function CloseTurn(s: State): State {
    if s.turn && s.pending.Some? then
      var p := s.pending.value;
      Log(s.(turn := false, pending := None), p.routine, RunRecord(p.run, p.status, p.quiet))
    else s.(turn := false)
  }

  /** `agent_end` up to the await of its drain. */
  function AgentEnds(s: State, hasUI: bool, ids: seq<RunId>, now: int, ctx: Context): State
    requires |ids| == |s.hooks|
  {
    var closed := CloseTurn(s);
    StartDrain(if hasUI then Promote(closed, closed.hooks, ids, KnownHooks(closed), now) else closed, ctx)
  }

  function AgentSettles(s: State, ctx: Context): State {
    if s.turn then s else StartDrain(s, ctx)
  }

  /** `session_shutdown`: stop, then log the interrupted turn and release the guard. */
  function Shutdown(s: State): State {
    var t := Stop(s);
    var u := if t.pending.Some? then
               Log(t.(pending := None), t.pending.value.routine, RunRecord(t.pending.value.run, Failure, t.pending.value.quiet))
             else t;
    u.(turn := false)
  }

  // ---------------------------------------------------------------- user commands

  function Save(s: State, routine: RoutineId, value: Routine): State {
    s.(routines := s.routines[routine := value], ticks := if routine in s.routines then s.ticks else s.ticks[routine := FRESH])
  }

  function SetPaused(s: State, routine: RoutineId, paused: bool): State {
    if routine !in s.routines then s else s.(routines := s.routines[routine := s.routines[routine].(paused := paused)])
  }

  function HooksWithout(hooks: seq<DeferredHook>, routine: RoutineId): seq<DeferredHook> {
    if hooks == [] then []
    else if hooks[0].routine == routine then HooksWithout(hooks[1..], routine)
    else [hooks[0]] + HooksWithout(hooks[1..], routine)
  }

  function DeleteRoutine(s: State, routine: RoutineId): State {
    if routine !in s.routines then s
    else
      var kept := Without(s.queue, routine);
      s.(routines := s.routines - {routine}, ticks := s.ticks - {routine}, hooks := HooksWithout(s.hooks, routine),
         queue := kept, mirror := Without(s.mirror, routine), watchdog := s.watchdog && kept != [],
         h := s.h.(discarded := s.h.discarded + Ids(Of(s.queue, routine))))
  }

  // ---------------------------------------------------------------- events

  datatype Event =
    | TriggerFired(routine: RoutineId, index: nat, now: int, id: RunId, ctx: Context)
    | FireRequested(routine: RoutineId, index: nat, payload: Payload, now: int, id: RunId, ctx: Context)
    | RanNow(routine: RoutineId, now: int, id: RunId, ctx: Context)
    | CaughtUp(routine: RoutineId, index: nat, kind: Kind, payload: Payload, now: int, id: RunId)
    | PausedPassedOver(routine: RoutineId, id: RunId)
    | HookPicked(pick: Pick, now: int)
    | HooksOffered(picks: seq<Pick>, now: int, ctx: Context)
    | DrainResumed(f: Firing, ctx: Context)
    | WatchdogTicked(ctx: Context)
    | MessageEnded(isToken: bool, hasText: bool, opensWithToken: bool)
    | AgentEnded(hasUI: bool, ids: seq<RunId>, now: int, ctx: Context)
    | AgentSettled(ctx: Context)
    | Saved(routine: RoutineId, value: Routine)
    | PauseSet(routine: RoutineId, paused: bool)
    | RoutineDeleted(routine: RoutineId)
    | ShutDown

  /** Any event may come at any time; `agent_end` brings one fresh id for each deferred hook. */
  predicate Enabled(s: State, e: Event) {
    e.AgentEnded? ==> |e.ids| == |s.hooks|
  }

  function Step(s: State, e: Event): State
    requires Enabled(s, e)
  {
    match e
    case TriggerFired(routine, index, now, id, ctx) => TriggerFires(s, routine, index, now, id, ctx)
    case FireRequested(routine, index, payload, now, id, ctx) => Requested(s, routine, index, payload, now, id, ctx)
    case RanNow(routine, now, id, ctx) => RunNow(s, routine, now, id, ctx)
    case CaughtUp(routine, index, kind, payload, now, id) => CatchUp(s, routine, index, kind, payload, now, id)
    case PausedPassedOver(routine, id) => PassOverPaused(s, routine, id)
    case HookPicked(pick, now) => EnqueueHook(s, pick, now)
    case HooksOffered(picks, now, ctx) => OfferHooks(s, picks, now, ctx)
    case DrainResumed(f, ctx) => ResumeDrain(s, f, ctx)
    case WatchdogTicked(ctx) => WatchdogTick(s, ctx)
    case MessageEnded(isToken, hasText, opensWithToken) => MessageEnds(s, isToken, hasText, opensWithToken)
    case AgentEnded(hasUI, ids, now, ctx) => AgentEnds(s, hasUI, ids, now, ctx)
    case AgentSettled(ctx) => AgentSettles(s, ctx)
    case Saved(routine, value) => Save(s, routine, value)
    case PauseSet(routine, paused) => SetPaused(s, routine, paused)
    case RoutineDeleted(routine) => DeleteRoutine(s, routine)
    case ShutDown => Shutdown(s)
  }
}
