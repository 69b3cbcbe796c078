// Theorems about every run of the subagent manager.
module AgentRuns {
  import opened Common
  import opened AgentState
  import opened AgentInvariants
  import opened AgentSafety
  import opened AgentDrain

  /** One stretch of code the event loop runs without interruption. */
  datatype Event =
    | SpawnCalled(id: AgentId, options: SpawnOptions, env: Env)
    | CopyAnswered(k: TaskKey, copied: bool, env: Env)
    | CopyDiscarded(k: TaskKey, env: Env)
    | StartupAnswered(k: TaskKey, env: Env)
    | ReleaseCalled(k: TaskKey)
    | SessionOpened(k: TaskKey)
    | RunAnswered(k: TaskKey, outcome: Outcome)
    | RunWrappedUp(k: TaskKey, cleanupFailed: bool, env: Env)
    | BackgroundResumeCalled(id: AgentId)
    | BackgroundResumeAnswered(k: TaskKey, outcome: Outcome, env: Env)
    | InlineResumeCalled(id: AgentId)
    | InlineResumeAnswered(k: TaskKey, outcome: Outcome)
    | AbortCalled(id: AgentId)
    | AbortAllCalled
    | RecordEvicted(id: AgentId)
    | LimitSet(n: int, env: Env)
    | ForegroundLimitSet(n: int, env: Env)
    | DrainCalled(env: Env)
    | Disposed

  predicate Awaits(s: State, k: TaskKey) {
    k in s.tasks && AgentOf(s.tasks[k]).Some? && AgentOf(s.tasks[k]).value in s.records
  }

  predicate Enabled(s: State, ev: Event) {
    match ev
    case SpawnCalled(id, _, _) => id !in s.records
    case CopyAnswered(k, _, _) => Awaits(s, k) && s.tasks[k].CopyingRepo?
    case CopyDiscarded(k, _) => Awaits(s, k) && s.tasks[k].DiscardingCopy?
    case StartupAnswered(k, _) => Awaits(s, k) && (s.tasks[k].StartupRejected? || s.tasks[k].StartupResolved?)
    case ReleaseCalled(k) => k in s.tasks && s.tasks[k].ReleasePending?
    case SessionOpened(k) => Awaits(s, k) && s.tasks[k].AgentRun?
    case RunAnswered(k, _) => Awaits(s, k) && s.tasks[k].AgentRun?
    case RunWrappedUp(k, _, _) => Awaits(s, k) && s.tasks[k].WrappingUp?
    case BackgroundResumeAnswered(k, _, _) => Awaits(s, k) && s.tasks[k].BackgroundResume?
    case InlineResumeAnswered(k, _) => Awaits(s, k) && s.tasks[k].InlineResume?
    case _ => true
  }

  function Step(s: State, ev: Event): State
    requires Enabled(s, ev)
  {
    match ev
    case SpawnCalled(id, options, env) => Spawn(s, id, options, env)
    case CopyAnswered(k, copied, env) => CopySettled(s, k, copied, env)
    case CopyDiscarded(k, env) => DiscardSettled(s, k, env)
    case StartupAnswered(k, env) => StartupSettled(s, k, env)
    case ReleaseCalled(k) => ReleaseFired(s, k)
    case SessionOpened(k) => SessionCreated(s, k)
    case RunAnswered(k, outcome) => RunFinished(s, k, outcome)
    case RunWrappedUp(k, cleanupFailed, env) => RunSettled(s, k, cleanupFailed, env)
    case BackgroundResumeCalled(id) => ResumeInBackground(s, id)
    case BackgroundResumeAnswered(k, outcome, env) => ResumeSettled(s, k, outcome, env)
    case InlineResumeCalled(id) => ResumeInline(s, id)
    case InlineResumeAnswered(k, outcome) => InlineSettled(s, k, outcome)
    case AbortCalled(id) => Abort(s, id)
    case AbortAllCalled => AbortAll(s)
    case RecordEvicted(id) => Evict(s, id)
    case LimitSet(n, env) => SetMaxConcurrent(s, n, env)
    case ForegroundLimitSet(n, env) => SetMaxConcurrentForeground(s, n, env)
    case DrainCalled(env) => Drain(s, env)
    case Disposed => Dispose(s)
  }

  /** `r` is reached from `s` by the events `run`, each possible when it happens. */
  ghost predicate Reaches(s: State, run: seq<Event>, r: State)
    decreases |run|
  {
    if run == [] then r == s
    else Enabled(s, run[0]) && Reaches(Step(s, run[0]), run[1..], r)
  }

  lemma StepKeepsInv(s: State, ev: Event)
    requires Inv(s) && Enabled(s, ev)
    ensures Inv(Step(s, ev))
  {
    hide Inv;
    match ev
    case SpawnCalled(id, options, env) => SpawnKeepsInv(s, id, options, env);
    case CopyAnswered(k, copied, env) => CopySettledKeepsInv(s, k, copied, env);
    case CopyDiscarded(k, env) => DiscardSettledKeepsInv(s, k, env);
    case StartupAnswered(k, env) => StartupSettledKeepsInv(s, k, env);
    case ReleaseCalled(k) => ReleaseFiredKeepsInv(s, k);
    case SessionOpened(k) => SessionCreatedKeepsInv(s, k);
    case RunAnswered(k, outcome) => RunFinishedKeepsInv(s, k, outcome);
    case RunWrappedUp(k, cleanupFailed, env) => RunSettledKeepsInv(s, k, cleanupFailed, env);
    case BackgroundResumeCalled(id) => ResumeInBackgroundKeepsInv(s, id);
    case BackgroundResumeAnswered(k, outcome, env) => ResumeSettledKeepsInv(s, k, outcome, env);
    case InlineResumeCalled(id) => ResumeInlineKeepsInv(s, id);
    case InlineResumeAnswered(k, outcome) => InlineSettledKeepsInv(s, k, outcome);
    case AbortCalled(id) => AbortKeepsInv(s, id);
    case AbortAllCalled => AbortAllKeepsInv(s);
    case RecordEvicted(id) => EvictKeepsInv(s, id);
    case LimitSet(n, env) => LimitsKeepInv(s, n, env);
    case ForegroundLimitSet(n, env) => LimitsKeepInv(s, n, env);
    case DrainCalled(env) => DrainCallKeepsInv(s, env);
    case Disposed => DisposeKeepsInv(s);
  }

  lemma DrainCallKeepsInv(s: State, env: Env)
    requires Inv(s)
    ensures Inv(Drain(s, env))
  {
    hide SoundLoose;
    DrainKeepsInv(s, env);
  }

  lemma InitInv(maxConcurrent: int)
    ensures Inv(Init(maxConcurrent))
  {
    assert ChargedTo(map[], Background) == {};
    assert ChargedTo(map[], Foreground) == {};
  }

  lemma {:induction false} RunKeepsInv(s: State, run: seq<Event>, r: State)
    requires Inv(s) && Reaches(s, run, r)
    ensures Inv(r)
    decreases |run|
  {
    hide Inv;
    if run != [] {
      StepKeepsInv(s, run[0]);
      RunKeepsInv(Step(s, run[0]), run[1..], r);
    }
  }

  // ---------------------------------------------------------------- what every run guarantees

  /** In every reachable state the counters are the in-flight runs charged to each pool. */
  lemma CountersAreInFlightRuns(maxConcurrent: int, run: seq<Event>, r: State)
    requires Reaches(Init(maxConcurrent), run, r)
    ensures r.runningBackground == |ChargedTo(r.tasks, Background)|
    ensures r.runningForeground == |ChargedTo(r.tasks, Foreground)|
    ensures r.runningBackground >= 0 && r.runningForeground >= 0
  {
    InitInv(maxConcurrent);
    RunKeepsInv(Init(maxConcurrent), run, r);
  }

  /** Nested agents and a workflow's agents are never queued, so none waits for its own parent. */
  lemma OwnedAgentsNeverQueue(maxConcurrent: int, run: seq<Event>, r: State, e: Entry)
    requires Reaches(Init(maxConcurrent), run, r) && e in r.queue
    ensures e.id in r.records && r.records[e.id].parent.None? && !r.records[e.id].inWorkflow
    ensures e.pool == Background ==> r.records[e.id].isBackground
    ensures e.pool == Foreground ==> r.records[e.id].blocking
  {
    InitInv(maxConcurrent);
    RunKeepsInv(Init(maxConcurrent), run, r);
    assert EntrySound(r.records, r.agents, r.tasks, e);
  }

  /** An entry whose pool has room means some startup failed, holds no slot any more, and has yet to drain. */
  lemma RoomMeansDrainOwed(maxConcurrent: int, run: seq<Event>, r: State, e: Entry)
    requires Reaches(Init(maxConcurrent), run, r) && e in r.queue && HasRoom(r, e.pool)
    ensures DrainOwed(r)
  {
    InitInv(maxConcurrent);
    RunKeepsInv(Init(maxConcurrent), run, r);
    hide Sound;
    var i :| 0 <= i < |r.queue| && r.queue[i] == e;
    assert !NoEntryHasRoom(r);
  }

  ghost predicate StillQueued(s: State, t: Ticket) {
    exists e :: e in s.queue && e.ticket == t
  }

  ghost predicate StartSettling(s: State, t: Ticket) {
    exists k :: k in s.tasks && TicketOf(s.tasks[k]) == Some(t)
  }

  /** A waiter is released exactly once, and only after its entry left the queue and settled. */
  lemma EveryWaiterIsTracked(maxConcurrent: int, run: seq<Event>, r: State, t: Ticket)
    requires Reaches(Init(maxConcurrent), run, r) && t < r.nextTicket
    ensures t in r.released || StillQueued(r, t) || StartSettling(r, t)
    ensures !(t in r.released && StillQueued(r, t))
    ensures !(t in r.released && StartSettling(r, t))
    ensures !(StillQueued(r, t) && StartSettling(r, t))
    ensures multiset(r.released)[t] <= 1
  {
    InitInv(maxConcurrent);
    RunKeepsInv(Init(maxConcurrent), run, r);
    TicketsMembership(r.queue, t);
    OccursOnce(r.released, t);
    hide CountersMatch, TasksSound, QueueSound;
    assert t in r.places;
    if r.places[t].Settling? {
      assert TicketOf(r.tasks[r.places[t].key]) == Some(t);
    }
  }

  lemma {:induction false} OccursOnce<T>(s: seq<T>, x: T)
    requires NoDuplicates(s)
    ensures multiset(s)[x] <= 1
  {
    if s != [] {
      var p := s[..|s| - 1];
      assert s == p + [s[|s| - 1]];
      OccursOnce(p, x);
      if x == s[|s| - 1] {
        assert x !in p;
      }
    }
  }

  /** When nothing is suspended any more, nothing is queued and every waiter was released. */
  lemma IdleMeansNobodyWaits(maxConcurrent: int, run: seq<Event>, r: State)
    requires Reaches(Init(maxConcurrent), run, r) && r.tasks == map[] && r.maxConcurrent >= 1
    ensures r.queue == [] && r.runningBackground == 0 && r.runningForeground == 0
    ensures forall t: Ticket :: t < r.nextTicket ==> t in r.released
  {
    CountersAreInFlightRuns(maxConcurrent, run, r);
    assert ChargedTo(r.tasks, Background) == {} && ChargedTo(r.tasks, Foreground) == {};
    InitInv(maxConcurrent);
    RunKeepsInv(Init(maxConcurrent), run, r);
    hide TicketsLoose, TasksSound, QueueSound, CountersMatch;
    if r.queue != [] {
      RoomMeansDrainOwed(maxConcurrent, run, r, r.queue[0]);
      assert false;
    }
    forall t: Ticket | t < r.nextTicket
      ensures t in r.released
    {
      EveryWaiterIsTracked(maxConcurrent, run, r, t);
    }
  }

  // ---------------------------------------------------------------- limits

  /** Events that may exceed a limit: a bypassing spawn, and a limit set below what is running. */
  predicate MayExceed(s: State, ev: Event) {
    match ev
    case SpawnCalled(_, options, _) => options.bypassQueue
    case LimitSet(n, _) => Max(1, n) < s.runningBackground
    case ForegroundLimitSet(n, _) => 0 < n < s.runningForeground
    case _ => false
  }

  /** Any other event keeps both pools within their limits, queue drains included. */
  lemma StepStaysWithin(s: State, ev: Event)
    requires Inv(s) && WithinLimits(s) && Enabled(s, ev) && !MayExceed(s, ev)
    ensures WithinLimits(Step(s, ev))
  {
    hide Inv;
    match ev
    case SpawnCalled(id, options, env) => SpawnStaysWithin(s, id, options, env);
    case CopyAnswered(k, copied, env) => CopySettledStaysWithin(s, k, copied, env);
    case CopyDiscarded(k, env) => DiscardSettledKeepsInv(s, k, env);
    case StartupAnswered(k, env) => StartupSettledKeepsInv(s, k, env);
    case ReleaseCalled(k) =>
    case SessionOpened(k) => SessionCreatedKeepsInv(s, k);
    case RunAnswered(k, outcome) => RunFinishedKeepsInv(s, k, outcome);
    case RunWrappedUp(k, cleanupFailed, env) => RunSettledKeepsInv(s, k, cleanupFailed, env);
    case BackgroundResumeCalled(id) => ResumeInBackgroundKeepsInv(s, id);
    case BackgroundResumeAnswered(k, outcome, env) => ResumeSettledKeepsInv(s, k, outcome, env);
    case InlineResumeCalled(id) => ResumeInlineKeepsInv(s, id);
    case InlineResumeAnswered(k, outcome) => InlineSettledKeepsInv(s, k, outcome);
    case AbortCalled(id) => AbortKeepsInv(s, id);
    case AbortAllCalled => AbortAllKeepsInv(s);
    case RecordEvicted(id) => EvictKeepsInv(s, id);
    case LimitSet(n, env) => LimitsKeepInv(s, n, env);
    case ForegroundLimitSet(n, env) => LimitsKeepInv(s, n, env);
    case DrainCalled(env) => DrainCallStaysWithin(s, env);
    case Disposed => DisposeKeepsInv(s);
  }

  lemma DrainCallStaysWithin(s: State, env: Env)
    requires Inv(s) && WithinLimits(s)
    ensures WithinLimits(Drain(s, env))
  {
    hide SoundLoose;
    DrainKeepsAll(s, env);
  }

  /** No event of a run exceeds a limit when it happens. */
  ghost predicate NeverExceeds(s: State, run: seq<Event>)
    decreases |run|
  {
    run == [] || (Enabled(s, run[0]) && !MayExceed(s, run[0]) && NeverExceeds(Step(s, run[0]), run[1..]))
  }

  /** Without bypassing spawns and limits set below the running count, no run exceeds a limit. */
  lemma {:induction false} RunStaysWithin(s: State, run: seq<Event>, r: State)
    requires Inv(s) && WithinLimits(s) && Reaches(s, run, r) && NeverExceeds(s, run)
    ensures WithinLimits(r)
    decreases |run|
  {
    hide Inv, WithinLimits;
    if run != [] {
      StepKeepsInv(s, run[0]);
      StepStaysWithin(s, run[0]);
      RunStaysWithin(Step(s, run[0]), run[1..], r);
    }
  }

  /** A drain never changes a limit. */
  lemma {:induction false} LimitKeptByDrain(s: State, env: Env)
    ensures Drain(s, env).maxConcurrent == s.maxConcurrent
    ensures Drain(s, env).maxConcurrentForeground == s.maxConcurrentForeground
    decreases |s.queue|
  {
    var i := FirstWithRoom(s, s.queue);
    if i < |s.queue| {
      LimitKeptByDrain(Take(s, i, env), env);
    }
  }

  /** A signal that already fired never leaves an entry behind: nothing would ever release it. */
  lemma AbortedSignalNeverQueues(s: State, id: AgentId, o: SpawnOptions, env: Env)
    requires id !in s.records && o.signal == AlreadyAborted
    ensures Spawn(s, id, o, env).queue == s.queue
    ensures Spawn(s, id, o, env).nextTicket == s.nextTicket
  {
  }
}
