// No agent is left marked as queued with nothing that would ever start it.
module AgentWaiting {
  import opened Common
  import opened AgentState
  import opened AgentInvariants
  import opened AgentDrain
  import opened AgentSafety
  import opened AgentRuns

  /** Listed, and marked as queued. */
  predicate Waits(s: State, id: AgentId) {
    id in s.agents && id in s.records && s.records[id].status == Queued
  }

  ghost predicate HasEntry(queue: seq<Entry>, id: AgentId) {
    exists i :: 0 <= i < |queue| && queue[i].id == id
  }

  ghost predicate IsRejected(tasks: map<TaskKey, Task>, id: AgentId) {
    exists k :: k in tasks && tasks[k].StartupRejected? && tasks[k].id == id
  }

  /** Something will come back to the agent: its entry is taken, or its failed startup is reported. */
  ghost predicate IsExpected(s: State, id: AgentId) {
    HasEntry(s.queue, id) || IsRejected(s.tasks, id)
  }

  ghost predicate NobodyForgotten(s: State) {
    forall id :: Waits(s, id) ==> IsExpected(s, id)
  }

  /** Nobody starts to wait, and who still waits is still expected. */
  ghost predicate ForgetsNobody(s: State, r: State) {
    forall id :: Waits(r, id) ==> Waits(s, id) && (IsExpected(s, id) ==> IsExpected(r, id))
  }

  lemma ForgetsNobodyInTwo(s: State, t: State, r: State)
    requires ForgetsNobody(s, t) && ForgetsNobody(t, r)
    ensures ForgetsNobody(s, r)
  {
    hide Waits, IsExpected;
  }

  // ---------------------------------------------------------------- primitives

  ghost predicate TasksGrow(s: State, r: State) {
    forall k :: k in s.tasks ==> k in r.tasks && r.tasks[k] == s.tasks[k]
  }

  lemma RejectedStays(s: State, r: State, id: AgentId)
    requires TasksGrow(s, r) && IsRejected(s.tasks, id)
    ensures IsRejected(r.tasks, id)
  {
    var k :| k in s.tasks && s.tasks[k].StartupRejected? && s.tasks[k].id == id;
    assert k in r.tasks;
  }

  /** The queue stays, tasks are only added, and no status becomes queued. */
  lemma GrowthForgetsNobody(s: State, r: State)
    requires r.queue == s.queue && TasksGrow(s, r) && r.agents <= s.agents
    requires forall id :: Waits(r, id) ==> Waits(s, id)
    ensures ForgetsNobody(s, r)
  {
    forall id | Waits(r, id)
      ensures IsExpected(s, id) ==> IsExpected(r, id)
    {
      if IsRejected(s.tasks, id) {
        RejectedStays(s, r, id);
      }
    }
  }

  /** A continuation other than a failed startup ends or goes on as another one. */
  lemma TaskEndForgetsNobody(s: State, r: State, k: TaskKey)
    requires r.queue == s.queue && r.agents <= s.agents && k in s.tasks && !s.tasks[k].StartupRejected?
    requires forall j :: j in s.tasks && j != k ==> j in r.tasks && r.tasks[j] == s.tasks[j]
    requires forall id :: Waits(r, id) ==> Waits(s, id)
    ensures ForgetsNobody(s, r)
  {
    forall id | Waits(r, id)
      ensures IsExpected(s, id) ==> IsExpected(r, id)
    {
      if IsRejected(s.tasks, id) {
        var j :| j in s.tasks && s.tasks[j].StartupRejected? && s.tasks[j].id == id;
        assert j in r.tasks && r.tasks[j].StartupRejected?;
      }
    }
  }

  lemma FreshKeys(s: State)
    requires SoundTasks(s)
    ensures s.nextTask !in s.tasks && s.nextTask + 1 !in s.tasks
  {
  }

  ghost predicate SoundTasks(s: State) {
    forall k :: k in s.tasks ==> k < s.nextTask
  }

  // ---------------------------------------------------------------- the drain

  /** A start takes the agent out of the waiting ones, or leaves it to the report of its failure. */
  lemma StartAgentExpects(s: State, id: AgentId, origin: Origin, env: Env)
    requires id in s.records && SoundTasks(s)
    ensures var r := StartAgent(s, id, origin, env);
            && TasksGrow(s, r) && r.queue == s.queue && r.agents == s.agents
            && (forall other :: Waits(r, other) ==> Waits(s, other))
            && (Waits(r, id) ==> IsRejected(r.tasks, id))
  {
    var r := StartAgent(s, id, origin, env);
    if id in env.badCwd {
      assert r.tasks[s.nextTask] == StartupRejected(id, origin);
    }
  }

  lemma TakeForgetsNobody(s: State, i: nat, env: Env)
    requires Sound(s) && i < |s.queue|
    ensures ForgetsNobody(s, Take(s, i, env)) && SoundTasks(Take(s, i, env))
  {
    var e, r := s.queue[i], Take(s, i, env);
    var popped := s.(queue := RemoveAt(s.queue, i));
    PopKeepsSound(s, i);
    TakeKeepsSound(s, i, env);
    TakeStatuses(s, i, env);
    forall id | Waits(r, id)
      ensures Waits(s, id) && (IsExpected(s, id) ==> IsExpected(r, id))
    {
      if IsRejected(s.tasks, id) {
        RejectedStays(s, r, id);
      } else if HasEntry(s.queue, id) {
        var j :| 0 <= j < |s.queue| && s.queue[j].id == id;
        if j != i {
          assert r.queue[if j < i then j else j - 1] == s.queue[j];
        }
      }
    }
  }

  /** One turn of the drain: the agent of the entry it takes waits no more, or its failure will be reported. */
  lemma TakeStatuses(s: State, i: nat, env: Env)
    requires Sound(s) && i < |s.queue|
    ensures var e, r := s.queue[i], Take(s, i, env);
            && TasksGrow(s, r) && (forall id :: Waits(r, id) ==> Waits(s, id))
            && (Waits(r, e.id) ==> IsRejected(r.tasks, e.id))
  {
    var e := s.queue[i];
    var popped := s.(queue := RemoveAt(s.queue, i));
    PopKeepsSound(s, i);
    hide TicketsLoose, CountersMatch;
    if IsLive(s, e.id) {
      match e.kind
      case SpawnEntry => StartAgentExpects(popped, e.id, FromQueue(e.pool, e.ticket), env);
      case ResumeEntry => assert s.records[e.id].hasSession;
    }
  }

  lemma {:induction false} DrainForgetsNobody(s: State, env: Env)
    requires Sound(s)
    ensures ForgetsNobody(s, Drain(s, env))
    decreases |s.queue|
  {
    hide Sound, Take, ForgetsNobody;
    var i := FirstWithRoom(s, s.queue);
    if i < |s.queue| {
      var t := Take(s, i, env);
      TakeKeepsSound(s, i, env);
      TakeForgetsNobody(s, i, env);
      TakePops(s, i, env);
      DrainForgetsNobody(t, env);
      ForgetsNobodyInTwo(s, t, Drain(t, env));
    } else {
      SameForgetsNobody(s);
    }
  }

  lemma SameForgetsNobody(s: State)
    ensures ForgetsNobody(s, s)
  {
  }

  /** Something happens, and then the queue is drained. */
  lemma ThenDrains(s: State, t: State, env: Env)
    requires NobodyForgotten(s) && ForgetsNobody(s, t) && Sound(t)
    ensures NobodyForgotten(Drain(t, env))
  {
    hide Sound, Drain;
    DrainForgetsNobody(t, env);
  }

  // ---------------------------------------------------------------- events that drain

  lemma DiscardWaiting(s: State, k: TaskKey, env: Env)
    requires Inv(s) && NobodyForgotten(s) && k in s.tasks && s.tasks[k].DiscardingCopy?
    ensures NobodyForgotten(DiscardSettled(s, k, env))
  {
    TaskMeansNoSpawnEntry(s, k);
    hide SoundLoose, Drain;
    var t := ReplaceTask(s, k, StartupResolved(s.tasks[k].id, s.tasks[k].origin));
    SwapKeepsSound(s, k, StartupResolved(s.tasks[k].id, s.tasks[k].origin));
    TaskEndForgetsNobody(s, t, k);
    ThenDrains(s, t, env);
  }

  /** Who waits on a failed startup is taken off that list when the failure is reported. */
  lemma StartupWaiting(s: State, k: TaskKey, env: Env)
    requires Inv(s) && NobodyForgotten(s) && k in s.tasks && (s.tasks[k].StartupRejected? || s.tasks[k].StartupResolved?)
    requires s.tasks[k].id in s.records
    ensures NobodyForgotten(StartupSettled(s, k, env))
  {
    var id, origin := s.tasks[k].id, s.tasks[k].origin;
    TaskMeansNoSpawnEntry(s, k);
    hide SoundLoose, Drain;
    if s.tasks[k].StartupResolved? {
      TaskEndForgetsNobody(s, AwaitRelease(s, k, origin), k);
    } else {
      var s1 := if origin.FromQueue? then WithStatus(s, id, Failed) else s.(agents := s.agents - {id});
      if origin.FromQueue? {
        StatusKeepsSound(s, id, Failed, {});
      } else {
        UnlistKeepsSound(s, id);
      }
      AwaitReleaseKeepsSound(s1, k, origin);
      ReportedForgetsNobody(s, s1, k, AwaitRelease(s1, k, origin));
      ThenDrains(s, AwaitRelease(s1, k, origin), env);
    }
  }

  lemma ReportedForgetsNobody(s: State, s1: State, k: TaskKey, r: State)
    requires k in s.tasks && s.tasks[k].StartupRejected? && s.tasks[k].id in s.records
    requires var id := s.tasks[k].id;
             s1 == if s.tasks[k].origin.FromQueue? then WithStatus(s, id, Failed) else s.(agents := s.agents - {id})
    requires r == AwaitRelease(s1, k, s.tasks[k].origin)
    ensures ForgetsNobody(s, r)
  {
    forall other | Waits(r, other)
      ensures Waits(s, other) && (IsExpected(s, other) ==> IsExpected(r, other))
    {
      assert other != s.tasks[k].id;
      if IsRejected(s.tasks, other) {
        var j :| j in s.tasks && s.tasks[j].StartupRejected? && s.tasks[j].id == other;
        assert j in r.tasks && r.tasks[j] == s.tasks[j];
      }
    }
  }

  lemma ChildrenStopped(s: State, parent: AgentId, k: TaskKey, pool: Option<Pool>)
    ensures var r := Discharge(RemoveTask(StopChildren(s, parent), k), pool);
            && r.queue == s.queue && r.agents == s.agents && r.tasks == s.tasks - {k}
            && forall id :: Waits(r, id) ==> Waits(s, id)
  {
  }

  /** The run's end before any drain: the status it settles to, children stopped, the slot handed back. */
  function WrappedUp(s: State, k: TaskKey, cleanupFailed: bool): State
    requires k in s.tasks && s.tasks[k].WrappingUp? && s.tasks[k].id in s.records
  {
    var WrappingUp(id, pool) := s.tasks[k];
    var s0 := if cleanupFailed then WithStatus(s, id, Settled(s.records[id].status, RunFailed)) else s;
    Discharge(RemoveTask(StopChildren(s0, id), k), pool)
  }

  lemma WrappedUpIsSound(s: State, k: TaskKey, cleanupFailed: bool)
    requires Inv(s) && k in s.tasks && s.tasks[k].WrappingUp? && s.tasks[k].id in s.records
    ensures Sound(WrappedUp(s, k, cleanupFailed))
  {
    TaskMeansNoSpawnEntry(s, k);
    hide SoundLoose, StopChildren, Discharge;
    var id := s.tasks[k].id;
    var s0 := if cleanupFailed then WithStatus(s, id, Settled(s.records[id].status, RunFailed)) else s;
    StatusKeepsSound(s, id, Settled(s.records[id].status, RunFailed), {});
    StopChildrenKeepsSound(s0, id);
    RemoveKeepsSound(StopChildren(s0, id), k);
  }

  lemma WrappedUpForgetsNobody(s: State, k: TaskKey, cleanupFailed: bool)
    requires k in s.tasks && s.tasks[k].WrappingUp? && s.tasks[k].id in s.records
    ensures ForgetsNobody(s, WrappedUp(s, k, cleanupFailed))
  {
    hide StopChildren, Discharge;
    var WrappingUp(id, pool) := s.tasks[k];
    var s0 := if cleanupFailed then WithStatus(s, id, Settled(s.records[id].status, RunFailed)) else s;
    ChildrenStopped(s0, id, k, pool);
    TaskEndForgetsNobody(s, WrappedUp(s, k, cleanupFailed), k);
  }

  lemma RunSettledWaiting(s: State, k: TaskKey, cleanupFailed: bool, env: Env)
    requires Inv(s) && NobodyForgotten(s) && k in s.tasks && s.tasks[k].WrappingUp? && s.tasks[k].id in s.records
    ensures NobodyForgotten(RunSettled(s, k, cleanupFailed, env))
  {
    WrappedUpIsSound(s, k, cleanupFailed);
    WrappedUpForgetsNobody(s, k, cleanupFailed);
    var s2 := WrappedUp(s, k, cleanupFailed);
    assert RunSettled(s, k, cleanupFailed, env) ==
           if s.records[s.tasks[k].id].isBackground || s.tasks[k].pool.Some? then Drain(s2, env) else s2 by {
      hide Inv, NobodyForgotten, SoundLoose, ForgetsNobody, StopChildren, Drain, Discharge, RemoveTask, WithStatus;
    }
    hide SoundLoose, Drain, WrappedUp, RunSettled;
    if s.records[s.tasks[k].id].isBackground || s.tasks[k].pool.Some? {
      ThenDrains(s, s2, env);
    }
  }

  lemma ResumeSettledWaiting(s: State, k: TaskKey, outcome: Outcome, env: Env)
    requires Inv(s) && NobodyForgotten(s) && k in s.tasks && s.tasks[k].BackgroundResume? && s.tasks[k].id in s.records
    ensures NobodyForgotten(ResumeSettled(s, k, outcome, env))
  {
    TaskMeansNoSpawnEntry(s, k);
    ResumeChargeIsStable(s, k);
    hide SoundLoose, Drain;
    var id := s.tasks[k].id;
    var s0 := WithStatus(s, id, Settled(s.records[id].status, outcome));
    StatusKeepsSound(s, id, Settled(s.records[id].status, outcome), {});
    StopChildrenKeepsSound(s0, id);
    var s1 := StopChildren(s0, id);
    RemoveKeepsSound(s1, k);
    var s2 := Discharge(RemoveTask(s1, k), ChargeOf(s.tasks[k]));
    TaskEndForgetsNobody(s, s2, k);
    ThenDrains(s, s2, env);
  }

  lemma LimitsWaiting(s: State, n: int, env: Env)
    requires Inv(s) && NobodyForgotten(s)
    ensures NobodyForgotten(SetMaxConcurrent(s, n, env)) && NobodyForgotten(SetMaxConcurrentForeground(s, n, env))
  {
    hide Drain, TicketsLoose, CountersMatch, TasksSound, QueueSound;
    GrowthForgetsNobody(s, s.(maxConcurrent := Max(1, n)));
    GrowthForgetsNobody(s, s.(maxConcurrentForeground := Max(0, n)));
    ThenDrains(s, s.(maxConcurrent := Max(1, n)), env);
    ThenDrains(s, s.(maxConcurrentForeground := Max(0, n)), env);
  }

  // ---------------------------------------------------------------- the other events

  /** A spawn without room is pushed; any other starts, or is stopped by its signal. */
  lemma SpawnWaiting(s: State, id: AgentId, o: SpawnOptions, env: Env)
    requires Inv(s) && NobodyForgotten(s) && id !in s.records
    ensures NobodyForgotten(Spawn(s, id, o, env))
  {
    var r := NewRecord(o);
    var s1, t := Register(s, id, r), Spawn(s, id, o, env);
    FreshTaskKey(s);
    assert forall other :: other != id ==> (Waits(s1, other) <==> Waits(s, other));
    var pool := PoolFor(s1, r);
    if pool.Some? && !o.bypassQueue && !HasRoom(s1, pool.value) {
      forall other | Waits(t, other)
        ensures IsExpected(t, other)
      {
        if other == id {
          assert t.queue[|s.queue|].id == id;
        } else {
          assert Waits(s, other);
          if HasEntry(s.queue, other) {
            var i :| 0 <= i < |s.queue| && s.queue[i].id == other;
            assert t.queue[i].id == other;
          } else {
            RejectedStays(s, t, other);
          }
        }
      }
    } else {
      StartAgentExpects(s1, id, Immediate, env);
      forall other | Waits(t, other)
        ensures IsExpected(t, other)
      {
        if other != id {
          assert Waits(s, other);
          if IsRejected(s.tasks, other) {
            RejectedStays(s, t, other);
          }
        }
      }
    }
  }

  lemma ResumeWaiting(s: State, id: AgentId)
    requires Inv(s) && NobodyForgotten(s)
    ensures NobodyForgotten(ResumeInBackground(s, id))
  {
    hide TicketsLoose, CountersMatch, QueueSound;
    var t := ResumeInBackground(s, id);
    forall other | Waits(t, other)
      ensures IsExpected(t, other)
    {
      if !CanResumeInBackground(s, id) {
      } else if other == id {
        assert t.queue[|t.queue| - 1].id == id;
      } else {
        assert Waits(s, other);
        if HasEntry(s.queue, other) {
          var i :| 0 <= i < |s.queue| && s.queue[i].id == other;
          assert t.queue[i].id == other;
        } else {
          FreshTaskKey(s);
          RejectedStays(s, t, other);
        }
      }
    }
  }

  lemma CopyWaiting(s: State, k: TaskKey, copied: bool, env: Env)
    requires Inv(s) && NobodyForgotten(s) && k in s.tasks && s.tasks[k].CopyingRepo? && s.tasks[k].id in s.records
    ensures NobodyForgotten(CopySettled(s, k, copied, env))
  {
    hide TicketsLoose, CountersMatch, QueueSound;
    FreshTaskKey(s);
    TaskEndForgetsNobody(s, CopySettled(s, k, copied, env), k);
  }

  lemma AbortWaiting(s: State, id: AgentId)
    requires NobodyForgotten(s)
    ensures NobodyForgotten(Abort(s, id))
  {
    var t := Abort(s, id);
    KeptMeaning(s.queue, OnlyAgent(id));
    forall other | Waits(t, other)
      ensures IsExpected(t, other)
    {
      assert Waits(s, other);
      if HasEntry(s.queue, other) {
        var i :| 0 <= i < |s.queue| && s.queue[i].id == other;
        assert s.queue[i] in t.queue;
      }
    }
  }

  lemma AbortAllWaiting(s: State)
    requires NobodyForgotten(s)
    ensures NobodyForgotten(AbortAll(s))
  {
    hide Kept, PickedTickets, PlacesAfterRelease;
    var t := AbortAll(s);
    forall id | Waits(t, id)
      ensures IsExpected(t, id)
    {
      assert Waits(s, id) && !HasEntry(s.queue, id);
    }
  }

  lemma StepKeepsWaiting(s: State, ev: Event)
    requires Inv(s) && NobodyForgotten(s) && Enabled(s, ev)
    ensures NobodyForgotten(Step(s, ev))
  {
    hide Inv, NobodyForgotten;
    match ev
    case SpawnCalled(id, options, env) => SpawnWaiting(s, id, options, env);
    case CopyAnswered(k, copied, env) => CopyWaiting(s, k, copied, env);
    case CopyDiscarded(k, env) => DiscardWaiting(s, k, env);
    case StartupAnswered(k, env) => StartupWaiting(s, k, env);
    case RunWrappedUp(k, cleanupFailed, env) => RunSettledWaiting(s, k, cleanupFailed, env);
    case BackgroundResumeCalled(id) => ResumeWaiting(s, id);
    case BackgroundResumeAnswered(k, outcome, env) => ResumeSettledWaiting(s, k, outcome, env);
    case AbortCalled(id) => AbortWaiting(s, id);
    case AbortAllCalled => AbortAllWaiting(s);
    case LimitSet(n, env) => LimitsWaiting(s, n, env);
    case ForegroundLimitSet(n, env) => LimitsWaiting(s, n, env);
    case DrainCalled(env) => DrainCallWaiting(s, env);
    case ReleaseCalled(k) => ReleaseWaiting(s, k);
    case SessionOpened(k) => SessionWaiting(s, k);
    case RunAnswered(k, outcome) => RunFinishedWaiting(s, k, outcome);
    case InlineResumeCalled(id) => InlineWaiting(s, id);
    case InlineResumeAnswered(k, outcome) => InlineSettledWaiting(s, k, outcome);
    case RecordEvicted(id) => EvictWaiting(s, id);
    case Disposed => DisposeWaiting(s);
  }

  lemma DrainCallWaiting(s: State, env: Env)
    requires Inv(s) && NobodyForgotten(s)
    ensures NobodyForgotten(Drain(s, env))
  {
    hide SoundLoose, Drain;
    SameForgetsNobody(s);
    ThenDrains(s, s, env);
  }

  lemma ReleaseWaiting(s: State, k: TaskKey)
    requires NobodyForgotten(s) && k in s.tasks && s.tasks[k].ReleasePending?
    ensures NobodyForgotten(ReleaseFired(s, k))
  {
    TaskEndForgetsNobody(s, ReleaseFired(s, k), k);
  }

  lemma SessionWaiting(s: State, k: TaskKey)
    requires NobodyForgotten(s) && k in s.tasks && s.tasks[k].AgentRun? && s.tasks[k].id in s.records
    ensures NobodyForgotten(SessionCreated(s, k))
  {
    GrowthForgetsNobody(s, SessionCreated(s, k));
  }

  lemma RunFinishedWaiting(s: State, k: TaskKey, outcome: Outcome)
    requires NobodyForgotten(s) && k in s.tasks && s.tasks[k].AgentRun? && s.tasks[k].id in s.records
    ensures NobodyForgotten(RunFinished(s, k, outcome))
  {
    TaskEndForgetsNobody(s, RunFinished(s, k, outcome), k);
  }

  lemma InlineWaiting(s: State, id: AgentId)
    requires Inv(s) && NobodyForgotten(s)
    ensures NobodyForgotten(ResumeInline(s, id))
  {
    hide TicketsLoose, CountersMatch, QueueSound;
    FreshTaskKey(s);
    GrowthForgetsNobody(s, ResumeInline(s, id));
  }

  lemma InlineSettledWaiting(s: State, k: TaskKey, outcome: Outcome)
    requires NobodyForgotten(s) && k in s.tasks && s.tasks[k].InlineResume? && s.tasks[k].id in s.records
    ensures NobodyForgotten(InlineSettled(s, k, outcome))
  {
    TaskEndForgetsNobody(s, InlineSettled(s, k, outcome), k);
  }

  lemma EvictWaiting(s: State, id: AgentId)
    requires NobodyForgotten(s)
    ensures NobodyForgotten(Evict(s, id))
  {
    GrowthForgetsNobody(s, Evict(s, id));
  }

  lemma DisposeWaiting(s: State)
    ensures NobodyForgotten(Dispose(s))
  {
    hide Kept, PickedTickets, PlacesAfterRelease;
  }

  // ---------------------------------------------------------------- whole runs

  lemma {:induction false} RunKeepsWaiting(s: State, run: seq<Event>, r: State)
    requires Inv(s) && NobodyForgotten(s) && Reaches(s, run, r)
    ensures Inv(r) && NobodyForgotten(r)
    decreases |run|
  {
    hide Inv, NobodyForgotten;
    if run != [] {
      StepKeepsInv(s, run[0]);
      StepKeepsWaiting(s, run[0]);
      RunKeepsWaiting(Step(s, run[0]), run[1..], r);
    }
  }

  lemma InitForgetsNobody(maxConcurrent: int)
    ensures NobodyForgotten(Init(maxConcurrent))
  {
  }

  /** In every reachable state a listed agent marked as queued has an entry, or its failed startup is yet to be reported. */
  lemma QueuedAgentsAreExpected(maxConcurrent: int, run: seq<Event>, r: State, id: AgentId)
    requires Reaches(Init(maxConcurrent), run, r) && id in r.agents && id in r.records && r.records[id].status == Queued
    ensures HasEntry(r.queue, id) || IsRejected(r.tasks, id)
  {
    InitInv(maxConcurrent);
    InitForgetsNobody(maxConcurrent);
    RunKeepsWaiting(Init(maxConcurrent), run, r);
    hide Inv;
    assert Waits(r, id);
  }

  /** When nothing is suspended any more no listed agent is marked as queued. */
  lemma IdleMeansNobodyIsQueued(maxConcurrent: int, run: seq<Event>, r: State, id: AgentId)
    requires Reaches(Init(maxConcurrent), run, r) && r.tasks == map[] && r.maxConcurrent >= 1
    requires id in r.agents && id in r.records
    ensures r.records[id].status != Queued
  {
    IdleMeansNobodyWaits(maxConcurrent, run, r);
    if r.records[id].status == Queued {
      QueuedAgentsAreExpected(maxConcurrent, run, r, id);
    }
  }
}
