// The subagent manager in its own, imperative form. Each method is one stretch of code between
// two `await` points and is proved to do exactly what the state machine of AgentState does.
module AgentManagerClass {
  import opened Common
  import S = AgentState
  import opened AgentInvariants
  import opened AgentDrain
  import opened AgentSafety
  import opened AgentRuns
  import opened AgentWaiting

  lemma PlacesAfterOne(places: map<S.Ticket, S.Place>, gone: seq<S.Ticket>, t: S.Ticket)
    ensures S.PlacesAfterRelease(places, gone)[t := S.Released] == S.PlacesAfterRelease(places, gone + [t])
  {
  }

  class AgentManager {
    var records: map<S.AgentId, S.Record>
    var agents: set<S.AgentId>
    var queue: seq<S.Entry>
    var runningBackground: int
    var runningForeground: int
    var maxConcurrent: int
    var maxConcurrentForeground: int
    var tasks: map<S.TaskKey, S.Task>
    var nextTask: S.TaskKey
    var nextTicket: S.Ticket
    ghost var places: map<S.Ticket, S.Place>
    ghost var released: seq<S.Ticket>

    ghost function Abs(): S.State
      reads this
    {
      S.State(records, agents, queue, runningBackground, runningForeground, maxConcurrent,
              maxConcurrentForeground, tasks, nextTask, places, nextTicket, released)
    }

    /** The invariant, and nobody is left to wait in vain. */
    ghost predicate Valid()
      reads this
    {
      Inv(Abs()) && NobodyForgotten(Abs())
    }

    constructor (maxConcurrent: int)
      ensures Valid() && Abs() == S.Init(maxConcurrent)
    {
      this.records, this.agents, this.queue := map[], {}, [];
      this.runningBackground, this.runningForeground := 0, 0;
      this.maxConcurrent, this.maxConcurrentForeground := maxConcurrent, S.DEFAULT_MAX_CONCURRENT_FOREGROUND;
      this.tasks, this.nextTask, this.nextTicket := map[], 0, 0;
      this.places, this.released := map[], [];
      new;
      InitInv(maxConcurrent);
    }

    // -------------------------------------------------------------- helpers

    method PoolFor(r: S.Record) returns (pool: Option<S.Pool>)
      ensures pool == S.PoolFor(Abs(), r)
    {
      if r.OccupiesPoolSlot() {
        return Some(S.Background);
      }
      if maxConcurrentForeground > 0 && r.OccupiesForegroundSlot() {
        return Some(S.Foreground);
      }
      return None;
    }

    method PoolHasRoom(pool: S.Pool) returns (room: bool)
      ensures room == S.HasRoom(Abs(), pool)
    {
      match pool {
        case Background => room := runningBackground < maxConcurrent;
        case Foreground => room := maxConcurrentForeground == 0 || runningForeground < maxConcurrentForeground;
      }
    }

    method TakeSlot(pool: Option<S.Pool>)
      modifies this`runningBackground, this`runningForeground
      ensures Abs() == S.Charge(old(Abs()), pool)
    {
      if pool == Some(S.Background) {
        runningBackground := runningBackground + 1;
      } else if pool == Some(S.Foreground) {
        runningForeground := runningForeground + 1;
      }
    }

    method ReleaseSlot(pool: Option<S.Pool>)
      modifies this`runningBackground, this`runningForeground
      ensures Abs() == S.Discharge(old(Abs()), pool)
    {
      if pool == Some(S.Background) {
        runningBackground := runningBackground - 1;
      } else if pool == Some(S.Foreground) {
        runningForeground := runningForeground - 1;
      }
    }

    /** Park a continuation until the event loop comes back to it. */
    method Suspend(t: S.Task)
      modifies this`tasks, this`nextTask, this`places
      ensures Abs() == S.AddTask(old(Abs()), t)
    {
      tasks := tasks[nextTask := t];
      match S.TicketOf(t) {
        case Some(ticket) => places := places[ticket := S.Settling(nextTask)];
        case None =>
      }
      nextTask := nextTask + 1;
    }

    method SetStatus(id: S.AgentId, status: S.Status)
      requires id in records
      modifies this`records
      ensures Abs() == S.WithStatus(old(Abs()), id, status)
    {
      records := records[id := records[id].(status := status)];
    }

    /** The entry's `release()`. */
    ghost method CallRelease(ticket: S.Ticket)
      modifies this`places, this`released
      ensures Abs() == S.Release(old(Abs()), ticket)
    {
      released := released + [ticket];
      places := places[ticket := S.Released];
    }

    method PushEntry(id: S.AgentId, pool: S.Pool, kind: S.EntryKind)
      modifies this`queue, this`nextTicket, this`places
      ensures Abs() == S.Enqueue(old(Abs()), id, pool, kind)
    {
      queue := queue + [S.Entry(id, pool, kind, nextTicket)];
      places := places[nextTicket := S.InQueue];
      nextTicket := nextTicket + 1;
    }

    /** `dequeue`: release what the predicate picks, keep the rest in order. */
    method Dequeue(pick: S.Pick)
      modifies this`queue, this`places, this`released
      ensures Abs() == S.Dequeue(old(Abs()), pick)
    {
      var kept: seq<S.Entry> := [];
      ghost var gone: seq<S.Ticket> := [];
      ghost var before := places;
      for i := 0 to |queue|
        invariant queue == old(queue)
        invariant kept == S.Kept(queue[..i], pick)
        invariant gone == S.PickedTickets(queue[..i], pick)
        invariant released == old(released) + gone
        invariant places == S.PlacesAfterRelease(before, gone)
      {
        assert queue[..i + 1][..i] == queue[..i];
        if S.Picks(pick, queue[i]) {
          PlacesAfterOne(before, gone, queue[i].ticket);
          CallRelease(queue[i].ticket);
          gone := gone + [queue[i].ticket];
        } else {
          kept := kept + [queue[i]];
        }
      }
      assert queue[..|queue|] == queue;
      queue := kept;
    }

    /** Index of the first queued entry whose own pool has room. */
    method FindEntryWithRoom() returns (i: nat)
      ensures i == S.FirstWithRoom(Abs(), queue)
    {
      i := 0;
      while i < |queue|
        invariant i <= |queue|
        invariant S.FirstWithRoom(Abs(), queue) == i + S.FirstWithRoom(Abs(), queue[i..])
      {
        var room := PoolHasRoom(queue[i].pool);
        if room {
          return;
        }
        assert queue[i..][1..] == queue[i + 1..];
        i := i + 1;
      }
    }

    // -------------------------------------------------------------- starting

    method BeginRun(id: S.AgentId, pool: Option<S.Pool>, env: S.Env)
      requires id in records
      modifies this
      ensures Abs() == S.BeginRun(old(Abs()), id, pool, env)
    {
      if id in env.abortedSignals && id in agents {
        SetStatus(id, S.Stopped);
      }
      Suspend(S.AgentRun(id, pool));
    }

    /** `startAgent` up to its first await: take the running state and the slot before it. */
    method StartAgent(id: S.AgentId, origin: S.Origin, env: S.Env)
      requires id in records
      modifies this
      ensures Abs() == S.StartAgent(old(Abs()), id, origin, env)
    {
      if id in env.badCwd {
        Suspend(S.StartupRejected(id, origin));
        return;
      }
      var isolated := records[id].isolated;
      var pool := PoolFor(records[id]);
      SetStatus(id, S.Running);
      TakeSlot(pool);
      if isolated && env.worktrees {
        Suspend(S.CopyingRepo(id, pool, origin));
      } else {
        BeginRun(id, pool, env);
        Suspend(S.StartupResolved(id, origin));
      }
    }

    method StartResume(id: S.AgentId)
      requires id in records
      modifies this
      ensures Abs() == S.StartResume(old(Abs()), id)
    {
      if !records[id].hasSession {
        return;
      }
      var occupies := records[id].OccupiesPoolSlot();
      SetStatus(id, S.Running);
      if occupies {
        TakeSlot(Some(S.Background));
      }
      Suspend(S.BackgroundResume(id, occupies));
    }

    /** `drainQueue`: the earliest entry whose own pool has room, until there is none. */
    method DrainQueue(env: S.Env)
      modifies this
      ensures Abs() == S.Drain(old(Abs()), env)
    {
      var i := FindEntryWithRoom();
      while i < |queue|
        invariant i == S.FirstWithRoom(Abs(), queue)
        invariant S.Drain(Abs(), env) == S.Drain(old(Abs()), env)
        decreases |queue|
      {
        var next := queue[i];
        ghost var before := Abs();
        queue := RemoveAt(queue, i);
        if next.id in agents && next.id in records && records[next.id].status == S.Queued {
          match next.kind {
            case SpawnEntry =>
              StartAgent(next.id, S.FromQueue(next.pool, next.ticket), env);
            case ResumeEntry =>
              StartResume(next.id);
              Suspend(S.ReleasePending(next.ticket));
          }
        } else {
          CallRelease(next.ticket);
        }
        assert Abs() == S.Take(before, i, env);
        i := FindEntryWithRoom();
      }
    }

    // -------------------------------------------------------------- entry points

    method RegisterRecord(id: S.AgentId, r: S.Record)
      modifies this`records, this`agents
      ensures Abs() == S.Register(old(Abs()), id, r)
    {
      records := records[id := r];
      agents := agents + {id};
    }

    method DeferSpawn(id: S.AgentId, pool: S.Pool, signal: S.Signal)
      requires id in records
      modifies this
      ensures Abs() == S.Defer(old(Abs()), id, pool, signal)
    {
      if signal == S.AlreadyAborted {
        SetStatus(id, S.Stopped);
      } else {
        SetStatus(id, S.Queued);
        PushEntry(id, pool, S.SpawnEntry);
      }
    }

    /** `spawn`: start the agent now, or queue it when its pool has no room. */
    method Spawn(id: S.AgentId, o: S.SpawnOptions, env: S.Env)
      requires Valid() && id !in records
      modifies this
      ensures Valid() && Abs() == S.Spawn(old(Abs()), id, o, env)
    {
      SpawnKeepsInv(Abs(), id, o, env);
      SpawnWaiting(Abs(), id, o, env);
      hide NobodyForgotten, Inv, S.StartAgent, S.Defer;
      var r := S.NewRecord(o);
      RegisterRecord(id, r);
      var pool := PoolFor(r);
      if pool.Some? && !o.bypassQueue {
        var room := PoolHasRoom(pool.value);
        if !room {
          DeferSpawn(id, pool.value, o.signal);
          return;
        }
      }
      StartAgent(id, S.Immediate, env);
    }

    /** The awaited repository copy answered. */
    method OnCopySettled(k: S.TaskKey, copied: bool, env: S.Env)
      requires Valid() && Awaits(Abs(), k) && tasks[k].CopyingRepo?
      modifies this
      ensures Valid() && Abs() == S.CopySettled(old(Abs()), k, copied, env)
    {
      CopySettledKeepsInv(Abs(), k, copied, env);
      CopyWaiting(Abs(), k, copied, env);
      hide NobodyForgotten;
      var id, pool, origin := tasks[k].id, tasks[k].pool, tasks[k].origin;
      if !copied {
        ReleaseSlot(pool);
        tasks := tasks[k := S.StartupRejected(id, origin)];
      } else if records[id].status != S.Running {
        ReleaseSlot(pool);
        tasks := tasks[k := S.DiscardingCopy(id, origin)];
      } else {
        tasks := tasks[k := S.StartupResolved(id, origin)];
        BeginRun(id, pool, env);
      }
    }

    /** The copy of a run stopped in the meantime is gone. */
    method OnCopyDiscarded(k: S.TaskKey, env: S.Env)
      requires Valid() && Awaits(Abs(), k) && tasks[k].DiscardingCopy?
      modifies this
      ensures Valid() && Abs() == S.DiscardSettled(old(Abs()), k, env)
    {
      DiscardSettledKeepsInv(Abs(), k, env);
      DiscardWaiting(Abs(), k, env);
      hide NobodyForgotten;
      tasks := tasks[k := S.StartupResolved(tasks[k].id, tasks[k].origin)];
      DrainQueue(env);
    }

    /** After the startup handler: a drained start still has to wake its waiter. */
    method FinishStartup(k: S.TaskKey, origin: S.Origin)
      modifies this`tasks
      ensures Abs() == S.AwaitRelease(old(Abs()), k, origin)
    {
      match origin {
        case Immediate => tasks := tasks - {k};
        case FromQueue(_, ticket) => tasks := tasks[k := S.ReleasePending(ticket)];
      }
    }

    /** The handlers `launch` put on a startup: park a queued failure on its record,
        drop the record of an immediate one, and let the queue use the slot given back. */
    method OnStartupSettled(k: S.TaskKey, env: S.Env)
      requires Valid() && Awaits(Abs(), k) && (tasks[k].StartupRejected? || tasks[k].StartupResolved?)
      modifies this
      ensures Valid() && Abs() == S.StartupSettled(old(Abs()), k, env)
    {
      StartupSettledKeepsInv(Abs(), k, env);
      StartupWaiting(Abs(), k, env);
      hide NobodyForgotten;
      var id, origin, failed := tasks[k].id, tasks[k].origin, tasks[k].StartupRejected?;
      hide Inv;
      if failed {
        if origin.FromQueue? {
          SetStatus(id, S.Failed);
        } else {
          agents := agents - {id};
        }
      }
      FinishStartup(k, origin);
      if failed {
        DrainQueue(env);
      }
    }

    /** The promise of a drained start settled: wake whoever waits for it. */
    method OnReleaseDue(k: S.TaskKey)
      requires Valid() && k in tasks && tasks[k].ReleasePending?
      modifies this
      ensures Valid() && Abs() == S.ReleaseFired(old(Abs()), k)
    {
      ReleaseFiredKeepsInv(Abs(), k);
      ReleaseWaiting(Abs(), k);
      hide NobodyForgotten, Inv;
      var ticket := tasks[k].ticket;
      tasks := tasks - {k};
      CallRelease(ticket);
    }

    method OnSessionCreated(k: S.TaskKey)
      requires Valid() && Awaits(Abs(), k) && tasks[k].AgentRun?
      modifies this
      ensures Valid() && Abs() == S.SessionCreated(old(Abs()), k)
    {
      SessionCreatedKeepsInv(Abs(), k);
      SessionWaiting(Abs(), k);
      hide NobodyForgotten;
      var id := tasks[k].id;
      records := records[id := records[id].(hasSession := true)];
    }

    /** The run promise answered. A record stopped from outside keeps that status. */
    method OnRunFinished(k: S.TaskKey, outcome: S.Outcome)
      requires Valid() && Awaits(Abs(), k) && tasks[k].AgentRun?
      modifies this
      ensures Valid() && Abs() == S.RunFinished(old(Abs()), k, outcome)
    {
      RunFinishedKeepsInv(Abs(), k, outcome);
      RunFinishedWaiting(Abs(), k, outcome);
      hide NobodyForgotten;
      var id, pool := tasks[k].id, tasks[k].pool;
      SettleStatus(id, outcome);
      tasks := tasks[k := S.WrappingUp(id, pool)];
    }

    method SettleStatus(id: S.AgentId, outcome: S.Outcome)
      requires id in records
      modifies this`records
      ensures Abs() == S.WithStatus(old(Abs()), id, S.Settled(old(records[id].status), outcome))
    {
      if records[id].status != S.Stopped {
        match outcome {
          case Finished => SetStatus(id, S.Completed);
          case FinishedSteered => SetStatus(id, S.Steered);
          case HardAborted => SetStatus(id, S.Aborted);
          case RunFailed => SetStatus(id, S.Failed);
        }
      } else {
        SetStatus(id, S.Stopped);
      }
    }

    /** `abort(id)`: release a queued entry, or mark a running record stopped. */
    method AbortRecord(id: S.AgentId)
      modifies this
      ensures Abs() == S.Abort(old(Abs()), id)
    {
      if id in agents && id in records {
        if records[id].status == S.Queued {
          Dequeue(S.OnlyAgent(id));
          SetStatus(id, S.Stopped);
        } else if records[id].status == S.Running {
          SetStatus(id, S.Stopped);
        }
      }
    }

    /** `abortOwnedChildren`: visit every listed record and abort those `parent` owns. */
    method AbortOwnedChildren(parent: S.AgentId)
      requires QueueIsTopLevel(Abs())
      modifies this
      ensures Abs() == S.StopChildren(old(Abs()), parent)
    {
      ghost var s0 := Abs();
      var todo := set id | id in agents && id in records && records[id].parent == Some(parent);
      assert StopVisited(s0, parent, todo).records == s0.records;
      while todo != {}
        invariant Abs() == StopVisited(s0, parent, todo)
        invariant forall id :: id in todo ==> id in s0.agents && id in s0.records && s0.records[id].parent == Some(parent)
        decreases todo
      {
        var id :| id in todo;
        AbortOneChild(s0, parent, todo, id);
        AbortRecord(id);
        todo := todo - {id};
      }
      assert StopVisited(s0, parent, {}).records == S.StopChildren(s0, parent).records;
    }

    /** `settleRun` after the worktree clean-up: children, slot, drain. */
    method OnRunSettled(k: S.TaskKey, cleanupFailed: bool, env: S.Env)
      requires Valid() && Awaits(Abs(), k) && tasks[k].WrappingUp?
      modifies this
      ensures Valid() && Abs() == S.RunSettled(old(Abs()), k, cleanupFailed, env)
    {
      RunSettledKeepsInv(Abs(), k, cleanupFailed, env);
      RunSettledWaiting(Abs(), k, cleanupFailed, env);
      hide NobodyForgotten;
      SoundQueueIsTopLevel(Abs());
      hide Inv, S.StopChildren;
      var id, pool := tasks[k].id, tasks[k].pool;
      var drains := records[id].isBackground || pool.Some?;
      if cleanupFailed {
        SettleStatus(id, S.RunFailed);
      }
      AbortOwnedChildren(id);
      tasks := tasks - {k};
      ReleaseSlot(pool);
      if drains {
        DrainQueue(env);
      }
    }

    /** A resume with `isBackground`: refused while a run of the record is in flight. */
    method ResumeInBackground(id: S.AgentId) returns (accepted: bool)
      requires Valid()
      modifies this
      ensures Valid() && Abs() == S.ResumeInBackground(old(Abs()), id)
      ensures accepted == S.CanResumeInBackground(old(Abs()), id)
    {
      ResumeInBackgroundKeepsInv(Abs(), id);
      ResumeWaiting(Abs(), id);
      hide NobodyForgotten, Inv, S.StartResume;
      if id !in agents || id !in records || !records[id].hasSession {
        return false;
      }
      if records[id].status == S.Running || records[id].status == S.Queued {
        return false;
      }
      records := records[id := records[id].(isBackground := true, status := S.Queued)];
      accepted := true;
      if records[id].OccupiesPoolSlot() {
        var room := PoolHasRoom(S.Background);
        if !room {
          PushEntry(id, S.Background, S.ResumeEntry);
          return;
        }
      }
      StartResume(id);
    }

    /** A background resume settles: it recomputes the pool it gives back. */
    method OnResumeSettled(k: S.TaskKey, outcome: S.Outcome, env: S.Env)
      requires Valid() && Awaits(Abs(), k) && tasks[k].BackgroundResume?
      modifies this
      ensures Valid() && Abs() == S.ResumeSettled(old(Abs()), k, outcome, env)
    {
      ResumeSettledKeepsInv(Abs(), k, outcome, env);
      ResumeSettledWaiting(Abs(), k, outcome, env);
      hide NobodyForgotten;
      SoundQueueIsTopLevel(Abs());
      hide Inv;
      var id := tasks[k].id;
      SettleStatus(id, outcome);
      AbortOwnedChildren(id);
      tasks := tasks - {k};
      if records[id].OccupiesPoolSlot() {
        ReleaseSlot(Some(S.Background));
      }
      DrainQueue(env);
    }

    /** An inline resume takes no slot, whatever the record's status. */
    method ResumeInline(id: S.AgentId) returns (accepted: bool)
      requires Valid()
      modifies this
      ensures Valid() && Abs() == S.ResumeInline(old(Abs()), id)
      ensures accepted <==> old(id in agents && id in records && records[id].hasSession)
    {
      ResumeInlineKeepsInv(Abs(), id);
      InlineWaiting(Abs(), id);
      hide NobodyForgotten, Inv;
      accepted := id in agents && id in records && records[id].hasSession;
      if accepted {
        SetStatus(id, S.Running);
        Suspend(S.InlineResume(id));
      }
    }

    method OnInlineSettled(k: S.TaskKey, outcome: S.Outcome)
      requires Valid() && Awaits(Abs(), k) && tasks[k].InlineResume?
      modifies this
      ensures Valid() && Abs() == S.InlineSettled(old(Abs()), k, outcome)
    {
      InlineSettledKeepsInv(Abs(), k, outcome);
      InlineSettledWaiting(Abs(), k, outcome);
      hide NobodyForgotten;
      SoundQueueIsTopLevel(Abs());
      hide Inv, S.StopChildren;
      var id := tasks[k].id;
      SetStatus(id, if outcome == S.RunFailed then S.Failed else S.Completed);
      AbortOwnedChildren(id);
      tasks := tasks - {k};
    }

    method Abort(id: S.AgentId)
      requires Valid()
      modifies this
      ensures Valid() && Abs() == S.Abort(old(Abs()), id)
    {
      AbortKeepsInv(Abs(), id);
      AbortWaiting(Abs(), id);
      hide NobodyForgotten;
      AbortRecord(id);
    }

    /** `abortAll`: stop the queued agents, empty the queue, stop the running ones. */
    method AbortAll()
      requires Valid()
      modifies this
      ensures Valid() && Abs() == S.AbortAll(old(Abs()))
      ensures queue == []
    {
      AbortAllKeepsInv(Abs());
      AbortAllWaiting(Abs());
      hide NobodyForgotten, Inv;
      StopQueuedRecords();
      Dequeue(S.Everyone);
      StopRunningRecords();
    }

    method StopQueuedRecords()
      modifies this`records
      ensures Abs() == S.StopQueued(old(Abs()), |queue|)
    {
      hide Inv;
      ghost var s0 := Abs();
      assert S.StopQueued(s0, 0).records == records;
      for i := 0 to |queue|
        invariant Abs() == S.StopQueued(s0, i)
      {
        StopOneMore(s0, i);
        var id := queue[i].id;
        if id in agents && id in records {
          SetStatus(id, S.Stopped);
        }
      }
    }

    static lemma StopOneMore(s: S.State, i: nat)
      requires i < |s.queue|
      ensures var id := s.queue[i].id;
              var before := S.StopQueued(s, i);
              S.StopQueued(s, i + 1) == if id in s.agents && id in s.records then S.WithStatus(before, id, S.Stopped) else before
    {
      var id := s.queue[i].id;
      var before := S.StopQueued(s, i);
      assert S.StopQueued(s, i + 1).records
          == if id in s.agents && id in s.records then S.WithStatus(before, id, S.Stopped).records else before.records;
    }

    method StopRunningRecords()
      modifies this`records
      ensures Abs() == S.StopRunning(old(Abs()), {})
    {
      ghost var s0 := Abs();
      var todo := set id | id in agents && id in records && records[id].status == S.Running;
      assert S.StopRunning(s0, todo).records == records;
      while todo != {}
        invariant forall id :: id in todo ==> id in s0.agents && id in s0.records && s0.records[id].status == S.Running
        invariant Abs() == S.StopRunning(s0, todo)
        decreases todo
      {
        var id :| id in todo;
        SetStatus(id, S.Stopped);
        todo := todo - {id};
        assert records == S.StopRunning(s0, todo).records;
      }
    }

    /** Eviction by the clean-up timer or at a session boundary. */
    method Evict(id: S.AgentId)
      requires Valid()
      modifies this
      ensures Valid() && Abs() == S.Evict(old(Abs()), id)
    {
      EvictKeepsInv(Abs(), id);
      EvictWaiting(Abs(), id);
      hide NobodyForgotten;
      if id !in agents || id !in records || records[id].status == S.Running || records[id].status == S.Queued {
        return;
      }
      agents := agents - {id};
      records := records[id := records[id].(hasSession := false)];
    }

    method SetMaxConcurrent(n: int, env: S.Env)
      requires Valid()
      modifies this
      ensures Valid() && Abs() == S.SetMaxConcurrent(old(Abs()), n, env)
      ensures maxConcurrent >= 1
    {
      LimitsKeepInv(Abs(), n, env);
      LimitsWaiting(Abs(), n, env);
      hide NobodyForgotten;
      LimitKeptByDrain(Abs().(maxConcurrent := Max(1, n)), env);
      maxConcurrent := Max(1, n);
      DrainQueue(env);
    }

    method SetMaxConcurrentForeground(n: int, env: S.Env)
      requires Valid()
      modifies this
      ensures Valid() && Abs() == S.SetMaxConcurrentForeground(old(Abs()), n, env)
    {
      LimitsKeepInv(Abs(), n, env);
      LimitsWaiting(Abs(), n, env);
      hide NobodyForgotten;
      maxConcurrentForeground := Max(0, n);
      DrainQueue(env);
    }

    /** Tear the manager down; whoever waits on the queue is woken. */
    method Dispose()
      requires Valid()
      modifies this
      ensures Valid() && Abs() == S.Dispose(old(Abs()))
      ensures queue == [] && agents == {}
    {
      DisposeKeepsInv(Abs());
      DisposeWaiting(Abs());
      hide NobodyForgotten;
      Dequeue(S.Everyone);
      agents := {};
    }
  }
}
