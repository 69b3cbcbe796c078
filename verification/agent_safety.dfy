// Every event keeps the manager's invariant, so every run does.
module AgentSafety {
  import opened Common
  import opened AgentState
  import opened AgentInvariants
  import opened AgentDrain

  /** Nothing of `r` gained room or lost a pending drain compared with `s`. */
  ghost predicate DrainStillOwed(s: State, r: State) {
    && (forall e :: e in r.queue ==> e in s.queue || !HasRoom(r, e.pool))
    && (forall pool :: HasRoom(r, pool) ==> HasRoom(s, pool))
    && (forall k :: k in s.tasks && OwesDrain(s.tasks[k]) ==> k in r.tasks && OwesDrain(r.tasks[k]))
  }

  lemma StillInv(s: State, r: State)
    requires Inv(s) && Sound(r)
    requires DrainStillOwed(s, r) || NoEntryHasRoom(r) || DrainOwed(r)
    ensures Inv(r)
  {
    hide Sound;
    if DrainStillOwed(s, r) {
      if NoEntryHasRoom(s) {
        forall i | 0 <= i < |r.queue|
          ensures !HasRoom(r, r.queue[i].pool)
        {
          var e := r.queue[i];
          if e in s.queue {
            var j :| 0 <= j < |s.queue| && s.queue[j] == e;
          }
        }
      } else {
        var k :| k in s.tasks && OwesDrain(s.tasks[k]);
        assert k in r.tasks && OwesDrain(r.tasks[k]);
      }
    }
  }

  lemma TaskMeansNoSpawnEntry(s: State, k: TaskKey)
    requires Sound(s) && k in s.tasks && AgentOf(s.tasks[k]).Some?
    ensures NoSpawnEntryOf(s.queue, AgentOf(s.tasks[k]).value)
    ensures AgentOf(s.tasks[k]).value in s.records
  {
    hide TicketsLoose, CountersMatch;
  }

  lemma SessionMeansNoSpawnEntry(s: State, id: AgentId)
    requires Sound(s) && id in s.records && s.records[id].hasSession
    ensures NoSpawnEntryOf(s.queue, id)
  {
    hide TicketsLoose, CountersMatch;
  }

  // ---------------------------------------------------------------- primitives again

  lemma SwapKeepsSound(s: State, k: TaskKey, t: Task)
    requires Sound(s) && k in s.tasks && TaskSound(s.records, t)
    requires TicketOf(t) == TicketOf(s.tasks[k])
    requires AgentOf(t).Some? ==> AgentOf(t) == AgentOf(s.tasks[k])
    requires ChargeOf(t).None?
    ensures Sound(ReplaceTask(Discharge(s, ChargeOf(s.tasks[k])), k, t))
  {
    hide TicketsLoose, CountersMatch;
    CountersAfterSwap(s, k, t);
    TicketsAfterSwap(s, k, t);
  }

  /** A continuation handed on with the slot it holds. */
  lemma HandOverKeepsSound(s: State, k: TaskKey, t: Task)
    requires Sound(s) && k in s.tasks && TaskSound(s.records, t)
    requires TicketOf(t) == TicketOf(s.tasks[k]) && AgentOf(t) == AgentOf(s.tasks[k])
    requires ChargeOf(t) == ChargeOf(s.tasks[k])
    ensures Sound(ReplaceTask(s, k, t))
  {
    ChargedAfterSwap(s.tasks, k, t, Background);
    ChargedAfterSwap(s.tasks, k, t, Foreground);
    TicketsAfterSwap(s, k, t);
    hide TicketsLoose;
  }

  lemma RemoveKeepsSound(s: State, k: TaskKey)
    requires Sound(s) && k in s.tasks && TicketOf(s.tasks[k]).None?
    ensures Sound(Discharge(RemoveTask(s, k), ChargeOf(s.tasks[k])))
  {
    CountersAfterRemove(s, k);
    TicketsAfterRemove(s, k);
    hide TicketsLoose, CountersMatch;
  }

  lemma AwaitReleaseKeepsSound(s: State, k: TaskKey, origin: Origin)
    requires Sound(s) && k in s.tasks && TicketOf(s.tasks[k]) == OriginTicket(origin) && ChargeOf(s.tasks[k]).None?
    ensures Sound(AwaitRelease(s, k, origin))
  {
    hide Sound;
    match origin
    case Immediate => RemoveKeepsSound(s, k);
    case FromQueue(_, ticket) => SwapKeepsSound(s, k, ReleasePending(ticket));
  }

  lemma StopChildrenKeepsSound(s: State, parent: AgentId)
    requires Sound(s)
    ensures Sound(StopChildren(s, parent))
  {
    hide TicketsLoose, CountersMatch;
  }

  lemma EnqueueKeepsSound(s: State, id: AgentId, pool: Pool, kind: EntryKind)
    requires Sound(s) && EntrySound(s.records, s.agents, s.tasks, Entry(id, pool, kind, s.nextTicket))
    requires forall e :: e in s.queue && e.id == id ==> e.kind == ResumeEntry && kind == ResumeEntry
    ensures Sound(Enqueue(s, id, pool, kind))
  {
    TicketsAfterEnqueue(s, id, pool, kind);
    hide TicketsLoose, CountersMatch, TasksSound;
    var r := Enqueue(s, id, pool, kind);
    assert forall e :: e in r.queue ==> e in s.queue || e == Entry(id, pool, kind, s.nextTicket);
    assert forall i :: 0 <= i < |s.queue| ==> s.queue[i] in s.queue;
  }

  lemma DequeueKeepsSound(s: State, pick: Pick)
    requires Sound(s)
    ensures Sound(Dequeue(s, pick))
    ensures forall e :: e in Dequeue(s, pick).queue <==> e in s.queue && !Picks(pick, e)
  {
    TicketsAfterDequeue(s, pick);
    KeptMeaning(s.queue, pick);
    hide TicketsLoose, CountersMatch, TasksSound;
    KeptPairs(s.queue, pick);
    var kept := Kept(s.queue, pick);
    forall i, j | 0 <= i < j < |kept| && kept[i].id == kept[j].id
      ensures kept[i].kind == ResumeEntry && kept[j].kind == ResumeEntry
    {
      assert Before(s.queue, kept[i], kept[j]);
    }
  }

  ghost predicate Before(q: seq<Entry>, x: Entry, y: Entry) {
    exists a, b :: 0 <= a < b < |q| && q[a] == x && q[b] == y
  }

  /** What `dequeue` keeps stays in the order it had. */
  lemma {:induction false} KeptPairs(q: seq<Entry>, pick: Pick)
    ensures forall i, j :: 0 <= i < j < |Kept(q, pick)| ==> Before(q, Kept(q, pick)[i], Kept(q, pick)[j])
  {
    if q != [] {
      var p := q[..|q| - 1];
      KeptPairs(p, pick);
      KeptMeaning(p, pick);
      var kept := Kept(q, pick);
      forall i, j | 0 <= i < j < |kept|
        ensures Before(q, kept[i], kept[j])
      {
        if j < |Kept(p, pick)| {
          assert Before(p, Kept(p, pick)[i], Kept(p, pick)[j]);
          var a, b :| 0 <= a < b < |p| && p[a] == kept[i] && p[b] == kept[j];
          assert q[a] == kept[i] && q[b] == kept[j];
        } else {
          assert kept[i] in p;
          var a :| 0 <= a < |p| && p[a] == kept[i];
          assert q[a] == kept[i] && q[|q| - 1] == kept[j];
        }
      }
    }
  }

  lemma {:induction false} KeptByEveryone(q: seq<Entry>)
    ensures Kept(q, Everyone) == []
  {
    if q != [] {
      KeptByEveryone(q[..|q| - 1]);
    }
  }

  /** With nothing queued, records may change in any harmless way. */
  lemma RecordsKeepSound(s: State, records: map<AgentId, Record>)
    requires Sound(s) && s.queue == [] && records.Keys == s.records.Keys
    requires forall id :: id in s.records ==> HarmlessUpdate(s.records[id], records[id])
    ensures Sound(s.(records := records))
  {
    hide TicketsLoose, CountersMatch;
  }

  /** The queue stays, no pool gains room, and suspended continuations are only added. */
  ghost predicate Extends(s: State, r: State) {
    && r.queue == s.queue
    && (forall pool :: HasRoom(r, pool) ==> HasRoom(s, pool))
    && (forall k :: k in s.tasks ==> k in r.tasks && r.tasks[k] == s.tasks[k])
  }

  lemma AddTaskExtends(s: State, r: State, t: Task)
    requires Extends(s, r) && forall k :: k in r.tasks ==> k < r.nextTask
    ensures Extends(s, AddTask(r, t)) && forall k :: k in AddTask(r, t).tasks ==> k < AddTask(r, t).nextTask
  {
  }

  lemma ChargedExtends(s: State, id: AgentId, status: Status, pool: Option<Pool>)
    requires id in s.records
    ensures var r := Charge(WithStatus(s, id, status), pool);
            Extends(s, r) && r.tasks == s.tasks && r.nextTask == s.nextTask && id in r.records
  {
  }

  lemma StartAgentFrame(s: State, id: AgentId, origin: Origin, env: Env)
    requires id in s.records && forall k :: k in s.tasks ==> k < s.nextTask
    ensures Extends(s, StartAgent(s, id, origin, env))
  {
    hide AddTask, Extends, Charge, WithStatus, PoolFor;
    SameExtends(s);
    if id in env.badCwd {
      AddTaskExtends(s, s, StartupRejected(id, origin));
    } else {
      var pool := PoolFor(s, s.records[id]);
      var started := Charge(WithStatus(s, id, Running), pool);
      ChargedExtends(s, id, Running, pool);
      AddTaskExtends(s, started, CopyingRepo(id, pool, origin));
      StatusExtends(s, started, id, Stopped);
      var begun := if id in env.abortedSignals && id in started.agents then WithStatus(started, id, Stopped) else started;
      AddTaskExtends(s, begun, AgentRun(id, pool));
      AddTaskExtends(s, AddTask(begun, AgentRun(id, pool)), StartupResolved(id, origin));
    }
  }

  lemma SameExtends(s: State)
    ensures Extends(s, s)
  {
  }

  lemma StatusExtends(s: State, r: State, id: AgentId, status: Status)
    requires Extends(s, r) && id in r.records
    ensures Extends(s, WithStatus(r, id, status)) && WithStatus(r, id, status).tasks == r.tasks && WithStatus(r, id, status).nextTask == r.nextTask
  {
  }

  // ---------------------------------------------------------------- events

  lemma SpawnedRecordKeepsSound(s: State, id: AgentId, r: Record)
    requires Sound(s) && id !in s.records
    ensures Sound(Register(s, id, r))
    ensures Untouched(s.tasks, id) && forall e :: e in s.queue ==> e.id != id
  {
    hide TicketsLoose, CountersMatch;
  }

  lemma SpawnKeepsInv(s: State, id: AgentId, o: SpawnOptions, env: Env)
    requires Inv(s) && id !in s.records
    ensures Inv(Spawn(s, id, o, env))
  {
    var r := NewRecord(o);
    var s1 := Register(s, id, r);
    SpawnedRecordKeepsSound(s, id, r);
    hide SoundLoose;
    var pool := PoolFor(s1, r);
    if pool.Some? && !o.bypassQueue && !HasRoom(s1, pool.value) {
      if o.signal == AlreadyAborted {
        StatusKeepsSound(s1, id, Stopped, {});
      } else {
        StatusKeepsSound(s1, id, Queued, {});
        EnqueueKeepsSound(WithStatus(s1, id, Queued), id, pool.value, SpawnEntry);
      }
    } else {
      StartAgentKeepsSound(s1, id, Immediate, env);
      FreshTaskKey(s);
      StartAgentFrame(s1, id, Immediate, env);
    }
    StillInv(s, Spawn(s, id, o, env));
  }

  lemma FreshTaskKey(s: State)
    requires Sound(s)
    ensures forall k :: k in s.tasks ==> k < s.nextTask
  {
  }

  /** The copy failed, or its run was stopped meanwhile: the slot comes back and a drain is owed. */
  lemma CopyGivenUpKeepsInv(s: State, k: TaskKey, t: Task)
    requires Inv(s) && k in s.tasks && s.tasks[k].CopyingRepo? && s.tasks[k].id in s.records
    requires t == StartupRejected(s.tasks[k].id, s.tasks[k].origin) || t == DiscardingCopy(s.tasks[k].id, s.tasks[k].origin)
    ensures Inv(ReplaceTask(Discharge(s, ChargeOf(s.tasks[k])), k, t))
  {
    hide SoundLoose, NoEntryHasRoom;
    TaskMeansNoSpawnEntry(s, k);
    FreshTaskKey(s);
    SwapKeepsSound(s, k, t);
    var r := ReplaceTask(Discharge(s, ChargeOf(s.tasks[k])), k, t);
    assert OwesDrain(r.tasks[k]);
  }

  lemma CopyLandedKeepsInv(s: State, k: TaskKey, env: Env)
    requires Inv(s) && k in s.tasks && s.tasks[k].CopyingRepo? && s.tasks[k].id in s.records
    requires s.records[s.tasks[k].id].status == Running
    ensures Inv(CopySettled(s, k, true, env))
  {
    hide SoundLoose, NoEntryHasRoom;
    var CopyingRepo(id, pool, origin) := s.tasks[k];
    TaskMeansNoSpawnEntry(s, k);
    FreshTaskKey(s);
    var r := CopySettled(s, k, true, env);
    var x := ReplaceTask(Discharge(s, pool), k, StartupResolved(id, origin));
    SwapKeepsSound(s, k, StartupResolved(id, origin));
    BeginRunKeepsSound(x, id, pool, env, {});
    assert r == BeginRun(Charge(x, pool), id, pool, env);
    StillInv(s, r);
  }

  lemma CopySettledKeepsInv(s: State, k: TaskKey, copied: bool, env: Env)
    requires Inv(s) && k in s.tasks && s.tasks[k].CopyingRepo? && s.tasks[k].id in s.records
    ensures Inv(CopySettled(s, k, copied, env))
  {
    hide Inv, BeginRun;
    var CopyingRepo(id, pool, origin) := s.tasks[k];
    if copied && s.records[id].status == Running {
      CopyLandedKeepsInv(s, k, env);
    } else {
      CopyGivenUpKeepsInv(s, k, if copied then DiscardingCopy(id, origin) else StartupRejected(id, origin));
    }
  }

  lemma DiscardSettledKeepsInv(s: State, k: TaskKey, env: Env)
    requires Inv(s) && k in s.tasks && s.tasks[k].DiscardingCopy?
    ensures Inv(DiscardSettled(s, k, env))
    ensures WithinLimits(s) ==> WithinLimits(DiscardSettled(s, k, env))
  {
    TaskMeansNoSpawnEntry(s, k);
    hide SoundLoose;
    SwapKeepsSound(s, k, StartupResolved(s.tasks[k].id, s.tasks[k].origin));
    DrainKeepsAll(ReplaceTask(s, k, StartupResolved(s.tasks[k].id, s.tasks[k].origin)), env);
  }

  lemma UnlistKeepsSound(s: State, id: AgentId)
    requires Sound(s) && NoSpawnEntryOf(s.queue, id)
    ensures Sound(s.(agents := s.agents - {id}))
  {
    hide TicketsLoose, CountersMatch;
  }

  lemma StartupSettledKeepsInv(s: State, k: TaskKey, env: Env)
    requires Inv(s) && k in s.tasks && (s.tasks[k].StartupRejected? || s.tasks[k].StartupResolved?)
    requires s.tasks[k].id in s.records
    ensures Inv(StartupSettled(s, k, env))
    ensures WithinLimits(s) ==> WithinLimits(StartupSettled(s, k, env))
  {
    hide SoundLoose;
    var id, origin := s.tasks[k].id, s.tasks[k].origin;
    TaskMeansNoSpawnEntry(s, k);
    if s.tasks[k].StartupResolved? {
      AwaitReleaseKeepsSound(s, k, origin);
      StillInv(s, StartupSettled(s, k, env));
    } else {
      var s1 := if origin.FromQueue? then WithStatus(s, id, Failed) else s.(agents := s.agents - {id});
      if origin.FromQueue? {
        StatusKeepsSound(s, id, Failed, {});
      } else {
        UnlistKeepsSound(s, id);
      }
      AwaitReleaseKeepsSound(s1, k, origin);
      DrainKeepsAll(AwaitRelease(s1, k, origin), env);
    }
  }

  lemma ReleaseFiredKeepsSound(s: State, k: TaskKey)
    requires Sound(s) && k in s.tasks && s.tasks[k].ReleasePending?
    ensures Sound(ReleaseFired(s, k))
  {
    hide TicketsLoose, CountersMatch;
    TicketsAfterReleaseFired(s, k);
    CountersAfterRemove(s, k);
  }

  lemma ReleaseFiredKeepsInv(s: State, k: TaskKey)
    requires Inv(s) && k in s.tasks && s.tasks[k].ReleasePending?
    ensures Inv(ReleaseFired(s, k))
  {
    hide Sound;
    ReleaseFiredKeepsSound(s, k);
    StillInv(s, ReleaseFired(s, k));
  }

  lemma SessionCreatedKeepsInv(s: State, k: TaskKey)
    requires Inv(s) && k in s.tasks && s.tasks[k].AgentRun? && s.tasks[k].id in s.records
    ensures Inv(SessionCreated(s, k))
    ensures WithinLimits(s) ==> WithinLimits(SessionCreated(s, k))
  {
    hide SoundLoose;
    TaskMeansNoSpawnEntry(s, k);
    var id := s.tasks[k].id;
    UpdateKeepsSound(s, id, s.records[id].(hasSession := true), {});
    StillInv(s, SessionCreated(s, k));
  }

  lemma RunFinishedKeepsInv(s: State, k: TaskKey, outcome: Outcome)
    requires Inv(s) && k in s.tasks && s.tasks[k].AgentRun? && s.tasks[k].id in s.records
    ensures Inv(RunFinished(s, k, outcome))
    ensures WithinLimits(s) ==> WithinLimits(RunFinished(s, k, outcome))
  {
    hide SoundLoose;
    TaskMeansNoSpawnEntry(s, k);
    var AgentRun(id, pool) := s.tasks[k];
    var s1 := WithStatus(s, id, Settled(s.records[id].status, outcome));
    StatusKeepsSound(s, id, Settled(s.records[id].status, outcome), {});
    HandOverKeepsSound(s1, k, WrappingUp(id, pool));
    StillInv(s, RunFinished(s, k, outcome));
  }

  lemma RunSettledKeepsInv(s: State, k: TaskKey, cleanupFailed: bool, env: Env)
    requires Inv(s) && k in s.tasks && s.tasks[k].WrappingUp? && s.tasks[k].id in s.records
    ensures Inv(RunSettled(s, k, cleanupFailed, env))
    ensures WithinLimits(s) ==> WithinLimits(RunSettled(s, k, cleanupFailed, env))
  {
    hide SoundLoose;
    TaskMeansNoSpawnEntry(s, k);
    var WrappingUp(id, pool) := s.tasks[k];
    var s0 := if cleanupFailed then WithStatus(s, id, Settled(s.records[id].status, RunFailed)) else s;
    StatusKeepsSound(s, id, Settled(s.records[id].status, RunFailed), {});
    StopChildrenKeepsSound(s0, id);
    var s1 := StopChildren(s0, id);
    RemoveKeepsSound(s1, k);
    var s2 := Discharge(RemoveTask(s1, k), pool);
    if s.records[id].isBackground || pool.Some? {
      DrainKeepsAll(s2, env);
    } else {
      StillInv(s, s2);
    }
  }

  lemma ResumeInBackgroundKeepsInv(s: State, id: AgentId)
    requires Inv(s)
    ensures Inv(ResumeInBackground(s, id))
    ensures WithinLimits(s) ==> WithinLimits(ResumeInBackground(s, id))
  {
    hide SoundLoose;
    if CanResumeInBackground(s, id) {
      SessionMeansNoSpawnEntry(s, id);
      FreshTaskKey(s);
      var r := s.records[id].(isBackground := true, status := Queued);
      var s1 := s.(records := s.records[id := r]);
      UpdateKeepsSound(s, id, r, {});
      if r.OccupiesPoolSlot() && !HasRoom(s1, Background) {
        EnqueueKeepsSound(s1, id, Background, ResumeEntry);
      } else {
        StartResumeKeepsSound(s1, id, {});
      }
      StillInv(s, ResumeInBackground(s, id));
    }
  }

  /** The pool a resume gives back is the one it was charged to. */
  lemma ResumeChargeIsStable(s: State, k: TaskKey)
    requires Sound(s) && k in s.tasks && s.tasks[k].BackgroundResume?
    ensures s.tasks[k].id in s.records
    ensures ChargeOf(s.tasks[k]) == if s.records[s.tasks[k].id].OccupiesPoolSlot() then Some(Background) else None
  {
    assert TaskSound(s.records, s.tasks[k]);
  }

  lemma ResumeSettledKeepsInv(s: State, k: TaskKey, outcome: Outcome, env: Env)
    requires Inv(s) && k in s.tasks && s.tasks[k].BackgroundResume? && s.tasks[k].id in s.records
    ensures Inv(ResumeSettled(s, k, outcome, env))
    ensures WithinLimits(s) ==> WithinLimits(ResumeSettled(s, k, outcome, env))
  {
    hide SoundLoose;
    TaskMeansNoSpawnEntry(s, k);
    ResumeChargeIsStable(s, k);
    var id := s.tasks[k].id;
    var s0 := WithStatus(s, id, Settled(s.records[id].status, outcome));
    StatusKeepsSound(s, id, Settled(s.records[id].status, outcome), {});
    StopChildrenKeepsSound(s0, id);
    var s1 := StopChildren(s0, id);
    RemoveKeepsSound(s1, k);
    DrainKeepsAll(Discharge(RemoveTask(s1, k), ChargeOf(s.tasks[k])), env);
  }

  lemma ResumeInlineKeepsInv(s: State, id: AgentId)
    requires Inv(s)
    ensures Inv(ResumeInline(s, id))
    ensures WithinLimits(s) ==> WithinLimits(ResumeInline(s, id))
  {
    hide SoundLoose;
    if id in s.agents && id in s.records && s.records[id].hasSession {
      SessionMeansNoSpawnEntry(s, id);
      FreshTaskKey(s);
      StatusKeepsSound(s, id, Running, {});
      PlainTaskKeepsSound(WithStatus(s, id, Running), InlineResume(id), {});
      StillInv(s, ResumeInline(s, id));
    }
  }

  lemma InlineSettledKeepsInv(s: State, k: TaskKey, outcome: Outcome)
    requires Inv(s) && k in s.tasks && s.tasks[k].InlineResume? && s.tasks[k].id in s.records
    ensures Inv(InlineSettled(s, k, outcome))
    ensures WithinLimits(s) ==> WithinLimits(InlineSettled(s, k, outcome))
  {
    hide SoundLoose;
    TaskMeansNoSpawnEntry(s, k);
    var id := s.tasks[k].id;
    var status := if outcome == RunFailed then Failed else Completed;
    StatusKeepsSound(s, id, status, {});
    StopChildrenKeepsSound(WithStatus(s, id, status), id);
    RemoveKeepsSound(StopChildren(WithStatus(s, id, status), id), k);
    StillInv(s, InlineSettled(s, k, outcome));
  }

  lemma AbortKeepsSound(s: State, id: AgentId)
    requires Sound(s)
    ensures Sound(Abort(s, id))
    ensures forall e :: e in Abort(s, id).queue ==> e in s.queue
  {
    hide SoundLoose;
    if id in s.agents && id in s.records {
      if s.records[id].status == Queued {
        DequeueKeepsSound(s, OnlyAgent(id));
        StatusKeepsSound(Dequeue(s, OnlyAgent(id)), id, Stopped, {});
      } else if s.records[id].status == Running {
        RunningMeansNoSpawnEntry(s, id);
        StatusKeepsSound(s, id, Stopped, {});
      }
    }
  }

  lemma AbortKeepsInv(s: State, id: AgentId)
    requires Inv(s)
    ensures Inv(Abort(s, id))
    ensures WithinLimits(s) ==> WithinLimits(Abort(s, id))
  {
    hide SoundLoose;
    AbortKeepsSound(s, id);
    StillInv(s, Abort(s, id));
  }

  // ---------------------------------------------------------------- owned children

  lemma {:induction false} DequeueNobody(q: seq<Entry>, pick: Pick)
    requires forall e :: e in q ==> !Picks(pick, e)
    ensures Kept(q, pick) == q && PickedTickets(q, pick) == []
  {
    if q != [] {
      assert q[|q| - 1] in q;
      DequeueNobody(q[..|q| - 1], pick);
    }
  }

  /** `abortOwnedChildren` part-way: the children in `todo` have yet to be visited. */
  function StopVisited(s: State, parent: AgentId, todo: set<AgentId>): State {
    s.(records := map id | id in s.records ::
         if IsLiveChild(s, parent, id) && id !in todo then s.records[id].(status := Stopped) else s.records[id])
  }

  /** No queue entry belongs to an owned child. */
  ghost predicate QueueIsTopLevel(s: State) {
    forall e :: e in s.queue && e.id in s.records ==> s.records[e.id].parent.None?
  }

  lemma SoundQueueIsTopLevel(s: State)
    requires Sound(s)
    ensures QueueIsTopLevel(s)
  {
    hide TicketsLoose, CountersMatch, TasksSound;
  }

  lemma ChildHasNoEntry(s: State, v: State, id: AgentId)
    requires QueueIsTopLevel(s) && id in s.records && s.records[id].parent.Some?
    requires v == s.(records := v.records)
    ensures Dequeue(v, OnlyAgent(id)) == v
  {
    DequeueNobody(s.queue, OnlyAgent(id));
    assert Dequeue(v, OnlyAgent(id)).places == v.places;
    assert Dequeue(v, OnlyAgent(id)).released == v.released;
  }

  lemma AbortOneChild(s: State, parent: AgentId, todo: set<AgentId>, id: AgentId)
    requires QueueIsTopLevel(s)
    requires id in todo && id in s.agents && id in s.records && s.records[id].parent == Some(parent)
    ensures Abort(StopVisited(s, parent, todo), id) == StopVisited(s, parent, todo - {id})
  {
    hide Dequeue, QueueIsTopLevel;
    var v, w := StopVisited(s, parent, todo), StopVisited(s, parent, todo - {id});
    ChildHasNoEntry(s, v, id);
    assert Abort(v, id).records == w.records;
  }

  lemma RunningMeansNoSpawnEntry(s: State, id: AgentId)
    requires Sound(s) && id in s.records && s.records[id].status != Queued
    ensures NoSpawnEntryOf(s.queue, id)
  {
    hide TicketsLoose, CountersMatch, TasksSound;
  }

  lemma AbortAllKeepsInv(s: State)
    requires Inv(s)
    ensures Inv(AbortAll(s))
    ensures WithinLimits(s) ==> WithinLimits(AbortAll(s))
    ensures AbortAll(s).queue == []
  {
    hide SoundLoose;
    KeptByEveryone(s.queue);
    DequeueKeepsSound(s, Everyone);
    var r := AbortAll(s);
    var d := Dequeue(s, Everyone);
    assert r == d.(records := r.records);
    RecordsKeepSound(d, r.records);
    StillInv(s, r);
  }

  lemma EvictKeepsInv(s: State, id: AgentId)
    requires Inv(s)
    ensures Inv(Evict(s, id))
    ensures WithinLimits(s) ==> WithinLimits(Evict(s, id))
  {
    if id in s.agents && id in s.records && s.records[id].status != Running && s.records[id].status != Queued {
      var r := Evict(s, id);
      assert Sound(r) by {
        RunningMeansNoSpawnEntry(s, id);
        hide TicketsLoose, CountersMatch;
      }
      hide SoundLoose;
      StillInv(s, r);
    }
  }

  lemma LimitsKeepInv(s: State, n: int, env: Env)
    requires Inv(s)
    ensures Inv(SetMaxConcurrent(s, n, env))
    ensures WithinLimits(s) && s.runningBackground <= Max(1, n) ==> WithinLimits(SetMaxConcurrent(s, n, env))
    ensures Inv(SetMaxConcurrentForeground(s, n, env))
    ensures WithinLimits(s) && (n <= 0 || s.runningForeground <= n) ==> WithinLimits(SetMaxConcurrentForeground(s, n, env))
  {
    DrainKeepsAll(s.(maxConcurrent := Max(1, n)), env);
    DrainKeepsAll(s.(maxConcurrentForeground := Max(0, n)), env);
  }

  lemma DisposeKeepsInv(s: State)
    requires Inv(s)
    ensures Inv(Dispose(s))
    ensures WithinLimits(s) ==> WithinLimits(Dispose(s))
    ensures Dispose(s).queue == []
  {
    KeptByEveryone(s.queue);
    DequeueKeepsSound(s, Everyone);
    var r := Dispose(s);
    assert Sound(r) by {
      hide TicketsLoose, CountersMatch;
    }
    hide SoundLoose;
    StillInv(s, r);
  }

  lemma SpawnStaysWithin(s: State, id: AgentId, o: SpawnOptions, env: Env)
    requires WithinLimits(s) && id !in s.records && !o.bypassQueue
    ensures WithinLimits(Spawn(s, id, o, env))
  {
  }

  lemma CopySettledStaysWithin(s: State, k: TaskKey, copied: bool, env: Env)
    requires WithinLimits(s) && k in s.tasks && s.tasks[k].CopyingRepo? && s.tasks[k].id in s.records
    ensures WithinLimits(CopySettled(s, k, copied, env))
  {
  }
}
