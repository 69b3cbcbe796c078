// What a caller of the subagent manager finds afterwards: who waits, who runs, and how each agent ends.
module AgentOutcomes {
  import opened Common
  import opened AgentState
  import opened AgentInvariants
  import opened AgentDrain
  import opened AgentSafety
  import opened AgentRuns
  import opened AgentWaiting

  // ---------------------------------------------------------------- a spawn

  predicate IsOwned(o: SpawnOptions) {
    o.parent.Some? || o.inWorkflow
  }

  /** The pool the agent counts in is at its limit; owned agents and undeclared ones count in none. */
  predicate IsHeldBack(s: State, o: SpawnOptions) {
    && !IsOwned(o) && !o.bypassQueue
    && if o.isBackground then s.runningBackground >= s.maxConcurrent
       else o.blocking && 0 < s.maxConcurrentForeground <= s.runningForeground
  }

  /** The slot a start takes. */
  function SlotOf(isBackground: bool, blocking: bool, owned: bool, foregroundLimit: int): Option<Pool> {
    if owned then None
    else if isBackground then Some(Background)
    else if blocking && foregroundLimit > 0 then Some(Foreground) else None
  }

  function OneIf(b: bool): int {
    if b then 1 else 0
  }

  /** What the manager holds of an agent it was given. */
  predicate IsNewcomer(r: Record, o: SpawnOptions, status: Status) {
    && r.isBackground == o.isBackground && r.blocking == o.blocking && r.parent == o.parent
    && r.inWorkflow == o.inWorkflow && r.isolated == o.isolated && !r.hasSession && r.status == status
  }

  /** Only the newcomer is new. */
  predicate OnlyAdds(s: State, r: State, id: AgentId) {
    && r.agents == s.agents + {id} && id in r.records && r.records - {id} == s.records
    && r.released == s.released
    && r.maxConcurrent == s.maxConcurrent && r.maxConcurrentForeground == s.maxConcurrentForeground
  }

  predicate SameSlots(s: State, r: State) {
    r.runningBackground == s.runningBackground && r.runningForeground == s.runningForeground
  }

  predicate OneSlotMore(s: State, r: State, slot: Option<Pool>) {
    && r.runningBackground == s.runningBackground + OneIf(slot == Some(Background))
    && r.runningForeground == s.runningForeground + OneIf(slot == Some(Foreground))
  }

  /** A spawn its pool has no room for is last in the queue, in that pool, with a callback of its own; unless its
      signal has fired: then it is stopped, and nothing waits for it. */
  lemma HeldBackSpawnWaits(s: State, id: AgentId, o: SpawnOptions, env: Env)
    requires id !in s.records && IsHeldBack(s, o)
    ensures var r := Spawn(s, id, o, env);
            && OnlyAdds(s, r, id) && SameSlots(s, r) && r.tasks == s.tasks
            && if o.signal == AlreadyAborted then
                 IsNewcomer(r.records[id], o, Stopped) && r.queue == s.queue && r.nextTicket == s.nextTicket && r.places == s.places
               else
                 && IsNewcomer(r.records[id], o, Queued)
                 && r.queue == s.queue + [Entry(id, if o.isBackground then Background else Foreground, SpawnEntry, s.nextTicket)]
                 && r.nextTicket == s.nextTicket + 1 && r.places == s.places[s.nextTicket := InQueue]
  {
    assert Spawn(s, id, o, env).records - {id} == s.records;
  }

  /** What a start leaves suspended. */
  predicate HasStarted(s: State, r: State, id: AgentId, isolated: bool, slot: Option<Pool>, origin: Origin, env: Env)
    requires id in r.records
  {
    if id in env.badCwd then r.tasks == s.tasks[s.nextTask := StartupRejected(id, origin)] && SameSlots(s, r)
    else
      && OneSlotMore(s, r, slot)
      && if isolated && env.worktrees then r.records[id].status == Running && r.tasks == s.tasks[s.nextTask := CopyingRepo(id, slot, origin)]
         else
           && r.tasks == s.tasks[s.nextTask := AgentRun(id, slot)][s.nextTask + 1 := StartupResolved(id, origin)]
           && r.records[id].status == if id in env.abortedSignals && id in r.agents then Stopped else Running
  }

  /** Nothing but the record of `id`, its slot and what is suspended changes. */
  predicate OnlyStarts(s: State, r: State, id: AgentId) {
    && r.agents == s.agents && r.queue == s.queue && r.nextTicket == s.nextTicket && r.released == s.released
    && r.maxConcurrent == s.maxConcurrent && r.maxConcurrentForeground == s.maxConcurrentForeground
    && id in s.records && id in r.records && r.records == s.records[id := s.records[id].(status := r.records[id].status)]
  }

  lemma ChargeIs(s: State, slot: Option<Pool>)
    ensures var r := Charge(s, slot);
            r == s.(runningBackground := r.runningBackground, runningForeground := r.runningForeground) && OneSlotMore(s, r, slot)
  {
  }

  lemma SlotIs(s: State, a: Record)
    ensures PoolFor(s, a) == SlotOf(a.isBackground, a.blocking, a.parent.Some? || a.inWorkflow, s.maxConcurrentForeground)
  {
  }

  /** The copy is not awaited: the run and its startup are suspended. */
  lemma RunIs(s: State, id: AgentId, slot: Option<Pool>, origin: Origin, env: Env)
    requires id in s.records
    ensures var r := AddTask(BeginRun(s, id, slot, env), StartupResolved(id, origin));
            && r.tasks == s.tasks[s.nextTask := AgentRun(id, slot)][s.nextTask + 1 := StartupResolved(id, origin)]
            && SameSlots(s, r) && OnlyStarts(s, r, id) && (origin == Immediate ==> r.places == s.places)
            && r.records[id].status == if id in env.abortedSignals && id in s.agents then Stopped else s.records[id].status
  {
  }

  lemma CopyIs(s: State, id: AgentId, slot: Option<Pool>, origin: Origin)
    requires id in s.records
    ensures var r := AddTask(s, CopyingRepo(id, slot, origin));
            && r.tasks == s.tasks[s.nextTask := CopyingRepo(id, slot, origin)]
            && SameSlots(s, r) && OnlyStarts(s, r, id) && (origin == Immediate ==> r.places == s.places) && r.records == s.records
  {
  }

  lemma StartIs(s: State, id: AgentId, origin: Origin, env: Env)
    requires id in s.records
    ensures var r, a := StartAgent(s, id, origin, env), s.records[id];
            && OnlyStarts(s, r, id)
            && HasStarted(s, r, id, a.isolated, SlotOf(a.isBackground, a.blocking, a.parent.Some? || a.inWorkflow, s.maxConcurrentForeground), origin, env)
            && (id in env.badCwd ==> r.records[id].status == a.status)
            && (origin == Immediate ==> r.places == s.places)
  {
    var a := s.records[id];
    if id in env.badCwd {
      assert s.records[id := a] == s.records;
    } else {
      hide SlotOf, PoolFor, Charge, BeginRun, AddTask, OneSlotMore;
      SlotIs(s, a);
      var slot, running := PoolFor(s, a), WithStatus(s, id, Running);
      ChargeIs(running, slot);
      SlotsFromThere(s, running, Charge(running, slot), slot);
      var started := Charge(running, slot);
      RunIs(started, id, slot, origin, env);
      CopyIs(started, id, slot, origin);
    }
  }

  lemma SlotsFromThere(s: State, t: State, r: State, slot: Option<Pool>)
    requires SameSlots(s, t) && OneSlotMore(t, r, slot)
    ensures OneSlotMore(s, r, slot)
    ensures forall x: State :: SameSlots(r, x) ==> OneSlotMore(s, x, slot)
  {
  }

  /** Every other spawn starts at once and joins no queue. */
  lemma OtherSpawnStarts(s: State, id: AgentId, o: SpawnOptions, env: Env)
    requires id !in s.records && !IsHeldBack(s, o)
    ensures var r := Spawn(s, id, o, env);
            && OnlyAdds(s, r, id) && r.queue == s.queue && r.nextTicket == s.nextTicket && r.places == s.places
            && HasStarted(s, r, id, o.isolated, SlotOf(o.isBackground, o.blocking, IsOwned(o), s.maxConcurrentForeground), Immediate, env)
            && IsNewcomer(r.records[id], o, r.records[id].status)
            && (id in env.badCwd ==> r.records[id].status == if o.isBackground then Queued else Running)
  {
    hide StartAgent, HasStarted, SlotOf;
    var s1 := Register(s, id, NewRecord(o));
    StartIs(s1, id, Immediate, env);
    var r := Spawn(s, id, o, env);
    assert r == StartAgent(s1, id, Immediate, env);
    assert r.records - {id} == s.records;
    StartedFromThere(s, s1, r, id, o.isolated, SlotOf(o.isBackground, o.blocking, IsOwned(o), s.maxConcurrentForeground), env);
  }

  lemma StartedFromThere(s: State, s1: State, r: State, id: AgentId, isolated: bool, slot: Option<Pool>, env: Env)
    requires id in r.records && HasStarted(s1, r, id, isolated, slot, Immediate, env)
    requires s1.tasks == s.tasks && s1.nextTask == s.nextTask && SameSlots(s, s1)
    ensures HasStarted(s, r, id, isolated, slot, Immediate, env)
  {
  }

  // ---------------------------------------------------------------- a turn of the drain

  /** A live entry that is taken starts its agent, which takes a slot of the entry's pool (or none, if the foreground
      limit was lifted meanwhile), and owes the entry's callback; a stale one calls it at once. */
  lemma TakenEntryStarts(s: State, i: nat, env: Env)
    requires Sound(s) && i < |s.queue|
    ensures var e, r := s.queue[i], Take(s, i, env);
            && e.id in s.records && e.id in r.records && r.queue == s.queue[..i] + s.queue[i + 1..] && r.agents == s.agents
            && if !Waits(s, e.id) then r.released == s.released + [e.ticket] && r.records == s.records && r.tasks == s.tasks && SameSlots(s, r)
               else
                 && r.released == s.released
                 && r.records - {e.id} == s.records - {e.id}
                 && if e.kind == SpawnEntry then
                      HasStarted(s, r, e.id, s.records[e.id].isolated,
                                 EntrySlot(s, e), FromQueue(e.pool, e.ticket), env)
                    else
                      && r.records[e.id].status == Running && OneSlotMore(s, r, Some(Background))
                      && r.tasks == s.tasks[s.nextTask := BackgroundResume(e.id, true)][s.nextTask + 1 := ReleasePending(e.ticket)]
  {
    if !Waits(s, s.queue[i].id) {
      EntryMeans(s, i);
      hide Sound;
    } else if s.queue[i].kind == SpawnEntry {
      TakenSpawnStarts(s, i, env);
    } else {
      TakenResumeStarts(s, i, env);
    }
  }

  lemma TakenSpawnStarts(s: State, i: nat, env: Env)
    requires Sound(s) && i < |s.queue| && s.queue[i].kind == SpawnEntry && Waits(s, s.queue[i].id)
    ensures var e, r := s.queue[i], Take(s, i, env);
            && e.id in s.records && e.id in r.records && r.queue == s.queue[..i] + s.queue[i + 1..] && r.agents == s.agents
            && r.released == s.released && r.records - {e.id} == s.records - {e.id}
            && HasStarted(s, r, e.id, s.records[e.id].isolated, EntrySlot(s, e), FromQueue(e.pool, e.ticket), env)
  {
    var e, r := s.queue[i], Take(s, i, env);
    var popped := s.(queue := RemoveAt(s.queue, i));
    EntryMeans(s, i);
    SlotOfEntry(s, i);
    hide Sound, StartAgent, HasStarted, SlotOf, EntrySlot;
    StartIs(popped, e.id, FromQueue(e.pool, e.ticket), env);
    PoppedStart(s, popped, r, e.id, s.records[e.id].isolated, EntrySlot(s, e), FromQueue(e.pool, e.ticket), env);
  }

  lemma TakenResumeStarts(s: State, i: nat, env: Env)
    requires Sound(s) && i < |s.queue| && s.queue[i].kind == ResumeEntry && Waits(s, s.queue[i].id)
    ensures var e, r := s.queue[i], Take(s, i, env);
            && e.id in s.records && e.id in r.records && r.queue == s.queue[..i] + s.queue[i + 1..] && r.agents == s.agents
            && r.released == s.released && r.records - {e.id} == s.records - {e.id}
            && r.records[e.id].status == Running && OneSlotMore(s, r, Some(Background))
            && r.tasks == s.tasks[s.nextTask := BackgroundResume(e.id, true)][s.nextTask + 1 := ReleasePending(e.ticket)]
  {
    var e, r := s.queue[i], Take(s, i, env);
    EntryMeans(s, i);
    hide Sound;
    assert r.records == s.records[e.id := s.records[e.id].(status := Running)];
  }

  function EntrySlot(s: State, e: Entry): Option<Pool> {
    if e.pool == Foreground && s.maxConcurrentForeground <= 0 then None else Some(e.pool)
  }

  lemma EntryMeans(s: State, i: nat)
    requires Sound(s) && i < |s.queue|
    ensures var e := s.queue[i];
            && e.id in s.records && s.records[e.id].IsTopLevel()
            && (e.pool == Background ==> s.records[e.id].isBackground)
            && (e.pool == Foreground ==> e.kind == SpawnEntry && s.records[e.id].blocking && !s.records[e.id].isBackground)
            && (e.kind == ResumeEntry && e.id in s.agents ==> s.records[e.id].hasSession)
  {
    hide TicketsLoose, CountersMatch;
    assert EntrySound(s.records, s.agents, s.tasks, s.queue[i]);
  }

  lemma SlotOfEntry(s: State, i: nat)
    requires Sound(s) && i < |s.queue|
    ensures var e := s.queue[i];
            e.id in s.records && var a := s.records[e.id];
            SlotOf(a.isBackground, a.blocking, a.parent.Some? || a.inWorkflow, s.maxConcurrentForeground) == EntrySlot(s, e)
  {
    EntryMeans(s, i);
  }

  lemma PoppedStart(s: State, popped: State, r: State, id: AgentId, isolated: bool, slot: Option<Pool>, origin: Origin, env: Env)
    requires popped == s.(queue := popped.queue) && id in r.records && HasStarted(popped, r, id, isolated, slot, origin, env)
    ensures HasStarted(s, r, id, isolated, slot, origin, env)
  {
  }

  /** One turn touches the record of the entry it takes, and that only while it waits. */
  lemma TakeTouches(s: State, i: nat, env: Env)
    requires Sound(s) && i < |s.queue|
    ensures var r := Take(s, i, env);
            && r.agents == s.agents && r.records.Keys == s.records.Keys
            && forall id :: id in s.records && !Waits(s, id) ==> r.records[id] == s.records[id]
  {
    TakenEntryStarts(s, i, env);
    var e, r := s.queue[i], Take(s, i, env);
    hide Sound, Take, HasStarted;
    assert r.records.Keys == (r.records - {e.id}).Keys + {e.id} && s.records.Keys == (s.records - {e.id}).Keys + {e.id};
    forall id | id in s.records && !Waits(s, id)
      ensures r.records[id] == s.records[id]
    {
      if id != e.id {
        assert id in s.records - {e.id};
        assert r.records[id] == (r.records - {e.id})[id];
      }
    }
  }

  /** A drain starts waiting agents and touches no other record. */
  lemma {:induction false} DrainTouchesWaiting(s: State, env: Env)
    requires Sound(s)
    ensures var r := Drain(s, env);
            && r.agents == s.agents && r.records.Keys == s.records.Keys
            && forall id :: id in s.records && !Waits(s, id) ==> r.records[id] == s.records[id]
    decreases |s.queue|
  {
    hide Sound, Take;
    var i := FirstWithRoom(s, s.queue);
    if i < |s.queue| {
      TakeKeepsSound(s, i, env);
      TakeTouches(s, i, env);
      TakePops(s, i, env);
      DrainTouchesWaiting(Take(s, i, env), env);
    }
  }

  // ---------------------------------------------------------------- a resume in the background

  /** A record with a session that is neither running nor queued. */
  predicate IsAtRest(s: State, id: AgentId) {
    && id in s.agents && id in s.records && s.records[id].hasSession
    && s.records[id].status in {Stopped, Completed, Steered, Aborted, Failed}
  }

  /** A resume of a record in flight is refused and changes nothing. Any other makes it a background agent, which is
      last in the queue while a top-level one finds the background pool full, and runs at once if not. */
  lemma ResumeWaitsOrRuns(s: State, id: AgentId)
    ensures var r := ResumeInBackground(s, id);
            if !IsAtRest(s, id) then r == s
            else
              var a := s.records[id];
              var topLevel := a.parent.None? && !a.inWorkflow;
              var waits := topLevel && s.runningBackground >= s.maxConcurrent;
              && r.agents == s.agents && r.released == s.released
              && r.records == s.records[id := a.(isBackground := true, status := if waits then Queued else Running)]
              && if waits then
                   && r.queue == s.queue + [Entry(id, Background, ResumeEntry, s.nextTicket)] && r.nextTicket == s.nextTicket + 1
                   && r.places == s.places[s.nextTicket := InQueue] && r.tasks == s.tasks && SameSlots(s, r)
                 else
                   && r.queue == s.queue && r.nextTicket == s.nextTicket && r.tasks == s.tasks[s.nextTask := BackgroundResume(id, topLevel)]
                   && OneSlotMore(s, r, if topLevel then Some(Background) else None)
  {
    hide OneSlotMore;
    var r := ResumeInBackground(s, id);
    if CanResumeInBackground(s, id) {
      assert r.records == s.records[id := r.records[id]];
      assert OneSlotMore(s, s, None) && (!IsHeldBackResume(s, id) ==> OneSlotMore(s, r, if s.records[id].IsTopLevel() then Some(Background) else None)) by {
        ResumeSlots(s, id);
      }
    }
  }

  predicate IsHeldBackResume(s: State, id: AgentId)
    requires id in s.records
  {
    s.records[id].IsTopLevel() && s.runningBackground >= s.maxConcurrent
  }

  lemma ResumeSlots(s: State, id: AgentId)
    requires CanResumeInBackground(s, id)
    ensures OneSlotMore(s, s, None)
    ensures !IsHeldBackResume(s, id) ==> OneSlotMore(s, ResumeInBackground(s, id), if s.records[id].IsTopLevel() then Some(Background) else None)
  {
  }

  /** An inline resume runs at once and takes no slot. */
  lemma InlineResumeRuns(s: State, id: AgentId)
    ensures var r := ResumeInline(s, id);
            if id in s.agents && id in s.records && s.records[id].hasSession then
              && r.records == s.records[id := s.records[id].(status := Running)] && r.tasks == s.tasks[s.nextTask := InlineResume(id)]
              && SameSlots(s, r) && r.queue == s.queue && r.agents == s.agents
            else r == s
  {
  }

  // ---------------------------------------------------------------- the awaited copy

  /** A failed copy is a failed startup; a copy that landed for a run stopped meanwhile is discarded; in both cases the
      slot comes back. Any other copy begins the run with the slot it was charged. */
  lemma CopyDecides(s: State, k: TaskKey, copied: bool, env: Env)
    requires k in s.tasks && s.tasks[k].CopyingRepo? && s.tasks[k].id in s.records && k < s.nextTask
    ensures var r, t := CopySettled(s, k, copied, env), s.tasks[k];
            && r.queue == s.queue && r.agents == s.agents && r.released == s.released
            && if copied && s.records[t.id].status == Running then
                 && SameSlots(s, r)
                 && r.tasks == s.tasks[k := StartupResolved(t.id, t.origin)][s.nextTask := AgentRun(t.id, t.pool)]
                 && r.records == s.records[t.id := s.records[t.id].(status := if t.id in env.abortedSignals && t.id in s.agents then Stopped else Running)]
               else
                 && OneSlotMore(r, s, t.pool) && r.records == s.records
                 && r.tasks == s.tasks[k := if copied then DiscardingCopy(t.id, t.origin) else StartupRejected(t.id, t.origin)]
  {
    var t := s.tasks[k];
    if copied && s.records[t.id].status == Running {
      assert s.records[t.id := s.records[t.id].(status := Running)] == s.records;
    }
  }

  // ---------------------------------------------------------------- how an agent ends

  /** What each answer of a run makes of its agent, unless it was stopped. */
  predicate EndsAs(before: Status, outcome: Outcome, after: Status) {
    if before == Stopped then after == Stopped
    else
      && after in {Completed, Steered, Aborted, Failed}
      && (after == Completed <==> outcome == Finished) && (after == Steered <==> outcome == FinishedSteered)
      && (after == Aborted <==> outcome == HardAborted) && (after == Failed <==> outcome == RunFailed)
  }

  /** The children of a settled parent: each that was listed and running or queued is stopped, no other agent is touched. */
  predicate OnlyStopsChildren(s: State, r: State, parent: AgentId) {
    && r.records.Keys == s.records.Keys
    && forall id :: id in s.records && id != parent ==>
         if id in s.agents && s.records[id].parent == Some(parent) && s.records[id].status in {Queued, Running} then
           r.records[id] == s.records[id].(status := Stopped)
         else r.records[id] == s.records[id]
  }

  lemma RunEnds(s: State, k: TaskKey, outcome: Outcome)
    requires k in s.tasks && s.tasks[k].AgentRun? && s.tasks[k].id in s.records
    ensures var r, id := RunFinished(s, k, outcome), s.tasks[k].id;
            && r.records == s.records[id := s.records[id].(status := r.records[id].status)]
            && EndsAs(s.records[id].status, outcome, r.records[id].status)
            && r.tasks == s.tasks[k := WrappingUp(id, s.tasks[k].pool)] && SameSlots(s, r) && r.agents == s.agents && r.queue == s.queue
  {
  }

  /** The settled state just before the drain: the status of the agent, its children, its slot. */
  predicate IsSettled(s: State, t: State, k: TaskKey, id: AgentId, slot: Option<Pool>)
    requires id in s.records
  {
    && id in t.records && OnlyStopsChildren(s, t, id) && OneSlotMore(t, s, slot)
    && t.tasks == s.tasks - {k} && t.queue == s.queue && t.agents == s.agents
  }

  lemma StopChildrenIs(s: State, parent: AgentId)
    requires parent in s.records && !IsLiveChild(s, parent, parent)
    ensures OnlyStopsChildren(s, StopChildren(s, parent), parent)
    ensures StopChildren(s, parent).records[parent] == s.records[parent]
    ensures var r := StopChildren(s, parent); r == s.(records := r.records)
  {
  }

  lemma DischargeIs(s: State, slot: Option<Pool>)
    ensures var r := Discharge(s, slot);
            r == s.(runningBackground := r.runningBackground, runningForeground := r.runningForeground) && OneSlotMore(r, s, slot)
  {
  }

  /** The status is settled, the children are stopped, the slot comes back. */
  function Settle(s: State, k: TaskKey, id: AgentId, status: Status, slot: Option<Pool>): State
    requires id in s.records
  {
    Discharge(RemoveTask(StopChildren(WithStatus(s, id, status), id), k), slot)
  }

  lemma SettleIs(s: State, k: TaskKey, id: AgentId, status: Status, slot: Option<Pool>)
    requires id in s.records && s.records[id].parent != Some(id)
    ensures var t := Settle(s, k, id, status, slot); IsSettled(s, t, k, id, slot) && t.records[id] == s.records[id].(status := status)
  {
    hide Discharge, StopChildren, OneSlotMore, OnlyStopsChildren;
    var s0 := WithStatus(s, id, status);
    assert !IsLiveChild(s0, id, id);
    StopChildrenIs(s0, id);
    var s1 := StopChildren(s0, id);
    DischargeIs(RemoveTask(s1, k), slot);
    SettledFromThere(s, s0, s1, Settle(s, k, id, status, slot), k, id, slot);
  }

  /** After the clean-up: the agent keeps how it ended, or has failed if the clean-up did; its listed children in flight
      are stopped; its slot is free. The drain follows if it held a slot or ran in the background. */
  lemma SettledRunFreesItsSlot(s: State, k: TaskKey, cleanupFailed: bool, env: Env) returns (t: State)
    requires k in s.tasks && s.tasks[k].WrappingUp? && s.tasks[k].id in s.records
    requires s.records[s.tasks[k].id].parent != Some(s.tasks[k].id)
    ensures var id, pool := s.tasks[k].id, s.tasks[k].pool;
            && IsSettled(s, t, k, id, pool)
            && RunSettled(s, k, cleanupFailed, env) == (if s.records[id].isBackground || pool.Some? then Drain(t, env) else t)
            && t.records[id].status == if cleanupFailed && s.records[id].status != Stopped then Failed else s.records[id].status
  {
    hide Drain, Discharge, StopChildren, IsSettled;
    var WrappingUp(id, pool) := s.tasks[k];
    var status := if cleanupFailed && s.records[id].status != Stopped then Failed else s.records[id].status;
    SettleIs(s, k, id, status, pool);
    t := Settle(s, k, id, status, pool);
    assert s.records[id := s.records[id].(status := s.records[id].status)] == s.records;
  }

  lemma EndsAsSettled(before: Status, outcome: Outcome)
    ensures EndsAs(before, outcome, Settled(before, outcome))
  {
  }

  lemma ResumeChargeIs(s: State, k: TaskKey)
    requires Sound(s) && k in s.tasks && s.tasks[k].BackgroundResume?
    ensures s.tasks[k].id in s.records && (s.tasks[k].charged <==> s.records[s.tasks[k].id].OccupiesPoolSlot())
  {
    hide SoundLoose;
    ResumeChargeIsStable(s, k);
  }

  /** A background resume settles likewise, and always drains. */
  lemma SettledResumeFreesItsSlot(s: State, k: TaskKey, outcome: Outcome, env: Env) returns (t: State)
    requires Sound(s) && k in s.tasks && s.tasks[k].BackgroundResume? && s.tasks[k].id in s.records
    requires s.records[s.tasks[k].id].parent != Some(s.tasks[k].id)
    ensures var id := s.tasks[k].id;
            && IsSettled(s, t, k, id, if s.tasks[k].charged then Some(Background) else None)
            && ResumeSettled(s, k, outcome, env) == Drain(t, env)
            && EndsAs(s.records[id].status, outcome, t.records[id].status)
  {
    hide Sound, Drain, Discharge, StopChildren, IsSettled, EndsAs, Settled, RemoveTask, WithStatus;
    ResumeChargeIs(s, k);
    var id := s.tasks[k].id;
    EndsAsSettled(s.records[id].status, outcome);
    var slot := if s.tasks[k].charged then Some(Background) else None;
    SettleIs(s, k, id, Settled(s.records[id].status, outcome), slot);
    t := Settle(s, k, id, Settled(s.records[id].status, outcome), slot);
  }

  /** An inline resume ends completed or failed, even if it was stopped meanwhile, and holds no slot. */
  lemma InlineResumeEnds(s: State, k: TaskKey, outcome: Outcome)
    requires k in s.tasks && s.tasks[k].InlineResume? && s.tasks[k].id in s.records
    requires s.records[s.tasks[k].id].parent != Some(s.tasks[k].id)
    ensures var r, id := InlineSettled(s, k, outcome), s.tasks[k].id;
            && IsSettled(s, r, k, id, None)
            && r.records[id].status == if outcome == RunFailed then Failed else Completed
  {
    hide StopChildren, IsSettled;
    SettleIs(s, k, s.tasks[k].id, if outcome == RunFailed then Failed else Completed, None);
  }

  /** A startup that failed: one nobody queued leaves the list, a queued one ends failed and its callback is still due;
      then the drain runs. One that succeeded changes no record. */
  lemma StartupIsReported(s: State, k: TaskKey, env: Env) returns (t: State)
    requires k in s.tasks && (s.tasks[k].StartupRejected? || s.tasks[k].StartupResolved?) && s.tasks[k].id in s.records
    ensures var id, origin, failed := s.tasks[k].id, s.tasks[k].origin, s.tasks[k].StartupRejected?;
            && StartupSettled(s, k, env) == (if failed then Drain(t, env) else t)
            && t.queue == s.queue && SameSlots(s, t) && t.released == s.released
            && t.tasks == (if origin.FromQueue? then s.tasks[k := ReleasePending(origin.ticket)] else s.tasks - {k})
            && t.agents == (if failed && origin == Immediate then s.agents - {id} else s.agents)
            && t.records == if failed && origin.FromQueue? then s.records[id := s.records[id].(status := Failed)] else s.records
  {
    hide Drain;
    var id, origin := s.tasks[k].id, s.tasks[k].origin;
    var s1 := if s.tasks[k].StartupResolved? then s
              else if origin.FromQueue? then WithStatus(s, id, Failed) else s.(agents := s.agents - {id});
    t := AwaitRelease(s1, k, origin);
  }

  lemma SettledFromThere(s: State, s0: State, s1: State, t: State, k: TaskKey, id: AgentId, slot: Option<Pool>)
    requires id in s.records && id in s0.records
    requires s0 == s.(records := s.records[id := s0.records[id]]) || s0 == s
    requires OnlyStopsChildren(s0, s1, id) && s1 == s0.(records := s1.records)
    requires OneSlotMore(t, RemoveTask(s1, k), slot)
    requires t == RemoveTask(s1, k).(runningBackground := t.runningBackground, runningForeground := t.runningForeground)
    ensures IsSettled(s, t, k, id, slot)
  {
    assert id in s1.records;
  }

  // ---------------------------------------------------------------- stopping

  /** An abort stops a listed agent that is queued or running. A queued one leaves the queue, its callback is called;
      a running one keeps its slot until its run has settled. Of any other agent nothing changes. */
  lemma AbortStops(s: State, id: AgentId)
    ensures var r := Abort(s, id);
            && SameSlots(s, r) && r.tasks == s.tasks && r.agents == s.agents
            && if id in s.agents && id in s.records && s.records[id].status in {Queued, Running} then
                 && r.records == s.records[id := s.records[id].(status := Stopped)]
                 && (s.records[id].status == Running ==> r.queue == s.queue && r.released == s.released)
                 && (s.records[id].status == Queued ==>
                       && (forall e :: e in r.queue <==> e in s.queue && e.id != id)
                       && (forall e :: e in s.queue && e.id == id ==> e.ticket in r.released))
               else r == s
  {
    hide Kept, PickedTickets, PlacesAfterRelease;
    KeptMeaning(s.queue, OnlyAgent(id));
    forall e | e in s.queue && e.id == id
      ensures e.ticket in PickedTickets(s.queue, OnlyAgent(id))
    {
      PickedMeaning(s.queue, OnlyAgent(id), e.ticket);
    }
  }

  /** Aborting everything stops exactly the listed agents that run or have an entry, and calls every callback. */
  lemma AbortAllStops(s: State)
    ensures var r := AbortAll(s);
            && r.queue == [] && SameSlots(s, r) && r.tasks == s.tasks && r.agents == s.agents && r.records.Keys == s.records.Keys
            && (forall e :: e in s.queue ==> e.ticket in r.released)
            && forall id :: id in s.records ==>
                 if id in s.agents && (s.records[id].status == Running || HasEntry(s.queue, id)) then r.records[id] == s.records[id].(status := Stopped)
                 else r.records[id] == s.records[id]
  {
    hide Kept, PickedTickets, PlacesAfterRelease;
    KeptByEveryone(s.queue);
    forall e | e in s.queue
      ensures e.ticket in PickedTickets(s.queue, Everyone)
    {
      PickedMeaning(s.queue, Everyone, e.ticket);
    }
  }

  /** The events after which a stopped agent is no longer stopped. */
  predicate Revives(s: State, ev: Event, id: AgentId)
    requires Enabled(s, ev)
  {
    match ev
    case BackgroundResumeCalled(other) => other == id && IsAtRest(s, id)
    case InlineResumeCalled(other) => other == id && id in s.agents && id in s.records && s.records[id].hasSession
    case InlineResumeAnswered(k, _) => s.tasks[k].id == id
    case StartupAnswered(k, _) => s.tasks[k].id == id && s.tasks[k].StartupRejected? && s.tasks[k].origin.FromQueue?
    case _ => false
  }

  /** A stopped agent stays stopped, whatever its run still answers, until it is resumed, an inline resume of it answers,
      or its startup from the queue turns out to have failed. */
  lemma StoppedStaysIff(s: State, ev: Event, id: AgentId)
    requires Inv(s) && Enabled(s, ev) && id in s.records && s.records[id].status == Stopped
    ensures id in Step(s, ev).records
    ensures Step(s, ev).records[id].status == Stopped <==> !Revives(s, ev, id)
  {
    hide Inv, Drain;
    match ev
    case CopyDiscarded(k, env) => StoppedThroughDiscard(s, k, env, id);
    case StartupAnswered(k, env) => StoppedThroughStartup(s, k, env, id);
    case RunWrappedUp(k, cleanupFailed, env) => StoppedThroughSettle(s, k, cleanupFailed, env, id);
    case BackgroundResumeAnswered(k, outcome, env) => StoppedThroughResume(s, k, outcome, env, id);
    case LimitSet(n, env) => StoppedThroughLimit(s, s.(maxConcurrent := Max(1, n)), env, id);
    case ForegroundLimitSet(n, env) => StoppedThroughLimit(s, s.(maxConcurrentForeground := Max(0, n)), env, id);
    case DrainCalled(env) => StoppedThroughLimit(s, s, env, id);
    case _ => StoppedThroughOther(s, ev, id);
  }

  lemma StoppedThroughOther(s: State, ev: Event, id: AgentId)
    requires Enabled(s, ev) && id in s.records && s.records[id].status == Stopped
    requires !ev.CopyDiscarded? && !ev.StartupAnswered? && !ev.RunWrappedUp? && !ev.BackgroundResumeAnswered?
             && !ev.LimitSet? && !ev.ForegroundLimitSet? && !ev.DrainCalled?
    ensures id in Step(s, ev).records
    ensures Step(s, ev).records[id].status == Stopped <==> !Revives(s, ev, id)
  {
    hide Spawn, CopySettled, RunFinished, ResumeInBackground, ResumeInline, Abort, AbortAll, HasStarted, OneSlotMore, StopChildren;
    match ev
    case SpawnCalled(other, o, env) => StoppedThroughSpawn(s, other, o, env, id);
    case CopyAnswered(k, copied, env) => StoppedThroughCopy(s, k, copied, env, id);
    case RunAnswered(k, outcome) => RunEnds(s, k, outcome);
    case BackgroundResumeCalled(other) => ResumeWaitsOrRuns(s, other);
    case InlineResumeCalled(other) => InlineResumeRuns(s, other);
    case InlineResumeAnswered(k, outcome) => StoppedThroughInline(s, k, outcome, id);
    case AbortCalled(other) => AbortStops(s, other);
    case AbortAllCalled => AbortAllStops(s);
    case _ =>
  }

  lemma StoppedThroughInline(s: State, k: TaskKey, outcome: Outcome, id: AgentId)
    requires k in s.tasks && s.tasks[k].InlineResume? && s.tasks[k].id in s.records
    requires id in s.records && s.records[id].status == Stopped
    ensures var r := InlineSettled(s, k, outcome); id in r.records && (r.records[id].status == Stopped <==> s.tasks[k].id != id)
  {
    hide IsLiveChild;
    var own := s.tasks[k].id;
    var s0 := WithStatus(s, own, if outcome == RunFailed then Failed else Completed);
    assert !IsLiveChild(s0, own, own) by {
      SettledIsNoLiveChild(s0, own);
    }
  }

  lemma SettledIsNoLiveChild(s: State, id: AgentId)
    requires id in s.records && (s.records[id].status == Failed || s.records[id].status == Completed)
    ensures forall parent :: !IsLiveChild(s, parent, id)
  {
  }

  lemma StoppedThroughSpawn(s: State, other: AgentId, o: SpawnOptions, env: Env, id: AgentId)
    requires other !in s.records && id in s.records
    ensures id in Spawn(s, other, o, env).records && Spawn(s, other, o, env).records[id] == s.records[id]
  {
    hide Spawn, HasStarted;
    if IsHeldBack(s, o) {
      HeldBackSpawnWaits(s, other, o, env);
    } else {
      OtherSpawnStarts(s, other, o, env);
    }
    var r := Spawn(s, other, o, env);
    assert (r.records - {other})[id] == s.records[id];
  }

  lemma StoppedThroughCopy(s: State, k: TaskKey, copied: bool, env: Env, id: AgentId)
    requires k in s.tasks && s.tasks[k].CopyingRepo? && s.tasks[k].id in s.records
    requires id in s.records && s.records[id].status == Stopped
    ensures id in CopySettled(s, k, copied, env).records && CopySettled(s, k, copied, env).records[id].status == Stopped
  {
  }

  lemma StoppedThroughDrain(t: State, env: Env, id: AgentId)
    requires Sound(t) && id in t.records && t.records[id].status != Queued
    ensures id in Drain(t, env).records && Drain(t, env).records[id] == t.records[id]
  {
    hide Sound;
    DrainTouchesWaiting(t, env);
  }

  lemma StoppedThroughLimit(s: State, t: State, env: Env, id: AgentId)
    requires Inv(s) && t == s.(maxConcurrent := t.maxConcurrent, maxConcurrentForeground := t.maxConcurrentForeground)
    requires t.maxConcurrentForeground >= 0 || t.maxConcurrentForeground == s.maxConcurrentForeground
    requires id in s.records && s.records[id].status == Stopped
    ensures id in Drain(t, env).records && Drain(t, env).records[id].status == Stopped
  {
    hide TicketsLoose, CountersMatch, TasksSound, QueueSound;
    StoppedThroughDrain(t, env, id);
  }

  lemma StoppedThroughDiscard(s: State, k: TaskKey, env: Env, id: AgentId)
    requires Inv(s) && k in s.tasks && s.tasks[k].DiscardingCopy? && id in s.records && s.records[id].status == Stopped
    ensures id in DiscardSettled(s, k, env).records && DiscardSettled(s, k, env).records[id].status == Stopped
  {
    TaskMeansNoSpawnEntry(s, k);
    hide SoundLoose, Drain;
    SwapKeepsSound(s, k, StartupResolved(s.tasks[k].id, s.tasks[k].origin));
    StoppedThroughDrain(ReplaceTask(s, k, StartupResolved(s.tasks[k].id, s.tasks[k].origin)), env, id);
  }

  lemma StoppedThroughStartup(s: State, k: TaskKey, env: Env, id: AgentId)
    requires Inv(s) && k in s.tasks && (s.tasks[k].StartupRejected? || s.tasks[k].StartupResolved?)
    requires s.tasks[k].id in s.records && id in s.records && s.records[id].status == Stopped
    ensures var r := StartupSettled(s, k, env);
            id in r.records && (r.records[id].status == Stopped <==>
                                !(s.tasks[k].id == id && s.tasks[k].StartupRejected? && s.tasks[k].origin.FromQueue?))
  {
    TaskMeansNoSpawnEntry(s, k);
    hide SoundLoose, Drain;
    var own, origin := s.tasks[k].id, s.tasks[k].origin;
    if s.tasks[k].StartupRejected? {
      var s1 := if origin.FromQueue? then WithStatus(s, own, Failed) else s.(agents := s.agents - {own});
      if origin.FromQueue? {
        StatusKeepsSound(s, own, Failed, {});
      } else {
        UnlistKeepsSound(s, own);
      }
      AwaitReleaseKeepsSound(s1, k, origin);
      StoppedThroughDrain(AwaitRelease(s1, k, origin), env, id);
    }
  }

  lemma StoppedThroughSettle(s: State, k: TaskKey, cleanupFailed: bool, env: Env, id: AgentId)
    requires Inv(s) && k in s.tasks && s.tasks[k].WrappingUp? && s.tasks[k].id in s.records
    requires id in s.records && s.records[id].status == Stopped
    ensures id in RunSettled(s, k, cleanupFailed, env).records && RunSettled(s, k, cleanupFailed, env).records[id].status == Stopped
  {
    TaskMeansNoSpawnEntry(s, k);
    hide SoundLoose, Drain, StopChildren, Discharge;
    var WrappingUp(own, pool) := s.tasks[k];
    var s0 := if cleanupFailed then WithStatus(s, own, Settled(s.records[own].status, RunFailed)) else s;
    StatusKeepsSound(s, own, Settled(s.records[own].status, RunFailed), {});
    StopChildrenKeepsSound(s0, own);
    var s1 := StopChildren(s0, own);
    RemoveKeepsSound(s1, k);
    var t := Discharge(RemoveTask(s1, k), pool);
    StoppedChildren(s0, own, k, pool, id);
    StoppedThroughDrain(t, env, id);
  }

  lemma StoppedChildren(s: State, parent: AgentId, k: TaskKey, slot: Option<Pool>, id: AgentId)
    requires id in s.records && s.records[id].status == Stopped
    ensures var t := Discharge(RemoveTask(StopChildren(s, parent), k), slot);
            id in t.records && t.records[id].status == Stopped && (k in s.tasks ==> StopChildren(s, parent).tasks == s.tasks)
  {
  }

  lemma StoppedThroughResume(s: State, k: TaskKey, outcome: Outcome, env: Env, id: AgentId)
    requires Inv(s) && k in s.tasks && s.tasks[k].BackgroundResume? && s.tasks[k].id in s.records
    requires id in s.records && s.records[id].status == Stopped
    ensures id in ResumeSettled(s, k, outcome, env).records && ResumeSettled(s, k, outcome, env).records[id].status == Stopped
  {
    TaskMeansNoSpawnEntry(s, k);
    ResumeChargeIsStable(s, k);
    hide SoundLoose, Drain;
    var own := s.tasks[k].id;
    var s0 := WithStatus(s, own, Settled(s.records[own].status, outcome));
    StatusKeepsSound(s, own, Settled(s.records[own].status, outcome), {});
    StopChildrenKeepsSound(s0, own);
    var s1 := StopChildren(s0, own);
    RemoveKeepsSound(s1, k);
    StoppedThroughDrain(Discharge(RemoveTask(s1, k), ChargeOf(s.tasks[k])), env, id);
  }

  ghost predicate NeverRevives(s: State, run: seq<Event>, id: AgentId)
    decreases |run|
  {
    run == [] || (Enabled(s, run[0]) && !Revives(s, run[0], id) && NeverRevives(Step(s, run[0]), run[1..], id))
  }

  /** So an agent that was stopped while it ran ends stopped, over any run in which none of that happens. */
  lemma {:induction false} StoppedEndsStopped(s: State, run: seq<Event>, r: State, id: AgentId)
    requires Inv(s) && Reaches(s, run, r) && NeverRevives(s, run, id) && id in s.records && s.records[id].status == Stopped
    ensures id in r.records && r.records[id].status == Stopped
    decreases |run|
  {
    hide Inv, Revives;
    if run != [] {
      StepKeepsInv(s, run[0]);
      StoppedStaysIff(s, run[0], id);
      StoppedEndsStopped(Step(s, run[0]), run[1..], r, id);
    }
  }

  // ---------------------------------------------------------------- the list and the limits

  /** A listed agent leaves the list exactly when it is evicted at rest, its startup that nobody queued is reported as
      failed, or the manager is disposed. */
  lemma LeavesTheListIff(s: State, ev: Event, id: AgentId)
    requires Inv(s) && Enabled(s, ev) && id in s.agents
    ensures id !in Step(s, ev).agents <==>
              || ev.Disposed?
              || (ev.RecordEvicted? && ev.id == id && s.records[id].status !in {Queued, Running})
              || (ev.StartupAnswered? && s.tasks[ev.k].StartupRejected? && s.tasks[ev.k].origin == Immediate && s.tasks[ev.k].id == id)
  {
    hide Drain, TicketsLoose, CountersMatch, QueueSound, Kept, PickedTickets, PlacesAfterRelease;
    match ev
    case CopyDiscarded(k, env) => DrainKeepsList(ReplaceTask(s, k, StartupResolved(s.tasks[k].id, s.tasks[k].origin)), env);
    case StartupAnswered(k, env) => StartupKeepsList(s, k, env);
    case RunWrappedUp(k, cleanupFailed, env) => SettleKeepsList(s, k, cleanupFailed, env);
    case BackgroundResumeAnswered(k, outcome, env) => ResumeKeepsList(s, k, outcome, env);
    case LimitSet(n, env) => DrainKeepsList(s.(maxConcurrent := Max(1, n)), env);
    case ForegroundLimitSet(n, env) => DrainKeepsList(s.(maxConcurrentForeground := Max(0, n)), env);
    case DrainCalled(env) => DrainKeepsList(s, env);
    case _ =>
  }

  lemma {:induction false} DrainKeepsList(s: State, env: Env)
    ensures Drain(s, env).agents == s.agents
    decreases |s.queue|
  {
    var i := FirstWithRoom(s, s.queue);
    if i < |s.queue| {
      DrainKeepsList(Take(s, i, env), env);
    }
  }

  lemma StartupKeepsList(s: State, k: TaskKey, env: Env)
    requires k in s.tasks && (s.tasks[k].StartupRejected? || s.tasks[k].StartupResolved?) && s.tasks[k].id in s.records
    ensures StartupSettled(s, k, env).agents ==
            if s.tasks[k].StartupRejected? && s.tasks[k].origin == Immediate then s.agents - {s.tasks[k].id} else s.agents
  {
    hide Drain;
    var t := StartupIsReported(s, k, env);
    DrainKeepsList(t, env);
  }

  lemma SettleKeepsList(s: State, k: TaskKey, cleanupFailed: bool, env: Env)
    requires k in s.tasks && s.tasks[k].WrappingUp? && s.tasks[k].id in s.records
    ensures RunSettled(s, k, cleanupFailed, env).agents == s.agents
  {
    hide Drain;
    var WrappingUp(id, pool) := s.tasks[k];
    var s0 := if cleanupFailed then WithStatus(s, id, Settled(s.records[id].status, RunFailed)) else s;
    DrainKeepsList(Discharge(RemoveTask(StopChildren(s0, id), k), pool), env);
  }

  lemma ResumeKeepsList(s: State, k: TaskKey, outcome: Outcome, env: Env)
    requires k in s.tasks && s.tasks[k].BackgroundResume? && s.tasks[k].id in s.records
    ensures ResumeSettled(s, k, outcome, env).agents == s.agents
  {
    hide Drain;
    var id := s.tasks[k].id;
    var s1 := StopChildren(WithStatus(s, id, Settled(s.records[id].status, outcome)), id);
    DrainKeepsList(Discharge(RemoveTask(s1, k), if s.records[id].OccupiesPoolSlot() then Some(Background) else None), env);
  }

  /** An evicted record gives up its session, so nothing resumes it any more. */
  lemma EvictedCannotResume(s: State, id: AgentId)
    requires id in s.agents && id in s.records && s.records[id].status !in {Queued, Running}
    ensures var r := Evict(s, id);
            && r.agents == s.agents - {id} && r.records == s.records[id := s.records[id].(hasSession := false)]
            && r.queue == s.queue && r.tasks == s.tasks && SameSlots(s, r)
            && ResumeInBackground(r, id) == r && ResumeInline(r, id) == r
  {
  }

  /** A limit is what was asked for, but at least one; for the foreground zero, or less, means none. */
  lemma LimitsAreSet(s: State, n: int, env: Env)
    ensures SetMaxConcurrent(s, n, env).maxConcurrent >= 1 && (n >= 1 ==> SetMaxConcurrent(s, n, env).maxConcurrent == n)
    ensures n < 1 ==> SetMaxConcurrent(s, n, env).maxConcurrent == 1
    ensures SetMaxConcurrent(s, n, env).maxConcurrentForeground == s.maxConcurrentForeground
    ensures SetMaxConcurrentForeground(s, n, env).maxConcurrentForeground == if n > 0 then n else 0
    ensures SetMaxConcurrentForeground(s, n, env).maxConcurrent == s.maxConcurrent
  {
    hide Drain;
    LimitKeptByDrain(s.(maxConcurrent := Max(1, n)), env);
    LimitKeptByDrain(s.(maxConcurrentForeground := Max(0, n)), env);
  }

  // ---------------------------------------------------------------- what goes on

  /** A run that has opened its session can be resumed once it is at rest. */
  lemma SessionOpensResume(s: State, k: TaskKey)
    requires k in s.tasks && s.tasks[k].AgentRun? && s.tasks[k].id in s.records
    ensures var r, id := SessionCreated(s, k), s.tasks[k].id;
            && r == s.(records := s.records[id := r.records[id]]) && r.records[id] == s.records[id].(hasSession := true)
            && (id in s.agents && s.records[id].status in {Stopped, Completed, Steered, Aborted, Failed} ==> IsAtRest(r, id))
  {
    assert s.(records := s.records[s.tasks[k].id := s.records[s.tasks[k].id].(hasSession := true)]) == SessionCreated(s, k);
  }

  /** Once the copy of a stopped run is gone its startup has resolved, and the drain it owes runs. */
  lemma DiscardedGoesOn(s: State, k: TaskKey, env: Env) returns (t: State)
    requires k in s.tasks && s.tasks[k].DiscardingCopy?
    ensures DiscardSettled(s, k, env) == Drain(t, env)
    ensures t == s.(tasks := s.tasks[k := StartupResolved(s.tasks[k].id, s.tasks[k].origin)])
  {
    hide Drain;
    t := ReplaceTask(s, k, StartupResolved(s.tasks[k].id, s.tasks[k].origin));
  }

  /** The callback that was due is called, once, and its continuation ends. */
  lemma DueCallbackIsCalled(s: State, k: TaskKey)
    requires k in s.tasks && s.tasks[k].ReleasePending?
    ensures var r := ReleaseFired(s, k);
            && r.released == s.released + [s.tasks[k].ticket] && r.tasks == s.tasks - {k}
            && r.queue == s.queue && SameSlots(s, r) && r.records == s.records && r.agents == s.agents
  {
  }
}
