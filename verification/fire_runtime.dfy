// The runtime object of the routine extension: the same steps, done in place.
module FireRuntime {
  import opened Common
  import opened FireBudget
  import opened FireState
  import opened FireInvariants
  import opened FireActions
  import opened Rehydrate
  import opened FireCatchUp

  ghost predicate Always(s: State) {
    forall one :: Inv(s, one)
  }

  lemma StepKeepsAlways(s: State, e: Event)
    requires Enabled(s, e)
    ensures Always(s) ==> Always(Step(s, e))
  {
    hide Inv, Step;
    if Always(s) {
      forall one
        ensures Inv(Step(s, e), one)
      {
        StepKeepsInv(s, e, one);
      }
    }
  }

  lemma TriggerKeepsAlways(s: State, routine: RoutineId, index: nat, now: int, id: RunId, ctx: Context)
    ensures Always(s) ==> Always(TriggerFires(s, routine, index, now, id, ctx))
  {
    hide Always, TriggerFires;
    StepKeepsAlways(s, TriggerFired(routine, index, now, id, ctx));
  }

  lemma ResumeKeepsAlways(s: State, f: Firing, ctx: Context)
    ensures Always(s) ==> Always(ResumeDrain(s, f, ctx))
  {
    hide Always, ResumeDrain;
    StepKeepsAlways(s, DrainResumed(f, ctx));
  }

  lemma ShutdownKeepsAlways(s: State)
    ensures Always(s) ==> Always(Shutdown(s))
  {
    hide Always, Shutdown;
    StepKeepsAlways(s, ShutDown);
  }

  lemma DeleteKeepsAlways(s: State, routine: RoutineId)
    ensures Always(s) ==> Always(DeleteRoutine(s, routine))
  {
    hide Always, DeleteRoutine;
    StepKeepsAlways(s, RoutineDeleted(routine));
  }

  lemma PartsKeepAlways(s: State, ctx: Context)
    ensures Always(s) ==> Always(Stop(s)) && Always(StartDrain(s, ctx)) && (!s.drain.Holding? ==> Always(LoopHead(s, ctx)))
  {
    hide Inv, Stop, StartDrain, LoopHead;
    if Always(s) {
      forall one
        ensures Inv(Stop(s), one) && Inv(StartDrain(s, ctx), one) && (!s.drain.Holding? ==> Inv(LoopHead(s, ctx), one))
      {
        StopKeepsInv(s, one);
        StartDrainKeepsInv(s, ctx, one);
        if !s.drain.Holding? {
          LoopHeadKeepsInv(s, ctx, one);
        }
      }
    }
  }

  lemma PromoteKeepsAlways(s: State, ids: seq<RunId>, now: int)
    requires |ids| == |s.hooks|
    ensures Always(s) ==> Always(Promote(s, s.hooks, ids, KnownHooks(s), now))
  {
    hide Inv, Promote;
    if Always(s) {
      forall one
        ensures Inv(Promote(s, s.hooks, ids, KnownHooks(s), now), one)
      {
        PromoteKeepsInv(s, s.hooks, ids, KnownHooks(s), now, one);
      }
    }
  }

  lemma RehydrateKeepsAlways(s: State, now: int)
    requires s.queue == [] && !s.stopped && forall one :: Inv(s.(mirror := []), one)
    ensures Always(RehydrateQueue(s, now))
  {
    hide Inv, RehydrateQueue;
    assert s.(mirror := [], stopped := false) == s.(mirror := []);
    forall one
      ensures Inv(RehydrateQueue(s, now), one)
    {
      RehydrateKeepsInv(s, now, one);
    }
  }

  lemma CatchUpKeepsAlways(s: State, c: Candidate, now: int)
    ensures Always(s) ==> Always(CatchUpOne(s, c, now))
  {
    hide Inv, CatchUp;
    var missed := MissedBy(c, now);
    if Always(s) && missed.Some? {
      forall one
        ensures Inv(CatchUpOne(s, c, now), one)
      {
        CatchUpKeepsInv(s, c.routine, missed.value.index, KindOf(c.schedules[missed.value.index]), NO_PAYLOAD.(contextNote := Some(c.note)), now, c.id, one);
      }
    }
  }

  class RoutineRuntime {
    // The persisted store.
    var routines: map<RoutineId, Routine>
    var tickState: map<RoutineId, TickState>
    var pendingQueue: seq<Entry>
    var deferredHooks: seq<DeferredHook>
    // The runtime state of one session.
    var queue: seq<Entry>
    var lastEnqueueAt: map<RoutineId, int>
    var drain: Drain
    var drainWatchdog: bool
    var isRoutineTurnActive: bool
    var pendingRun: Option<PendingRun>
    // What the accounting speaks of.
    ghost var stopped: bool
    ghost var h: History

    ghost function Abs(): State
      reads this
    {
      State(routines, tickState, queue, pendingQueue, deferredHooks, lastEnqueueAt, drain, drainWatchdog,
            isRoutineTurnActive, pendingRun, stopped, h)
    }

    /** The invariant of the fire queue, and the account of every run id. */
    ghost predicate Valid()
      reads this
    {
      Always(Abs())
    }

    constructor (routines: map<RoutineId, Routine>, tickState: map<RoutineId, TickState>, deferredHooks: seq<DeferredHook>)
      ensures Valid() && Fresh(Abs()) && this.routines == routines && this.tickState == tickState && this.deferredHooks == deferredHooks
    {
      this.routines, this.tickState, this.deferredHooks := routines, tickState, deferredHooks;
      pendingQueue, queue, lastEnqueueAt := [], [], map[];
      drain, drainWatchdog, isRoutineTurnActive, pendingRun := Resting, false, false, None;
      stopped, h := false, History(multiset{}, multiset{}, multiset{}, multiset{}, multiset{});
    }

    // -------------------------------------------------------------- executor: the run log

    /** `recordRun`: push, then shift while the list is too long. */
    method RecordRow(routine: RoutineId, run: RunRecord)
      modifies this`tickState, this`h
      ensures Abs() == Log(old(Abs()), routine, run)
    {
      var t := if routine in tickState then tickState[routine] else FRESH;
      var runs := t.runs + [run];
      while |runs| > MAX_RUN_HISTORY
        invariant LastRuns(runs) == LastRuns(t.runs + [run])
        decreases |runs|
      {
        runs := runs[1..];
      }
      t := t.(runs := runs, silentTicks := SilentCounter(t.silentTicks, run), errorTicks := ErrorCounter(t.errorTicks, run));
      tickState := tickState[routine := t];
      h := h.(logged := h.logged + multiset{run.id});
    }

    method RecordSkippedFire(routine: RoutineId, id: RunId)
      modifies this`tickState, this`h
      ensures Abs() == LogSkip(old(Abs()), routine, id)
    {
      RecordRow(routine, RunRecord(id, Skipped, false));
    }

    method AuditSkippedFire(routine: RoutineId, id: RunId)
      modifies this`tickState, this`h
      ensures Abs() == Audit(old(Abs()), routine, id)
    {
      RecordSkippedFire(routine, id);
      h := h.(audited := h.audited + multiset{id});
    }

    // -------------------------------------------------------------- scheduler: the queue

    method PersistQueue()
      modifies this`pendingQueue, this`stopped
      ensures pendingQueue == Normals(queue) && !stopped
    {
      var kept: seq<Entry> := [];
      var i := |queue|;
      while i > 0
        invariant 0 <= i <= |queue|
        invariant kept == Normals(queue[i..])
      {
        i := i - 1;
        assert queue[i..][1..] == queue[i + 1..];
        if queue[i].deferred.None? {
          kept := [queue[i]] + kept;
        }
      }
      pendingQueue := kept;
      stopped := false;
    }

    method QueueHasRoutine(routine: RoutineId) returns (has: bool)
      ensures has == HasRoutine(queue, routine)
    {
      for i := 0 to |queue|
        invariant forall j :: 0 <= j < i ==> queue[j].routine != routine
      {
        if queue[i].routine == routine {
          return true;
        }
      }
      return false;
    }

    method DropQueuedFireAt(index: nat)
      requires index < |queue|
      modifies this
      ensures Abs() == DropAt(old(Abs()), index)
    {
      var dropped := queue[index];
      queue := RemoveAt(queue, index);
      PersistQueue();
      if dropped.routine in routines {
        RecordSkippedFire(dropped.routine, dropped.run);
      } else {
        h := h.(discarded := h.discarded + multiset{dropped.run});
      }
    }

    /** The backward search for the newest normal entry. */
    method OverflowVictim(priority: bool) returns (index: nat)
      requires queue != []
      ensures index == Victim(queue, priority)
    {
      index := 0;
      if priority {
        var i := |queue|;
        while i > 0 && queue[i - 1].deferred.Some?
          invariant 0 <= i <= |queue|
          invariant LastNormalEnd(queue) == LastNormalEnd(queue[..i])
        {
          assert queue[..i][..i - 1] == queue[..i - 1];
          i := i - 1;
        }
        assert queue[..|queue|] == queue;
        if i > 0 {
          index := i - 1;
        }
      }
    }

    method InsertEntry(e: Entry, priority: bool)
      modifies this`queue
      ensures queue == Insert(old(queue), e, priority)
    {
      if priority {
        var i := 0;
        while i < |queue| && queue[i].deferred.Some?
          invariant 0 <= i <= |queue|
          invariant forall j :: 0 <= j < i ==> queue[j].deferred.Some?
        {
          i := i + 1;
        }
        assert i == FirstNormal(queue);
        queue := InsertAt(queue, i, e);
      } else {
        queue := queue + [e];
      }
    }

    method EnqueueRoutineFire(e: Entry, priority: bool)
      modifies this
      ensures Abs() == Enqueue(old(Abs()), e, priority)
    {
      hide Ids, Normals, RecordRun;
      if |queue| >= MAX_QUEUE_DEPTH {
        var index := OverflowVictim(priority);
        DropQueuedFireAt(index);
      }
      InsertEntry(e, priority);
      PersistQueue();
      drainWatchdog := true;
      h := h.(issued := h.issued + multiset{e.run});
    }

    method EnqueueTriggerFire(routine: RoutineId, index: nat, now: int, id: RunId, ctx: Context)
      modifies this
      ensures Abs() == TriggerFires(old(Abs()), routine, index, now, id, ctx)
      ensures old(Valid()) ==> Valid()
    {
      hide Always, Inv, Audit, EnqueueAndDrain, HasRoutine;
      TriggerKeepsAlways(Abs(), routine, index, now, id, ctx);
      if routine !in routines {
        return;
      }
      var live := routines[routine];
      if live.paused {
        if index < |live.triggers| {
          AuditSkippedFire(routine, id);
        }
        return;
      }
      var last := if routine in lastEnqueueAt then lastEnqueueAt[routine] else 0;
      if index >= |live.triggers| {
        return;
      }
      if now - last < MULTI_TRIGGER_COLLAPSE_MS {
        AuditSkippedFire(routine, id);
        return;
      }
      lastEnqueueAt := lastEnqueueAt[routine := now];
      EnqueueUnlessBusy(Entry(routine, id, index, live.triggers[index].kind, Some(now), NO_PAYLOAD, None), ctx);
    }

    /** The in-flight and already-queued gates. */
    method EnqueueUnlessBusy(e: Entry, ctx: Context)
      modifies this
      ensures var s := old(Abs());
              Abs() == if (s.pending.Some? && s.pending.value.routine == e.routine) || HasRoutine(s.queue, e.routine)
                       then Audit(s, e.routine, e.run) else EnqueueAndDrain(s, e, ctx)
    {
      hide Audit, Enqueue, StartDrain, HasRoutine;
      var queued := QueueHasRoutine(e.routine);
      if (pendingRun.Some? && pendingRun.value.routine == e.routine) || queued {
        AuditSkippedFire(e.routine, e.run);
      } else {
        EnqueueRoutineFire(e, false);
        DrainQueue(ctx);
      }
    }

    method EnqueueFireRequest(routine: RoutineId, index: nat, payload: Payload, now: int, id: RunId, ctx: Context)
      returns (answer: Option<RunId>)
      modifies this
      ensures Abs() == Requested(old(Abs()), routine, index, payload, now, id, ctx)
      ensures answer == if routine in old(routines) && index < |old(routines)[routine].triggers| then Some(id) else None
      ensures old(Valid()) ==> Valid()
    {
      StepKeepsAlways(Abs(), FireRequested(routine, index, payload, now, id, ctx));
      if routine !in routines || index >= |routines[routine].triggers| {
        return None;
      }
      if routines[routine].paused {
        AuditSkippedFire(routine, id);
      } else {
        EnqueueRoutineFire(Entry(routine, id, index, routines[routine].triggers[index].kind, Some(now), payload, None), false);
        DrainQueue(ctx);
      }
      return Some(id);
    }

    method RoutineRunNow(routine: RoutineId, now: int, id: RunId, ctx: Context)
      modifies this
      ensures Abs() == RunNow(old(Abs()), routine, now, id, ctx)
      ensures old(Valid()) ==> Valid()
    {
      StepKeepsAlways(Abs(), RanNow(routine, now, id, ctx));
      if routine !in routines || isRoutineTurnActive {
        return;
      }
      var queued := QueueHasRoutine(routine);
      if !queued {
        EnqueueRoutineFire(Entry(routine, id, -1, Manual, Some(now), NO_PAYLOAD, None), false);
        DrainQueue(ctx);
      }
    }

    /** `rehydrateQueuedFires`: one pass over the persisted list, which is cleared up front. */
    method RehydrateQueuedFires(now: int)
      modifies this
      ensures Abs() == RehydrateQueue(old(Abs()), now)
      ensures old(queue == [] && !stopped && forall one :: Inv(Abs().(mirror := []), one)) ==> Valid()
    {
      if queue == [] && !stopped && forall one :: Inv(Abs().(mirror := []), one) {
        RehydrateKeepsAlways(Abs(), now);
      }
      hide Ids, Normals, RecordRun, FateOf, Enqueue, Audit;
      var persisted := pendingQueue;
      if |persisted| == 0 {
        return;
      }
      pendingQueue := [];
      var seenSingleFire: set<RoutineId> := {};
      for i := 0 to |persisted|
        invariant (Abs(), seenSingleFire) == RehydrateUpTo(old(Abs()).(mirror := []), persisted, i, now)
      {
        seenSingleFire := RehydrateEntry(persisted[i], seenSingleFire, now);
      }
    }

    method RehydrateEntry(entry: Entry, seen: set<RoutineId>, now: int) returns (after: set<RoutineId>)
      modifies this
      ensures (Abs(), after) == RehydrateOne(old(Abs()), seen, entry, now)
    {
      hide Ids, Normals, RecordRun, Enqueue, Audit;
      after := seen;
      if entry.routine !in routines {
        return;
      }
      var routine := routines[entry.routine];
      var queuedAt := if entry.queuedAt.Some? then entry.queuedAt.value else now;
      var isSessionStart := entry.kind == Hook && 0 <= entry.index < |routine.triggers|
                            && routine.triggers[entry.index] == Trigger(Hook, SessionStart);
      if isSessionStart || routine.paused || now - queuedAt > MAX_QUEUED_FIRE_AGE_MS {
        AuditSkippedFire(entry.routine, entry.run);
        return;
      }
      var queued := QueueHasRoutine(entry.routine);
      if entry.kind != Api && entry.kind != Github && (entry.routine in seen || queued) {
        AuditSkippedFire(entry.routine, entry.run);
        return;
      }
      after := seen + {entry.routine};
      EnqueueRoutineFire(entry.(queuedAt := Some(queuedAt), deferred := None), false);
    }

    // -------------------------------------------------------------- scheduler: the drain

    /** The loop over the routines at session start. */
    method CatchUpMissedTicks(cs: seq<Candidate>, now: int)
      modifies this
      ensures Abs() == CatchUpAll(old(Abs()), cs, now)
      ensures old(Valid()) ==> Valid()
    {
      hide Inv, CatchUpOne;
      assert cs[0..] == cs;
      for i := 0 to |cs|
        invariant CatchUpAll(Abs(), cs[i..], now) == CatchUpAll(old(Abs()), cs, now)
        invariant old(Valid()) ==> Valid()
      {
        assert cs[i..][0] == cs[i] && cs[i..][1..] == cs[i + 1..];
        CatchUpKeepsAlways(Abs(), cs[i], now);
        CatchUpRoutine(cs[i], now);
      }
    }

    method CatchUpRoutine(c: Candidate, now: int)
      modifies this
      ensures Abs() == CatchUpOne(old(Abs()), c, now)
    {
      hide Enqueue, EarliestMissed;
      CatchUpOneIs(Abs(), c, now);
      if c.routine !in routines || routines[c.routine].paused {
        return;
      }
      var queued := QueueHasRoutine(c.routine);
      if queued || (pendingRun.Some? && pendingRun.value.routine == c.routine) {
        return;
      }
      var missed := FindMissed(c.schedules, c.anchor, now);
      if missed.Some? {
        EnqueueRoutineFire(EntryOf(c, now), false);
      }
    }

    method StopScheduler()
      modifies this
      ensures Abs() == Stop(old(Abs()))
      ensures old(Valid()) ==> Valid()
    {
      hide Always;
      PartsKeepAlways(Abs(), Missing);
      drainWatchdog := false;
      stopped := stopped || queue != [];
      h := h.(stranded := h.stranded + Ids(queue));
      queue := [];
      lastEnqueueAt := map[];
    }

    method ReconcileDrainWatchdog()
      modifies this`drainWatchdog
      ensures drainWatchdog == (queue != [])
    {
      drainWatchdog := |queue| > 0;
    }

    method DrainHead(ctx: Context)
      modifies this
      ensures Abs() == LoopHead(old(Abs()), ctx)
      ensures old(Valid() && !drain.Holding?) ==> Valid()
    {
      hide Always;
      PartsKeepAlways(Abs(), ctx);
      if queue != [] && ctx.Live? && !isRoutineTurnActive && ctx.idle && !ctx.pendingMessages {
        var entry := queue[0];
        queue := queue[1..];
        PersistQueue();
        drain := Holding(entry);
        return;
      }
      if queue != [] && ctx.Stale? {
        StopScheduler();
      }
      drain := Resting;
      ReconcileDrainWatchdog();
    }

    method DrainQueue(ctx: Context)
      modifies this
      ensures Abs() == StartDrain(old(Abs()), ctx)
      ensures old(Valid()) ==> Valid()
    {
      hide Always;
      PartsKeepAlways(Abs(), ctx);
      if drain.Resting? {
        DrainHead(ctx);
      }
    }

    method RemoveDeferredHook(id: Option<HookId>)
      modifies this`deferredHooks
      ensures deferredHooks == DropHook(old(deferredHooks), id)
    {
      if id.None? {
        return;
      }
      var kept: seq<DeferredHook> := [];
      var i := |deferredHooks|;
      while i > 0
        invariant 0 <= i <= |deferredHooks|
        invariant kept == DropHook(deferredHooks[i..], id)
      {
        i := i - 1;
        assert deferredHooks[i..][1..] == deferredHooks[i + 1..];
        if deferredHooks[i].id != id.value {
          kept := [deferredHooks[i]] + kept;
        }
      }
      deferredHooks := kept;
    }

    /** The lifetime cap, then the daily one, before a turn is opened. */
    method CheckCaps(limits: Limits, tick: TickState, budgetExempt: bool, today: Date) returns (spent: bool, capped: bool)
      ensures forall q: Request, t :: OrFresh(t) == tick && q.exempt == budgetExempt && q.checked == today ==>
                && (spent <==> Fire(limits, t, q).Deleted?)
                && (capped <==> Fire(limits, t, q).Capped?)
    {
      spent := limits.maxTicks.Some? && tick.tickCount >= limits.maxTicks.value;
      capped := false;
      if !spent && limits.maxRunsPerDay.Some? && !budgetExempt {
        var usedToday := if tick.runsTodayDate == Some(today) && tick.runsToday.Some? then tick.runsToday.value else 0;
        capped := usedToday >= limits.maxRunsPerDay.value;
      }
    }

    method FireRoutine(e: Entry, f: Firing)
      requires e.routine in routines
      modifies this
      ensures Abs() == FireEntry(old(Abs()), e, f)
    {
      var limits := routines[e.routine].limits;
      var tick := if e.routine in tickState then tickState[e.routine] else FRESH;
      var budgetExempt := e.kind == Manual || e.deferred.Some?;
      ghost var s := Abs();
      ghost var q := RequestOf(e, f, !s.turn);
      ghost var result := Fire(limits, Tick(s, e.routine), q);
      var spent, capped := CheckCaps(limits, tick, budgetExempt, f.checked);
      assert q.id == e.run && q.exempt == budgetExempt && q.checked == f.checked && q.sent == f.sent;
      assert q.sends == (f.sends && !isRoutineTurnActive);
      assert OrFresh(Tick(s, e.routine)) == tick;
      FireShapes(limits, Tick(s, e.routine), q);
      hide Ids, Normals, DropHook, RecordRun, Fire, Discard, Log, RequestOf;
      if spent {
        DeleteSpent(e);
      } else if capped {
        RecordRow(e.routine, RunRecord(e.run, Skipped, false));
        assert Abs() == Log(s, e.routine, RunRecord(q.id, Skipped, false));
        LogIs(s, e.routine, RunRecord(q.id, Skipped, false));
      } else if isRoutineTurnActive || !f.sends {
        FailStart(e);
        LogIs(s, e.routine, RunRecord(q.id, Failure, false));
      } else {
        OpenTurn(e, f, tick, budgetExempt);
      }
    }

    static lemma LogIs(s: State, routine: RoutineId, run: RunRecord)
      ensures Log(s, routine, run) ==
              s.(ticks := s.ticks[routine := RecordRun(Tick(s, routine), run)], h := s.h.(logged := s.h.logged + multiset{run.id}))
    {
    }

    method DeleteSpent(e: Entry)
      modifies this
      ensures var s := old(Abs());
              Abs() == Discard(s.(hooks := DropHook(s.hooks, e.deferred), routines := s.routines - {e.routine}, ticks := s.ticks - {e.routine}), e.run)
    {
      RemoveDeferredHook(e.deferred);
      routines := routines - {e.routine};
      tickState := tickState - {e.routine};
      h := h.(discarded := h.discarded + multiset{e.run});
    }

    /** The handler of a start that threw: it releases the guard and logs the error. */
    method FailStart(e: Entry)
      modifies this
      ensures Abs() == Log(old(Abs()), e.routine, RunRecord(e.run, Failure, false)).(turn := false, pending := None)
    {
      isRoutineTurnActive := false;
      RecordRow(e.routine, RunRecord(e.run, Failure, false));
      pendingRun := None;
    }

    static lemma FireShapes(limits: Limits, t: Option<TickState>, q: Request)
      ensures Fire(limits, t, q).Capped? ==> Fire(limits, t, q).tick == RecordRun(t, RunRecord(q.id, Skipped, false))
      ensures Fire(limits, t, q).Failed? ==> !q.sends && Fire(limits, t, q).tick == RecordRun(t, RunRecord(q.id, Failure, false))
      ensures Fire(limits, t, q).Started? ==>
                q.sends && Fire(limits, t, q).tick ==
                TickState(OrFresh(t).tickCount + 1, OrFresh(t).runs,
                          Some(if q.exempt then UsedOn(OrFresh(t), q.sent) else UsedOn(OrFresh(t), q.sent) + 1), Some(q.sent), 0, 0)
    {
    }

    /** A fire that passed the caps, with the guard free and the prompt sent. */
    method OpenTurn(e: Entry, f: Firing, tick: TickState, budgetExempt: bool)
      requires e.routine in routines && tick == OrFresh(Tick(Abs(), e.routine)) && budgetExempt == (e.kind == Manual || e.deferred.Some?)
      requires Fire(routines[e.routine].limits, Tick(Abs(), e.routine), RequestOf(e, f, !isRoutineTurnActive)).Started?
      modifies this
      ensures Abs() == FireEntry(old(Abs()), e, f)
    {
      FireShapes(routines[e.routine].limits, Tick(Abs(), e.routine), RequestOf(e, f, !isRoutineTurnActive));
      hide Ids, Normals, DropHook;
      isRoutineTurnActive := true;
      pendingRun := Some(PendingRun(e.routine, e.run, Success, false, e.deferred));
      var carried := if tick.runsTodayDate == Some(f.sent) && tick.runsToday.Some? then tick.runsToday.value else 0;
      RemoveDeferredHook(e.deferred);
      tickState := tickState[e.routine := TickState(tick.tickCount + 1, tick.runs,
                                                    Some(if budgetExempt then carried else carried + 1), Some(f.sent), 0, 0)];
    }

    /** The drain after an await: fire what is in hand, or go on with the loop. */
    method ContinueDrain(f: Firing, ctx: Context)
      modifies this
      ensures Abs() == ResumeDrain(old(Abs()), f, ctx)
      ensures old(Valid()) ==> Valid()
    {
      hide Always, Inv, DropHook, LoopHead, FireEntry, LogSkip, Discard;
      ResumeKeepsAlways(Abs(), f, ctx);
      if drain.Looping? {
        DrainHead(ctx);
      } else if drain.Holding? {
        var entry := drain.entry;
        if entry.routine in routines && !(routines[entry.routine].paused && entry.kind != Manual) {
          FireRoutine(entry, f);
          drain := Looping;
        } else {
          var ends := entry.routine !in routines && entry.deferred.Some?;
          GiveUpHeld();
          if !ends {
            DrainHead(ctx);
          }
        }
      }
    }

    /** The entry in hand is not fired: its routine is gone, or paused. */
    method GiveUpHeld()
      requires drain.Holding?
      modifies this
      ensures Abs() == GivenUp(old(Abs()))
    {
      hide Ids, Normals, RecordRun, DropHook;
      var entry := drain.entry;
      RemoveDeferredHook(entry.deferred);
      if entry.routine in routines {
        RecordSkippedFire(entry.routine, entry.run);
      } else {
        h := h.(discarded := h.discarded + multiset{entry.run});
      }
      drain := Looping;
    }

    method OnWatchdogTick(ctx: Context)
      modifies this
      ensures Abs() == WatchdogTick(old(Abs()), ctx)
      ensures old(Valid()) ==> Valid()
    {
      StepKeepsAlways(Abs(), WatchdogTicked(ctx));
      if drainWatchdog {
        if |queue| == 0 {
          drainWatchdog := false;
        } else {
          DrainQueue(ctx);
        }
      }
    }

    // -------------------------------------------------------------- hooks

    method OnMessageEnd(isToken: bool, hasText: bool, opensWithToken: bool)
      modifies this`pendingRun
      ensures Abs() == MessageEnds(old(Abs()), isToken, hasText, opensWithToken)
      ensures old(Valid()) ==> Valid()
    {
      StepKeepsAlways(Abs(), MessageEnded(isToken, hasText, opensWithToken));
      if isRoutineTurnActive && pendingRun.Some? {
        var p := pendingRun.value;
        if p.routine in routines && routines[p.routine].quiet && isToken {
          pendingRun := Some(p.(status := Silent, quiet := true));
        } else if hasText {
          pendingRun := Some(p.(quiet := opensWithToken));
        }
      }
    }

    method EnqueueHookFire(p: Pick, now: int) returns (queued: bool)
      modifies this
      ensures Abs() == EnqueueHook(old(Abs()), p, now)
      ensures queued == HookIsQueued(old(Abs()), p)
      ensures old(Valid()) ==> Valid()
    {
      StepKeepsAlways(Abs(), HookPicked(p, now));
      if p.routine !in routines || !p.due {
        return false;
      }
      if |queue| >= MAX_QUEUE_DEPTH {
        AuditSkippedFire(p.routine, p.id);
        return false;
      }
      EnqueueRoutineFire(Entry(p.routine, p.id, p.index, Hook, Some(now), p.payload, None), false);
      return true;
    }

    /** The `agent_end` hook loop: stop at the first that is queued. */
    method OfferAgentEndHooks(picks: seq<Pick>, now: int, ctx: Context)
      modifies this
      ensures Abs() == OfferHooks(old(Abs()), picks, now, ctx)
      ensures old(Valid()) ==> Valid()
    {
      StepKeepsAlways(Abs(), HooksOffered(picks, now, ctx));
      if isRoutineTurnActive {
        return;
      }
      var i := 0;
      while i < |picks|
        invariant 0 <= i <= |picks| && !isRoutineTurnActive
        invariant OfferHooks(Abs(), picks[i..], now, ctx) == OfferHooks(old(Abs()), picks, now, ctx)
      {
        assert picks[i..][0] == picks[i] && picks[i..][1..] == picks[i + 1..];
        var queued := EnqueueHookFire(picks[i], now);
        if queued {
          DrainQueue(ctx);
          return;
        }
        i := i + 1;
      }
    }

    method PromoteDeferredHooks(ids: seq<RunId>, now: int)
      requires |ids| == |deferredHooks|
      modifies this
      ensures Abs() == Promote(old(Abs()), old(deferredHooks), ids, KnownHooks(old(Abs())), now)
      ensures old(Valid()) ==> Valid()
    {
      hide Always;
      PromoteKeepsAlways(Abs(), ids, now);
      var items := deferredHooks;
      var known := set i | 0 <= i < |queue| && queue[i].deferred.Some? :: queue[i].deferred.value;
      if pendingRun.Some? && pendingRun.value.deferred.Some? {
        known := known + {pendingRun.value.deferred.value};
      }
      assert known == KnownHooks(old(Abs()));
      assert items[0..] == items && ids[0..] == ids;
      var i := 0;
      while i < |items| && |queue| < MAX_QUEUE_DEPTH
        invariant 0 <= i <= |items|
        invariant Promote(Abs(), items[i..], ids[i..], known, now)
               == Promote(old(Abs()), items, ids, KnownHooks(old(Abs())), now)
      {
        var item := items[i];
        assert items[i..][0] == item && ids[i..][0] == ids[i];
        assert items[i..][1..] == items[i + 1..] && ids[i..][1..] == ids[i + 1..];
        if item.id !in known {
          known := PromoteOne(item, ids[i], known, now);
        }
        i := i + 1;
      }
    }

    method PromoteOne(item: DeferredHook, id: RunId, known: set<HookId>, now: int) returns (after: set<HookId>)
      requires item.id !in known && |queue| < MAX_QUEUE_DEPTH
      modifies this
      ensures forall items, ids :: |ids| == |items| && items != [] && items[0] == item && ids[0] == id ==>
                Promote(old(Abs()), items, ids, known, now) == Promote(Abs(), items[1..], ids[1..], after, now)
    {
      ghost var s := Abs();
      after := known;
      if item.routine in routines && item.index < |routines[item.routine].triggers|
         && routines[item.routine].triggers[item.index] == Trigger(Hook, SessionShutdown)
         && !routines[item.routine].paused {
        var e := Entry(item.routine, id, item.index, Hook, Some(now), NO_PAYLOAD.(contextNote := Some(item.note)), Some(item.id));
        EnqueueRoutineFire(e, true);
        after := known + {item.id};
      } else {
        RemoveDeferredHook(Some(item.id));
        assert Abs() == s.(hooks := DropHook(s.hooks, Some(item.id)));
        if item.routine in routines {
          AuditSkippedFire(item.routine, id);
        }
      }
    }

    method CloseRoutineTurn()
      modifies this
      ensures Abs() == CloseTurn(old(Abs()))
    {
      if isRoutineTurnActive {
        isRoutineTurnActive := false;
        if pendingRun.Some? {
          var p := pendingRun.value;
          pendingRun := None;
          RecordRow(p.routine, RunRecord(p.run, p.status, p.quiet));
        }
      }
    }

    method OnAgentEnd(hasUI: bool, ids: seq<RunId>, now: int, ctx: Context)
      requires |ids| == |deferredHooks|
      modifies this
      ensures Abs() == AgentEnds(old(Abs()), hasUI, ids, now, ctx)
      ensures old(Valid()) ==> Valid()
    {
      StepKeepsAlways(Abs(), AgentEnded(hasUI, ids, now, ctx));
      CloseRoutineTurn();
      if hasUI {
        PromoteDeferredHooks(ids, now);
      }
      DrainQueue(ctx);
    }

    method OnAgentSettled(ctx: Context)
      modifies this
      ensures Abs() == AgentSettles(old(Abs()), ctx)
      ensures old(Valid()) ==> Valid()
    {
      StepKeepsAlways(Abs(), AgentSettled(ctx));
      if !isRoutineTurnActive {
        DrainQueue(ctx);
      }
    }

    method OnSessionShutdown()
      modifies this
      ensures Abs() == Shutdown(old(Abs()))
      ensures old(Valid()) ==> Valid()
    {
      hide Always, RecordRun, Ids;
      ShutdownKeepsAlways(Abs());
      StopScheduler();
      if pendingRun.Some? {
        var p := pendingRun.value;
        pendingRun := None;
        RecordRow(p.routine, RunRecord(p.run, Failure, p.quiet));
      }
      isRoutineTurnActive := false;
    }

    // -------------------------------------------------------------- user commands

    method SetRoutinePaused(routine: RoutineId, paused: bool)
      modifies this`routines
      ensures Abs() == SetPaused(old(Abs()), routine, paused)
      ensures old(Valid()) ==> Valid()
    {
      StepKeepsAlways(Abs(), PauseSet(routine, paused));
      if routine in routines {
        routines := routines[routine := routines[routine].(paused := paused)];
      }
    }

    method KeepOthers(entries: seq<Entry>, routine: RoutineId) returns (kept: seq<Entry>)
      ensures kept == Without(entries, routine)
    {
      kept := [];
      var i := |entries|;
      while i > 0
        invariant 0 <= i <= |entries|
        invariant kept == Without(entries[i..], routine)
      {
        i := i - 1;
        assert entries[i..][1..] == entries[i + 1..];
        if entries[i].routine != routine {
          kept := [entries[i]] + kept;
        }
      }
    }

    method DropFromQueues(routine: RoutineId)
      modifies this`queue, this`pendingQueue, this`h
      ensures queue == Without(old(queue), routine) && pendingQueue == Without(old(pendingQueue), routine)
      ensures h == old(h).(discarded := old(h).discarded + Ids(Of(old(queue), routine)))
    {
      hide Ids, Of, Without;
      h := h.(discarded := h.discarded + Ids(Of(queue, routine)));
      queue := KeepOthers(queue, routine);
      pendingQueue := KeepOthers(pendingQueue, routine);
    }

    method Delete(routine: RoutineId)
      modifies this
      ensures Abs() == DeleteRoutine(old(Abs()), routine)
      ensures old(Valid()) ==> Valid()
    {
      hide Always, Inv, Ids, Of, Without, HooksWithout;
      DeleteKeepsAlways(Abs(), routine);
      if routine in routines {
        DropFromQueues(routine);
        deferredHooks := HooksWithout(deferredHooks, routine);
        if |queue| == 0 {
          drainWatchdog := false;
        }
        routines := routines - {routine};
        tickState := tickState - {routine};
      }
    }
  }
}
