// What each event of a session does to the queue and to the entry in hand, told without the steps that do it.
module FireSteps {
  import opened Common
  import opened FireBudget
  import opened FireState
  import opened FireInvariants

  // ---------------------------------------------------------------- what an event queues

  predicate KnowsTrigger(s: State, routine: RoutineId, index: nat) {
    routine in s.routines && index < |s.routines[routine].triggers|
  }

  /** Queued already, or its turn is running. */
  predicate IsTaken(s: State, routine: RoutineId) {
    (exists i :: 0 <= i < |s.queue| && s.queue[i].routine == routine) || (s.pending.Some? && s.pending.value.routine == routine)
  }

  /** Less than half a second after the last trigger of the routine that got this far. */
  predicate IsTooSoon(s: State, routine: RoutineId, now: int) {
    if routine in s.enqueuedAt then now < s.enqueuedAt[routine] + 500 else now < 500
  }

  predicate IsDueHook(s: State, p: Pick) {
    p.routine in s.routines && p.due
  }

  ghost predicate IsFirstDue(s: State, picks: seq<Pick>, i: nat) {
    i < |picks| && IsDueHook(s, picks[i]) && forall j :: 0 <= j < i ==> !IsDueHook(s, picks[j])
  }

  /** The entry an event puts into the queue, if it puts one. A promotion is told apart. */
  ghost predicate Offers(s: State, e: Event, q: Entry) {
    q.deferred.None? &&
    match e
    case TriggerFired(routine, index, now, id, _) =>
      && KnowsTrigger(s, routine, index) && !s.routines[routine].paused && !IsTooSoon(s, routine, now) && !IsTaken(s, routine)
      && q == Entry(routine, id, index, s.routines[routine].triggers[index].kind, Some(now), NO_PAYLOAD, None)
    case FireRequested(routine, index, payload, now, id, _) =>
      && KnowsTrigger(s, routine, index) && !s.routines[routine].paused
      && q == Entry(routine, id, index, s.routines[routine].triggers[index].kind, Some(now), payload, None)
    case RanNow(routine, now, id, _) =>
      && routine in s.routines && !s.turn && !(exists i :: 0 <= i < |s.queue| && s.queue[i].routine == routine)
      && q == Entry(routine, id, -1, Manual, Some(now), NO_PAYLOAD, None)
    case CaughtUp(routine, index, kind, payload, now, id) =>
      && routine in s.routines && !s.routines[routine].paused && !IsTaken(s, routine)
      && q == Entry(routine, id, index, kind, Some(now), payload, None)
    case HookPicked(p, now) =>
      IsDueHook(s, p) && |s.queue| < 3 && q == Entry(p.routine, p.id, p.index, Hook, Some(now), p.payload, None)
    case HooksOffered(picks, now, _) =>
      && !s.turn && |s.queue| < 3
      && exists i: nat :: IsFirstDue(s, picks, i) && q == Entry(picks[i].routine, picks[i].id, picks[i].index, Hook, Some(now), picks[i].payload, None)
    case _ => false
  }

  /** The run ids an event refuses: logged as skipped, never queued. A full queue refuses hooks only. */
  ghost predicate Refuses(s: State, e: Event, id: RunId) {
    match e
    case TriggerFired(routine, index, now, mine, _) =>
      id == mine && KnowsTrigger(s, routine, index) && (s.routines[routine].paused || IsTooSoon(s, routine, now) || IsTaken(s, routine))
    case FireRequested(routine, index, _, _, mine, _) => id == mine && KnowsTrigger(s, routine, index) && s.routines[routine].paused
    case PausedPassedOver(routine, mine) => id == mine && routine in s.routines && s.routines[routine].paused
    case HookPicked(p, _) => id == p.id && IsDueHook(s, p) && |s.queue| >= 3
    case _ => false
  }

  /** The queue with one more entry: in a full one the oldest makes room. */
  function WithOneMore(queue: seq<Entry>, q: Entry): seq<Entry> {
    (if |queue| < 3 then queue else queue[1..]) + [q]
  }

  // ---------------------------------------------------------------- what the drain takes

  function ContextOf(e: Event): Context {
    match e
    case TriggerFired(_, _, _, _, ctx) => ctx
    case FireRequested(_, _, _, _, _, ctx) => ctx
    case RanNow(_, _, _, ctx) => ctx
    case HooksOffered(_, _, ctx) => ctx
    case DrainResumed(_, ctx) => ctx
    case WatchdogTicked(ctx) => ctx
    case AgentEnded(_, _, _, ctx) => ctx
    case AgentSettled(ctx) => ctx
    case _ => Missing
  }

  /** Nobody is using the session, and nothing waits to be said in it. */
  predicate IsQuiet(ctx: Context) {
    match ctx
    case Live(idle, pendingMessages) => idle && !pendingMessages
    case _ => false
  }

  /** The event comes to the head of the drain's loop: it queued something, or is one of those that only drain. */
  ghost predicate Drains(s: State, e: Event) {
    match e
    case TriggerFired(_, _, _, _, _) => s.drain.Resting? && exists q :: Offers(s, e, q)
    case FireRequested(_, _, _, _, _, _) => s.drain.Resting? && exists q :: Offers(s, e, q)
    case RanNow(_, _, _, _) => s.drain.Resting? && exists q :: Offers(s, e, q)
    case HooksOffered(_, _, _) => s.drain.Resting? && exists q :: Offers(s, e, q)
    case WatchdogTicked(_) => s.drain.Resting? && s.watchdog
    case AgentEnded(_, _, _, _) => s.drain.Resting?
    case AgentSettled(_) => s.drain.Resting? && !s.turn
    case DrainResumed(_, _) => s.drain.Looping?
    case _ => false
  }

  predicate TurnGoesOn(s: State, e: Event) {
    s.turn && !e.AgentEnded?
  }

  /** From `waiting` on: the first entry is taken, or all are cleared by a stale context, or all stay. */
  ghost predicate Leaves(s: State, e: Event, waiting: seq<Entry>, t: State) {
    if Drains(s, e) && waiting != [] && ContextOf(e).Stale? then t.queue == [] && !t.drain.Holding?
    else if Drains(s, e) && waiting != [] && !TurnGoesOn(s, e) && IsQuiet(ContextOf(e)) then
      t.drain == Holding(waiting[0]) && t.queue == waiting[1..]
    else t.queue == waiting && (t.drain.Holding? ==> t.drain == s.drain)
  }

  lemma HeadLeaves(s: State, ctx: Context)
    requires !s.drain.Holding?
    ensures var t := LoopHead(s, ctx);
            if s.queue != [] && ctx.Stale? then t.queue == [] && !t.drain.Holding?
            else if s.queue != [] && !s.turn && IsQuiet(ctx) then t.drain == Holding(s.queue[0]) && t.queue == s.queue[1..]
            else t.queue == s.queue && !t.drain.Holding?
  {
    hide Normals, Ids;
  }

  lemma EnqueueIs(s: State, q: Entry)
    requires q.deferred.None? && |s.queue| <= 3
    ensures var t := Enqueue(s, q, false);
            && t.queue == WithOneMore(s.queue, q) && t.drain == s.drain && t.turn == s.turn
            && t.h.issued == s.h.issued + multiset{q.run} && t.h.audited == s.h.audited
            && (|s.queue| < 3 ==> t.h.logged == s.h.logged)
            && (|s.queue| == 3 && s.queue[0].routine in s.routines ==> t.h.logged == s.h.logged + multiset{s.queue[0].run})
  {
    hide Normals, Ids, RecordRun;
    if |s.queue| == 3 {
      assert RemoveAt(s.queue, 0) == s.queue[1..];
    }
  }

  lemma StartLeaves(s: State, ctx: Context)
    ensures var t := StartDrain(s, ctx);
            && t.h.issued == s.h.issued && t.h.audited == s.h.audited
            && if s.drain.Resting? then
                 if s.queue != [] && ctx.Stale? then t.queue == [] && !t.drain.Holding?
                 else if s.queue != [] && !s.turn && IsQuiet(ctx) then t.drain == Holding(s.queue[0]) && t.queue == s.queue[1..]
                 else t.queue == s.queue && !t.drain.Holding?
               else t.queue == s.queue && t.drain == s.drain
  {
    hide Normals, Ids;
  }

  /** An event that queues one entry: which, where, and what becomes of it at once. */
  lemma OfferedIsQueued(s: State, e: Event, q: Entry)
    requires Enabled(s, e) && |s.queue| <= 3 && Offers(s, e, q)
    ensures var t := Step(s, e);
            && t.h.issued == s.h.issued + multiset{q.run} && t.h.audited == s.h.audited
            && Leaves(s, e, WithOneMore(s.queue, q), t)
  {
    hide Normals, Ids, RecordRun, Enqueue, StartDrain, OfferHooks, Drains;
    EnqueueIs(s, q);
    match e
    case TriggerFired(routine, index, now, id, ctx) =>
      var stamped := s.(enqueuedAt := s.enqueuedAt[routine := now]);
      EnqueueIs(stamped, q);
      StartLeaves(Enqueue(stamped, q, false), ctx);
      DrainsIfOffered(s, e, q);
    case FireRequested(_, _, _, _, _, ctx) =>
      StartLeaves(Enqueue(s, q, false), ctx);
      DrainsIfOffered(s, e, q);
    case RanNow(_, _, _, ctx) =>
      StartLeaves(Enqueue(s, q, false), ctx);
      DrainsIfOffered(s, e, q);
    case HooksOffered(picks, now, ctx) =>
      var i: nat :| IsFirstDue(s, picks, i) && q == Entry(picks[i].routine, picks[i].id, picks[i].index, Hook, Some(now), picks[i].payload, None);
      FirstDueIsQueued(s, picks, i, now, ctx);
      StartLeaves(Enqueue(s, q, false), ctx);
      DrainsIfOffered(s, e, q);
    case _ => NeverDrains(s, e);
  }

  lemma DrainsIfOffered(s: State, e: Event, q: Entry)
    requires Offers(s, e, q) && (e.TriggerFired? || e.FireRequested? || e.RanNow? || e.HooksOffered?)
    ensures Drains(s, e) <==> s.drain.Resting?
  {
    hide Offers;
  }

  lemma NeverDrains(s: State, e: Event)
    requires e.CaughtUp? || e.HookPicked? || e.PausedPassedOver? || e.MessageEnded? || e.Saved? || e.PauseSet?
    ensures !Drains(s, e)
  {
  }

  lemma {:induction false} FirstDueIsQueued(s: State, picks: seq<Pick>, i: nat, now: int, ctx: Context)
    requires IsFirstDue(s, picks, i) && !s.turn && |s.queue| < 3
    ensures OfferHooks(s, picks, now, ctx) ==
            StartDrain(Enqueue(s, Entry(picks[i].routine, picks[i].id, picks[i].index, Hook, Some(now), picks[i].payload, None), false), ctx)
    decreases |picks|
  {
    hide StartDrain, Enqueue;
    if i > 0 {
      assert !IsDueHook(s, picks[0]);
      assert EnqueueHook(s, picks[0], now) == s;
      assert picks[1..][i - 1] == picks[i];
      FirstDueIsQueued(s, picks[1..], i - 1, now, ctx);
    }
  }

  lemma LogsAlike(s: State, routine: RoutineId, id: RunId)
    ensures var t := Audit(s, routine, id);
            && t.queue == s.queue && t.drain == s.drain && t.turn == s.turn && t.routines == s.routines
            && t.h.issued == s.h.issued && t.h.audited == s.h.audited + multiset{id}
  {
    hide RecordRun;
  }

  lemma {:induction false} NoneDueQueuesNothing(s: State, picks: seq<Pick>, now: int, ctx: Context)
    requires s.turn || (|s.queue| < 3 && forall i :: 0 <= i < |picks| ==> !IsDueHook(s, picks[i]))
    ensures OfferHooks(s, picks, now, ctx) == s
    decreases |picks|
  {
    if picks != [] && !s.turn {
      assert !IsDueHook(s, picks[0]);
      NoneDueQueuesNothing(s, picks[1..], now, ctx);
    }
  }

  lemma FirstDueExists(s: State, picks: seq<Pick>) returns (i: nat)
    ensures i <= |picks| && (i < |picks| ==> IsFirstDue(s, picks, i))
    ensures i == |picks| ==> forall j :: 0 <= j < |picks| ==> !IsDueHook(s, picks[j])
  {
    i := 0;
    while i < |picks| && !IsDueHook(s, picks[i])
      invariant i <= |picks| && forall j :: 0 <= j < i ==> !IsDueHook(s, picks[j])
    {
      i := i + 1;
    }
  }

  /** A full queue lets no offered hook in: each that is due is refused. */
  lemma {:induction false} FullQueueRefuses(s: State, picks: seq<Pick>, now: int, ctx: Context)
    requires |s.queue| >= 3
    ensures var t := OfferHooks(s, picks, now, ctx); t.queue == s.queue && t.drain == s.drain && t.h.issued == s.h.issued
    ensures s.turn ==> OfferHooks(s, picks, now, ctx) == s
    decreases |picks|
  {
    hide Audit;
    if picks != [] && !s.turn {
      LogsAlike(s, picks[0].routine, picks[0].id);
      FullQueueRefuses(EnqueueHook(s, picks[0], now), picks[1..], now, ctx);
    }
  }

  ghost predicate IsGate(e: Event) {
    e.TriggerFired? || e.FireRequested? || e.RanNow? || e.CaughtUp? || e.HookPicked? || e.PausedPassedOver?
  }

  ghost predicate OnlyRefuses(s: State, e: Event, t: State) {
    && t.queue == s.queue && t.drain == s.drain && t.turn == s.turn && t.h.issued == s.h.issued
    && (forall id :: t.h.audited[id] == s.h.audited[id] + (if Refuses(s, e, id) then 1 else 0))
  }

  lemma TriggerRefuses(s: State, routine: RoutineId, index: nat, now: int, id: RunId, ctx: Context)
    requires var e := TriggerFired(routine, index, now, id, ctx); forall q :: !Offers(s, e, q)
    ensures OnlyRefuses(s, TriggerFired(routine, index, now, id, ctx), TriggerFires(s, routine, index, now, id, ctx))
  {
    hide Audit, EnqueueAndDrain;
    LogsAlike(s, routine, id);
    LogsAlike(s.(enqueuedAt := s.enqueuedAt[routine := now]), routine, id);
    if KnowsTrigger(s, routine, index) {
      assert !Offers(s, TriggerFired(routine, index, now, id, ctx),
                     Entry(routine, id, index, s.routines[routine].triggers[index].kind, Some(now), NO_PAYLOAD, None));
    }
  }

  lemma RequestRefuses(s: State, routine: RoutineId, index: nat, payload: Payload, now: int, id: RunId, ctx: Context)
    requires var e := FireRequested(routine, index, payload, now, id, ctx); forall q :: !Offers(s, e, q)
    ensures OnlyRefuses(s, FireRequested(routine, index, payload, now, id, ctx), Requested(s, routine, index, payload, now, id, ctx))
  {
    hide Audit, EnqueueAndDrain;
    LogsAlike(s, routine, id);
    if KnowsTrigger(s, routine, index) {
      assert !Offers(s, FireRequested(routine, index, payload, now, id, ctx),
                     Entry(routine, id, index, s.routines[routine].triggers[index].kind, Some(now), payload, None));
    }
  }

  lemma HookRefuses(s: State, p: Pick, now: int)
    requires forall q :: !Offers(s, HookPicked(p, now), q)
    ensures OnlyRefuses(s, HookPicked(p, now), EnqueueHook(s, p, now))
  {
    hide Audit, Enqueue;
    LogsAlike(s, p.routine, p.id);
    assert !Offers(s, HookPicked(p, now), Entry(p.routine, p.id, p.index, Hook, Some(now), p.payload, None));
  }

  /** An event at a gate that queues nothing leaves queue and drain alone, and logs exactly what it refuses. */
  lemma OthersQueueNothing(s: State, e: Event)
    requires Enabled(s, e) && IsGate(e) && forall q :: !Offers(s, e, q)
    ensures OnlyRefuses(s, e, Step(s, e))
  {
    hide Audit, EnqueueAndDrain, Enqueue, OnlyRefuses, TriggerFires, Requested, EnqueueHook;
    match e
    case TriggerFired(routine, index, now, id, ctx) => TriggerRefuses(s, routine, index, now, id, ctx);
    case FireRequested(routine, index, payload, now, id, ctx) => RequestRefuses(s, routine, index, payload, now, id, ctx);
    case HookPicked(p, now) => HookRefuses(s, p, now);
    case _ => PlainRefuses(s, e);
  }

  lemma PlainRefuses(s: State, e: Event)
    requires Enabled(s, e) && (e.RanNow? || e.CaughtUp? || e.PausedPassedOver?) && forall q :: !Offers(s, e, q)
    ensures OnlyRefuses(s, e, Step(s, e))
  {
    hide Audit, EnqueueAndDrain, Enqueue;
    match e
    case RanNow(routine, now, id, _) => assert !Offers(s, e, Entry(routine, id, -1, Manual, Some(now), NO_PAYLOAD, None));
    case CaughtUp(routine, index, kind, payload, now, id) => assert !Offers(s, e, Entry(routine, id, index, kind, Some(now), payload, None));
    case PausedPassedOver(routine, id) => LogsAlike(s, routine, id);
  }

  /** Offered hooks of which none can be queued: nothing is taken either. */
  lemma OfferedInVain(s: State, picks: seq<Pick>, now: int, ctx: Context)
    requires |s.queue| <= 3 && forall q :: !Offers(s, HooksOffered(picks, now, ctx), q)
    ensures var t := OfferHooks(s, picks, now, ctx); t.queue == s.queue && t.drain == s.drain && t.h.issued == s.h.issued
  {
    if s.turn {
      NoneDueQueuesNothing(s, picks, now, ctx);
    } else if |s.queue| == 3 {
      FullQueueRefuses(s, picks, now, ctx);
    } else {
      var i := FirstDueExists(s, picks);
      if i == |picks| {
        NoneDueQueuesNothing(s, picks, now, ctx);
      } else {
        assert Offers(s, HooksOffered(picks, now, ctx),
                      Entry(picks[i].routine, picks[i].id, picks[i].index, Hook, Some(now), picks[i].payload, None));
      }
    }
  }

  // ---------------------------------------------------------------- the entry in hand

  /** The caps, as they stand for the fire of `q`: the lifetime one for every fire, the daily one for automatic ones. */
  predicate IsSpent(s: State, routine: RoutineId)
    requires routine in s.routines
  {
    var limit := s.routines[routine].limits.maxTicks;
    limit.Some? && (if routine in s.ticks then s.ticks[routine].tickCount else 0) >= limit.value
  }

  predicate IsCapped(s: State, q: Entry, today: Date)
    requires q.routine in s.routines
  {
    var limit := s.routines[q.routine].limits.maxRunsPerDay;
    limit.Some? && q.kind != Manual && q.deferred.None? &&
    (if q.routine in s.ticks && s.ticks[q.routine].runsTodayDate == Some(today) && s.ticks[q.routine].runsToday.Some? then
       s.ticks[q.routine].runsToday.value else 0) >= limit.value
  }

  /** Paused since it was queued; only a fire by hand goes past that. */
  predicate IsHeldByPause(s: State, q: Entry) {
    q.routine in s.routines && s.routines[q.routine].paused && q.kind != Manual
  }

  predicate WillStart(s: State, q: Entry, f: Firing) {
    && q.routine in s.routines && !IsHeldByPause(s, q) && !IsSpent(s, q.routine) && !IsCapped(s, q, f.checked) && f.sends
  }

  /** The last run logged of a routine. */
  predicate LastLogged(t: State, routine: RoutineId, id: RunId, status: Status) {
    routine in t.ticks && t.ticks[routine].runs != [] &&
    var row := t.ticks[routine].runs[|t.ticks[routine].runs| - 1];
    row.id == id && row.status == status
  }

  predicate IsDiscarded(s: State, t: State, id: RunId) {
    t.h.discarded == s.h.discarded + multiset{id} && t.h.logged == s.h.logged && t.pending.None? && !t.turn
  }

  predicate IsLoggedAs(s: State, t: State, q: Entry, status: Status) {
    && t.h.logged == s.h.logged + multiset{q.run} && t.h.discarded == s.h.discarded && t.routines == s.routines
    && t.pending.None? && !t.turn && LastLogged(t, q.routine, q.run, status)
  }

  /** What becomes of the entry in hand: its routine is gone; or it was paused meanwhile; or its lifetime is spent, and
      the routine goes with it; or its day is; or sending fails; or its turn begins. */
  lemma HandIsResolved(s: State, f: Firing, ctx: Context)
    requires Sound(s) && s.drain.Holding?
    ensures var q, t := s.drain.entry, Step(s, DrainResumed(f, ctx));
            if q.routine !in s.routines then IsDiscarded(s, t, q.run)
            else if IsHeldByPause(s, q) then IsLoggedAs(s, t, q, Skipped)
            else if IsSpent(s, q.routine) then IsDiscarded(s, t, q.run) && q.routine !in t.routines && q.routine !in t.ticks
            else if IsCapped(s, q, f.checked) then IsLoggedAs(s, t, q, Skipped)
            else if !f.sends then IsLoggedAs(s, t, q, Failure)
            else
              && t.turn && t.pending == Some(PendingRun(q.routine, q.run, Success, false, q.deferred))
              && t.drain == Looping && t.queue == s.queue && t.h.logged == s.h.logged && t.h.discarded == s.h.discarded
  {
    hide Normals, Ids, DropHook, LoopHead, FireEntry, LogSkip, Discard, IsSpent, IsCapped, IsDiscarded, IsLoggedAs;
    var q := s.drain.entry;
    if q.routine !in s.routines {
      HandIsGone(s, ctx);
    } else if IsHeldByPause(s, q) {
      HandIsPaused(s, ctx);
    } else {
      HandIsFired(s, f);
    }
  }

  lemma HandIsGone(s: State, ctx: Context)
    requires Sound(s) && s.drain.Holding? && s.drain.entry.routine !in s.routines
    ensures var q := s.drain.entry;
            var t := Discard(s.(hooks := DropHook(s.hooks, q.deferred)), q.run).(drain := Looping);
            IsDiscarded(s, t, q.run) && IsDiscarded(s, LoopHead(t, ctx), q.run)
  {
    hide Normals, Ids, DropHook, LoopHead;
    var q := s.drain.entry;
    HeadKeepsAccount(Discard(s.(hooks := DropHook(s.hooks, q.deferred)), q.run).(drain := Looping), ctx);
  }

  lemma HandIsPaused(s: State, ctx: Context)
    requires Sound(s) && s.drain.Holding? && s.drain.entry.routine in s.routines
    ensures var q := s.drain.entry;
            var t := LogSkip(s.(hooks := DropHook(s.hooks, q.deferred)), q.routine, q.run).(drain := Looping);
            IsLoggedAs(s, LoopHead(t, ctx), q, Skipped)
  {
    hide Normals, Ids, DropHook, LoopHead, RecordRun;
    var q := s.drain.entry;
    LastRow(Tick(s, q.routine), RunRecord(q.run, Skipped, false));
    HeadKeepsAccount(LogSkip(s.(hooks := DropHook(s.hooks, q.deferred)), q.routine, q.run).(drain := Looping), ctx);
  }

  lemma HandIsFired(s: State, f: Firing)
    requires Sound(s) && s.drain.Holding? && s.drain.entry.routine in s.routines
    ensures var q := s.drain.entry;
            var t := FireEntry(s, q, f).(drain := Looping);
            if IsSpent(s, q.routine) then IsDiscarded(s, t, q.run) && q.routine !in t.routines && q.routine !in t.ticks
            else if IsCapped(s, q, f.checked) then IsLoggedAs(s, t, q, Skipped)
            else if !f.sends then IsLoggedAs(s, t, q, Failure)
            else
              && t.turn && t.pending == Some(PendingRun(q.routine, q.run, Success, false, q.deferred))
              && t.drain == Looping && t.queue == s.queue && t.h.logged == s.h.logged && t.h.discarded == s.h.discarded
  {
    hide Normals, Ids, DropHook, RecordRun;
    var q := s.drain.entry;
    LastRow(Tick(s, q.routine), RunRecord(q.run, Skipped, false));
    LastRow(Tick(s, q.routine), RunRecord(q.run, Failure, false));
  }

  lemma LastRow(tick: Option<TickState>, run: RunRecord)
    ensures var runs := RecordRun(tick, run).runs; runs != [] && runs[|runs| - 1] == run
  {
  }

  lemma HeadKeepsAccount(s: State, ctx: Context)
    requires !s.drain.Holding?
    ensures var t := LoopHead(s, ctx);
            && t.turn == s.turn && t.pending == s.pending && t.h.logged == s.h.logged && t.h.discarded == s.h.discarded
            && t.routines == s.routines && t.ticks == s.ticks
  {
    hide LoopHead, Normals, Ids, Stop;
    StopKeepsAccount(s);
    HeadIs(s, ctx);
  }

  lemma HeadIs(s: State, ctx: Context)
    ensures var t, u := LoopHead(s, ctx), (if s.queue != [] && ctx.Stale? then Stop(s) else s);
            t == u.(queue := t.queue, mirror := t.mirror, stopped := t.stopped, drain := t.drain, watchdog := t.watchdog)
  {
    hide Normals, Ids, Stop;
  }

  lemma StopKeepsAccount(s: State)
    ensures var t := Stop(s);
            && t.turn == s.turn && t.pending == s.pending && t.h.logged == s.h.logged && t.h.discarded == s.h.discarded
            && t.routines == s.routines && t.ticks == s.ticks
  {
    hide Ids;
  }

  // ---------------------------------------------------------------- promotion

  /** Known, not paused, and the stored index is that of a shutdown hook. */
  predicate CanBePromoted(s: State, item: DeferredHook) {
    && item.routine in s.routines && !s.routines[item.routine].paused && item.index < |s.routines[item.routine].triggers|
    && s.routines[item.routine].triggers[item.index].kind == Hook && s.routines[item.routine].triggers[item.index].event == SessionShutdown
  }

  /** The entries of the stored hooks that can be promoted and are not in the queue or in flight, in the order stored. */
  function ReadyEntries(s: State, items: seq<DeferredHook>, ids: seq<RunId>, known: set<HookId>, now: int): seq<Entry>
    requires |ids| == |items|
  {
    if items == [] then []
    else if items[0].id !in known && CanBePromoted(s, items[0]) then
      [Entry(items[0].routine, ids[0], items[0].index, Hook, Some(now), NO_PAYLOAD.(contextNote := Some(items[0].note)), Some(items[0].id))]
      + ReadyEntries(s, items[1..], ids[1..], known + {items[0].id}, now)
    else ReadyEntries(s, items[1..], ids[1..], known, now)
  }

  /** The queue after a promotion: what was deferred, then the promoted hooks that find room, then the rest. */
  function WithPromoted(queue: seq<Entry>, ready: seq<Entry>): seq<Entry> {
    Between(queue, FirstNormal(queue), Fitting(3 - |queue|, ready))
  }

  function Between(queue: seq<Entry>, i: nat, more: seq<Entry>): seq<Entry>
    requires i <= |queue|
  {
    queue[..i] + more + queue[i..]
  }

  lemma FirstNormalAfter(queue: seq<Entry>, e: Entry)
    requires e.deferred.Some?
    ensures FirstNormal(InsertAt(queue, FirstNormal(queue), e)) == FirstNormal(queue) + 1
  {
    hide FirstNormal;
    var i := FirstNormal(queue);
    var r := InsertAt(queue, i, e);
    assert r[i] == e && (forall j :: 0 <= j < i ==> r[j] == queue[j]) && (i < |queue| ==> r[i + 1] == queue[i]);
    var k := FirstNormal(r);
    assert k > i;
    assert k <= i + 1;
  }

  lemma {:induction false} ReadyAlike(s: State, t: State, items: seq<DeferredHook>, ids: seq<RunId>, known: set<HookId>, now: int)
    requires |ids| == |items| && s.routines == t.routines
    ensures ReadyEntries(s, items, ids, known, now) == ReadyEntries(t, items, ids, known, now)
    decreases |items|
  {
    if items != [] {
      ReadyAlike(s, t, items[1..], ids[1..], known, now);
      ReadyAlike(s, t, items[1..], ids[1..], known + {items[0].id}, now);
    }
  }

  function Fitting(room: int, ready: seq<Entry>): seq<Entry> {
    if |ready| <= room then ready else if room > 0 then ready[..room] else []
  }

  lemma OneMoreFits(room: int, e: Entry, ready: seq<Entry>)
    requires room > 0
    ensures Fitting(room, [e] + ready) == [e] + Fitting(room - 1, ready)
  {
  }

  lemma PutBetween(queue: seq<Entry>, i: nat, e: Entry, more: seq<Entry>)
    requires i <= |queue|
    ensures var q := InsertAt(queue, i, e); |q| == |queue| + 1 && Between(q, i + 1, more) == Between(queue, i, [e] + more)
  {
    var q := InsertAt(queue, i, e);
    assert q[..i + 1] == queue[..i] + [e] && q[i + 1..] == queue[i..];
  }

  lemma OneMorePromoted(queue: seq<Entry>, e: Entry, ready: seq<Entry>)
    requires e.deferred.Some? && |queue| < 3
    ensures WithPromoted(InsertAt(queue, FirstNormal(queue), e), ready) == WithPromoted(queue, [e] + ready)
  {
    hide Fitting, FirstNormal, InsertAt, Between;
    FirstNormalAfter(queue, e);
    OneMoreFits(3 - |queue|, e, ready);
    PutBetween(queue, FirstNormal(queue), e, Fitting(3 - |queue| - 1, ready));
  }

  lemma PromoteOne(s: State, e: Entry, ready: seq<Entry>)
    requires e.deferred.Some? && |s.queue| < 3
    ensures var t := Enqueue(s, e, true);
            && t.queue == InsertAt(s.queue, FirstNormal(s.queue), e) && t.routines == s.routines && t.drain == s.drain && t.turn == s.turn
            && |t.queue| <= 3 && WithPromoted(t.queue, ready) == WithPromoted(s.queue, [e] + ready)
  {
    hide Normals, Ids, WithPromoted;
    OneMorePromoted(s.queue, e, ready);
  }

  lemma {:induction false} PromotionIs(s: State, items: seq<DeferredHook>, ids: seq<RunId>, known: set<HookId>, now: int)
    requires |ids| == |items| && |s.queue| <= 3
    ensures var t := Promote(s, items, ids, known, now);
            && t.queue == WithPromoted(s.queue, ReadyEntries(s, items, ids, known, now))
            && t.drain == s.drain && t.turn == s.turn
    decreases |items|
  {
    hide Enqueue, Audit, DropHook, CanBePromoted, IsShutdownHook;
    if items == [] || |s.queue| >= 3 {
      assert s.queue == Between(s.queue, FirstNormal(s.queue), []);
    } else {
      var item := items[0];
      assert CanBePromoted(s, item) <==> IsShutdownHook(s, item) && !s.routines[item.routine].paused by {
        PromotableMeans(s, item);
      }
      if item.id in known {
        PromotionIs(s, items[1..], ids[1..], known, now);
      } else if CanBePromoted(s, item) {
        var e := Entry(item.routine, ids[0], item.index, Hook, Some(now), NO_PAYLOAD.(contextNote := Some(item.note)), Some(item.id));
        var u := Enqueue(s, e, true);
        PromoteOne(s, e, ReadyEntries(s, items[1..], ids[1..], known + {item.id}, now));
        PromotionIs(u, items[1..], ids[1..], known + {item.id}, now);
        ReadyAlike(s, u, items[1..], ids[1..], known + {item.id}, now);
      } else {
        var t := s.(hooks := DropHook(s.hooks, Some(item.id)));
        var u := if item.routine in s.routines then Audit(t, item.routine, ids[0]) else t;
        LogsAlike(t, item.routine, ids[0]);
        PromotionIs(u, items[1..], ids[1..], known, now);
        ReadyAlike(s, u, items[1..], ids[1..], known, now);
      }
    }
  }

  lemma PromotableMeans(s: State, item: DeferredHook)
    ensures IsShutdownHook(s, item) ==> item.routine in s.routines
    ensures CanBePromoted(s, item) <==> IsShutdownHook(s, item) && !s.routines[item.routine].paused
  {
  }

  // ---------------------------------------------------------------- when an entry is taken

  /** The queue as the drain finds it, after the event has queued what it queues. */
  ghost predicate Finds(s: State, e: Event, waiting: seq<Entry>) {
    if e.AgentEnded? && Enabled(s, e) then
      waiting == if e.hasUI then WithPromoted(s.queue, ReadyEntries(s, s.hooks, e.ids, KnownAfterTurn(s), e.now)) else s.queue
    else if exists q :: Offers(s, e, q) then exists q :: Offers(s, e, q) && waiting == WithOneMore(s.queue, q)
    else waiting == s.queue
  }

  /** The deferred hooks in the queue, and that of a run that is no turn. */
  function KnownAfterTurn(s: State): set<HookId> {
    (set i | 0 <= i < |s.queue| && s.queue[i].deferred.Some? :: s.queue[i].deferred.value) +
    (if !s.turn && s.pending.Some? && s.pending.value.deferred.Some? then {s.pending.value.deferred.value} else {})
  }

  ghost predicate WillTake(s: State, e: Event, waiting: seq<Entry>) {
    Drains(s, e) && waiting != [] && !TurnGoesOn(s, e) && IsQuiet(ContextOf(e))
  }

  lemma TurnCloses(s: State)
    ensures var t := CloseTurn(s);
            && t.queue == s.queue && t.drain == s.drain && !t.turn && t.hooks == s.hooks && t.routines == s.routines
            && KnownHooks(t) == KnownAfterTurn(s)
  {
    hide RecordRun;
  }

  lemma AgentEndTakes(s: State, e: Event)
    requires e.AgentEnded? && Enabled(s, e) && |s.queue| <= 3
    ensures forall waiting :: Finds(s, e, waiting) ==> Leaves(s, e, waiting, Step(s, e))
  {
    hide Promote, StartDrain, CloseTurn, KnownHooks, ReadyEntries, WithPromoted, RecordRun;
    var closed := CloseTurn(s);
    TurnCloses(s);
    PromotionIs(closed, closed.hooks, e.ids, KnownHooks(closed), e.now);
    ReadyAlike(s, closed, s.hooks, e.ids, KnownHooks(closed), e.now);
    StartLeaves(if e.hasUI then Promote(closed, closed.hooks, e.ids, KnownHooks(closed), e.now) else closed, e.ctx);
  }

  lemma OnlyDrains(s: State, e: Event)
    requires Enabled(s, e) && (e.WatchdogTicked? || e.AgentSettled?)
    ensures Leaves(s, e, s.queue, Step(s, e))
  {
    hide StartDrain;
    match e
    case WatchdogTicked(ctx) => StartLeaves(s, ctx);
    case AgentSettled(ctx) => StartLeaves(s, ctx);
  }

  lemma LoopGoesOn(s: State, e: Event)
    requires e.DrainResumed? && s.drain.Looping?
    ensures Leaves(s, e, s.queue, Step(s, e))
  {
    hide LoopHead;
    HeadLeaves(s, e.ctx);
  }

  lemma OfferTakes(s: State, e: Event)
    requires Enabled(s, e) && |s.queue| <= 3 && !e.AgentEnded? && !s.drain.Holding?
    requires IsGate(e) || e.HooksOffered?
    ensures forall waiting :: Finds(s, e, waiting) ==> Leaves(s, e, waiting, Step(s, e))
  {
    hide Offers, Step, Leaves, WithOneMore;
    forall waiting | Finds(s, e, waiting)
      ensures Leaves(s, e, waiting, Step(s, e))
    {
      if exists q :: Offers(s, e, q) {
        var q :| Offers(s, e, q) && waiting == WithOneMore(s.queue, q);
        OfferedIsQueued(s, e, q);
      } else {
        NothingOffered(s, e);
      }
    }
  }

  lemma NothingOffered(s: State, e: Event)
    requires Enabled(s, e) && |s.queue| <= 3 && !s.drain.Holding? && (IsGate(e) || e.HooksOffered?) && forall q :: !Offers(s, e, q)
    ensures Leaves(s, e, s.queue, Step(s, e))
  {
    hide Offers, OfferHooks, TriggerFires, Requested, RunNow, CatchUp, EnqueueHook, PassOverPaused;
    if IsGate(e) {
      OthersQueueNothing(s, e);
    } else {
      OfferedInVain(s, e.picks, e.now, e.ctx);
    }
  }

  /** The remaining events touch neither the queue nor the drain, or clear both. */
  lemma QuietEvents(s: State, e: Event)
    requires Enabled(s, e) && !s.drain.Holding?
    requires (e.DrainResumed? && s.drain.Resting?) || e.MessageEnded? || e.Saved? || e.PauseSet? || e.RoutineDeleted? || e.ShutDown?
    ensures !Step(s, e).drain.Holding? && !Drains(s, e)
  {
    hide Normals, Ids, RecordRun, Without, Of, HooksWithout;
  }

  /** With nothing in hand, an event leaves an entry in hand exactly when work waits, the event comes to the drain, no
      routine turn goes on, and its context is live, idle and without pending messages; the entry is then the first. */
  lemma TakesIff(s: State, e: Event, waiting: seq<Entry>)
    requires Sound(s) && Enabled(s, e) && !s.drain.Holding? && Finds(s, e, waiting)
    ensures Step(s, e).drain.Holding? <==> WillTake(s, e, waiting)
    ensures WillTake(s, e, waiting) ==> Step(s, e).drain == Holding(waiting[0]) && Step(s, e).queue == waiting[1..]
  {
    hide Step, Offers, Drains, WithOneMore, ReadyEntries, WithPromoted;
    if e.AgentEnded? {
      AgentEndTakes(s, e);
    } else if IsGate(e) || e.HooksOffered? {
      OfferTakes(s, e);
    } else {
      PlainFinds(s, e, waiting);
      if e.WatchdogTicked? || e.AgentSettled? {
        OnlyDrains(s, e);
      } else if e.DrainResumed? && s.drain.Looping? {
        LoopGoesOn(s, e);
      } else {
        QuietEvents(s, e);
      }
    }
  }

  lemma PlainFinds(s: State, e: Event, waiting: seq<Entry>)
    requires Finds(s, e, waiting) && !e.AgentEnded? && !IsGate(e) && !e.HooksOffered?
    ensures waiting == s.queue
  {
  }

  lemma SomethingIsFound(s: State, e: Event) returns (waiting: seq<Entry>)
    requires Enabled(s, e)
    ensures Finds(s, e, waiting)
  {
    hide Offers, WithOneMore, ReadyEntries, WithPromoted;
    if e.AgentEnded? {
      waiting := if e.hasUI then WithPromoted(s.queue, ReadyEntries(s, s.hooks, e.ids, KnownAfterTurn(s), e.now)) else s.queue;
    } else if q :| Offers(s, e, q) {
      waiting := WithOneMore(s.queue, q);
    } else {
      waiting := s.queue;
    }
  }

  /** With an entry in hand, only the return of the drain changes that. If the entry is given up (its routine gone, but
      not with a deferred hook to save; or paused) the next one is taken under the same condition. */
  lemma HandChangesIff(s: State, e: Event)
    requires Sound(s) && Enabled(s, e) && s.drain.Holding?
    ensures !e.DrainResumed? ==> Step(s, e).drain == s.drain
    ensures e.DrainResumed? ==>
              var q, t := s.drain.entry, Step(s, e);
              var givenUp := if q.routine in s.routines then IsHeldByPause(s, q) else q.deferred.None?;
              && (t.drain.Holding? <==> givenUp && s.queue != [] && IsQuiet(e.ctx))
              && (t.drain.Holding? ==> t.drain == Holding(s.queue[0]) && t.queue == s.queue[1..])
  {
    hide Normals, Ids, RecordRun, DropHook, LoopHead;
    if e.DrainResumed? {
      var q := s.drain.entry;
      var dropped := s.(hooks := DropHook(s.hooks, q.deferred));
      HeadLeaves(Discard(dropped, q.run).(drain := Looping), e.ctx);
      HeadLeaves(LogSkip(dropped, q.routine, q.run).(drain := Looping), e.ctx);
    } else {
      HandStays(s, e);
    }
  }

  lemma HandStays(s: State, e: Event)
    requires Enabled(s, e) && s.drain.Holding? && !e.DrainResumed?
    ensures Step(s, e).drain == s.drain
  {
    hide Enqueue, Promote, OfferHooks, StartDrain, CloseTurn, TriggerFires, Requested, RunNow, KnownHooks;
    match e
    case TriggerFired(_, _, _, _, _) => GateKeepsHand(s, e);
    case FireRequested(_, _, _, _, _, _) => GateKeepsHand(s, e);
    case RanNow(_, _, _, _) => GateKeepsHand(s, e);
    case CaughtUp(routine, index, kind, payload, now, id) => EnqueueKeepsHand();
    case HookPicked(p, now) =>
      EnqueueKeepsHand();
      LogsAlike(s, p.routine, p.id);
    case PausedPassedOver(routine, id) => LogsAlike(s, routine, id);
    case HooksOffered(picks, now, ctx) => OfferKeepsHand(s, picks, now, ctx);
    case AgentEnded(hasUI, ids, now, ctx) =>
      TurnCloses(s);
      RestingOnly();
      var closed := CloseTurn(s);
      PromoteKeepsHand(closed, closed.hooks, ids, KnownHooks(closed), now);
    case WatchdogTicked(_) => RestingOnly();
    case AgentSettled(_) => RestingOnly();
    case _ => OthersKeepHand(s, e);
  }

  lemma GateKeepsHand(s: State, e: Event)
    requires Enabled(s, e) && s.drain.Holding? && (e.TriggerFired? || e.FireRequested? || e.RanNow?)
    ensures Step(s, e).drain == s.drain
  {
    hide Enqueue, Audit, StartDrain;
    EnqueueKeepsHand();
    RestingOnly();
    match e
    case TriggerFired(routine, _, now, id, _) =>
      LogsAlike(s, routine, id);
      LogsAlike(s.(enqueuedAt := s.enqueuedAt[routine := now]), routine, id);
    case FireRequested(routine, _, _, _, id, _) => LogsAlike(s, routine, id);
    case RanNow(_, _, _, _) =>
  }

  lemma OthersKeepHand(s: State, e: Event)
    requires Enabled(s, e) && (e.MessageEnded? || e.Saved? || e.PauseSet? || e.RoutineDeleted? || e.ShutDown?)
    ensures Step(s, e).drain == s.drain
  {
    hide Ids, RecordRun, Without, Of, HooksWithout;
  }

  lemma RestingOnly()
    ensures forall x: State, ctx :: x.drain.Holding? ==> StartDrain(x, ctx) == x
  {
  }

  lemma EnqueueKeepsHand()
    ensures forall x: State, q, priority :: Enqueue(x, q, priority).drain == x.drain
  {
    hide Normals, Ids, RecordRun;
  }

  lemma {:induction false} OfferKeepsHand(s: State, picks: seq<Pick>, now: int, ctx: Context)
    requires s.drain.Holding?
    ensures OfferHooks(s, picks, now, ctx).drain == s.drain
    decreases |picks|
  {
    hide Enqueue, Audit, StartDrain;
    EnqueueKeepsHand();
    RestingOnly();
    if picks != [] && !s.turn {
      LogsAlike(s, picks[0].routine, picks[0].id);
      OfferKeepsHand(EnqueueHook(s, picks[0], now), picks[1..], now, ctx);
    }
  }

  lemma {:induction false} PromoteKeepsHand(s: State, items: seq<DeferredHook>, ids: seq<RunId>, known: set<HookId>, now: int)
    requires |ids| == |items|
    ensures Promote(s, items, ids, known, now).drain == s.drain
    decreases |items|
  {
    hide Enqueue, Audit, DropHook;
    EnqueueKeepsHand();
    if items != [] && |s.queue| < MAX_QUEUE_DEPTH {
      var item := items[0];
      var t := s.(hooks := DropHook(s.hooks, Some(item.id)));
      LogsAlike(t, item.routine, ids[0]);
      var e := Entry(item.routine, ids[0], item.index, Hook, Some(now), NO_PAYLOAD.(contextNote := Some(item.note)), Some(item.id));
      PromoteKeepsHand(s, items[1..], ids[1..], known, now);
      PromoteKeepsHand(t, items[1..], ids[1..], known, now);
      PromoteKeepsHand(Audit(t, item.routine, ids[0]), items[1..], ids[1..], known, now);
      PromoteKeepsHand(Enqueue(s, e, true), items[1..], ids[1..], known + {item.id}, now);
    }
  }

  // ---------------------------------------------------------------- whole runs

  /** In a session that begins with nothing in hand, whatever is in hand, and so whatever is fired, was taken by an event
      whose context was live, idle and without pending messages, while no routine turn went on. */
  lemma {:induction false} FiredWasTakenInQuiet(s: State, es: seq<Event>, last: State) returns (i: nat, before: State)
    requires Inv(s, "") && Runs(s, es, last) && !s.drain.Holding? && last.drain.Holding?
    ensures i < |es| && Runs(s, es[..i], before) && Enabled(before, es[i])
    ensures IsQuiet(ContextOf(es[i])) && !TurnGoesOn(before, es[i])
    ensures Step(before, es[i]).drain == last.drain
    decreases |es|
  {
    hide Inv, Step, Finds, Drains;
    assert es != [];
    var n := |es| - 1;
    assert es == es[..n] + [es[n]];
    var prior := SplitRuns(s, es[..n], es[n], last);
    RunKeepsInv(s, es[..n], prior, "");
    InvSound(prior);
    if prior.drain.Holding? {
      HandChangesIff(prior, es[n]);
      if es[n].DrainResumed? {
        TurnIsFree(prior);
        i, before := n, prior;
      } else {
        i, before := FiredWasTakenInQuiet(s, es[..n], prior);
        assert es[..n][..i] == es[..i];
      }
    } else {
      var waiting := SomethingIsFound(prior, es[n]);
      TakesIff(prior, es[n], waiting);
      i, before := n, prior;
    }
  }

  lemma InvSound(s: State)
    requires Inv(s, "")
    ensures Sound(s)
  {
  }

  lemma TurnIsFree(s: State)
    requires Sound(s) && s.drain.Holding?
    ensures !s.turn
  {
  }

  lemma {:induction false} SplitRuns(s: State, es: seq<Event>, e: Event, last: State) returns (prior: State)
    requires Runs(s, es + [e], last)
    ensures Runs(s, es, prior) && Enabled(prior, e) && Step(prior, e) == last
    decreases |es|
  {
    hide Step;
    if es == [] {
      prior := s;
      assert ([] + [e])[1..] == [];
    } else {
      assert (es + [e])[1..] == es[1..] + [e];
      prior := SplitRuns(Step(s, es[0]), es[1..], e, last);
    }
  }

  // ---------------------------------------------------------------- two triggers at once

  /** A timer that gets past the pause and the window of its routine stamps it, whatever the later gates say; one that
      does not leaves the stamp alone. */
  lemma TriggerStamps(s: State, routine: RoutineId, index: nat, now: int, id: RunId, ctx: Context)
    requires !ctx.Stale?
    ensures var t := Step(s, TriggerFired(routine, index, now, id, ctx));
            t.enqueuedAt == if KnowsTrigger(s, routine, index) && !s.routines[routine].paused && !IsTooSoon(s, routine, now)
                            then s.enqueuedAt[routine := now] else s.enqueuedAt
  {
    hide Enqueue, StartDrain, Audit;
    LogsAlikeStamp(s, routine, id);
    if KnowsTrigger(s, routine, index) {
      var stamped := s.(enqueuedAt := s.enqueuedAt[routine := now]);
      LogsAlikeStamp(stamped, routine, id);
      QueuedKeepsStamps(stamped, Entry(routine, id, index, s.routines[routine].triggers[index].kind, Some(now), NO_PAYLOAD, None), ctx);
    }
  }

  lemma LogsAlikeStamp(s: State, routine: RoutineId, id: RunId)
    ensures Audit(s, routine, id).enqueuedAt == s.enqueuedAt && Audit(s, routine, id).routines == s.routines
  {
    hide RecordRun;
  }

  lemma QueuedKeepsStamps(s: State, q: Entry, ctx: Context)
    ensures EnqueueAndDrain(s, q, ctx).routines == s.routines
    ensures !ctx.Stale? ==> EnqueueAndDrain(s, q, ctx).enqueuedAt == s.enqueuedAt
  {
    hide Normals, Ids, RecordRun, Insert, RemoveAt, StartDrain;
    var t := Enqueue(s, q, false);
    assert t.enqueuedAt == s.enqueuedAt && t.routines == s.routines;
    DrainKeepsStamps(t, ctx);
  }

  lemma DrainKeepsStamps(s: State, ctx: Context)
    ensures StartDrain(s, ctx).routines == s.routines
    ensures !ctx.Stale? ==> StartDrain(s, ctx).enqueuedAt == s.enqueuedAt
  {
    hide Normals, Ids;
  }

  /** So of two triggers of a routine within half a second the second is refused: logged as skipped, never queued. */
  lemma SecondTriggerIsRefused(s: State, routine: RoutineId, first: nat, second: nat, now: int, later: int, id: RunId, next: RunId, ctx: Context)
    requires !ctx.Stale? && KnowsTrigger(s, routine, first) && KnowsTrigger(s, routine, second) && !s.routines[routine].paused
    requires !IsTooSoon(s, routine, now) && now <= later < now + 500
    ensures var t := Step(s, TriggerFired(routine, first, now, id, ctx));
            var e := TriggerFired(routine, second, later, next, ctx);
            Refuses(t, e, next) && forall q :: !Offers(t, e, q)
  {
    hide Step, IsTooSoon;
    TriggerStamps(s, routine, first, now, id, ctx);
    TriggerKeepsRoutines(s, routine, first, now, id, ctx);
    var t := Step(s, TriggerFired(routine, first, now, id, ctx));
    StampIsTooSoon(t, routine, now, later);
  }

  lemma StampIsTooSoon(t: State, routine: RoutineId, now: int, later: int)
    requires routine in t.enqueuedAt && t.enqueuedAt[routine] == now && later < now + 500
    ensures IsTooSoon(t, routine, later)
  {
  }

  lemma TriggerKeepsRoutines(s: State, routine: RoutineId, index: nat, now: int, id: RunId, ctx: Context)
    ensures Step(s, TriggerFired(routine, index, now, id, ctx)).routines == s.routines
  {
    hide Enqueue, StartDrain, Audit;
    LogsAlikeStamp(s, routine, id);
    var stamped := s.(enqueuedAt := s.enqueuedAt[routine := now]);
    LogsAlikeStamp(stamped, routine, id);
    if KnowsTrigger(s, routine, index) {
      QueuedKeepsStamps(stamped, Entry(routine, id, index, s.routines[routine].triggers[index].kind, Some(now), NO_PAYLOAD, None), ctx);
    }
  }
}
