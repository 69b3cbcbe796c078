// Every event of a session as a list of elementary actions on the fire queue, so that a property of runs need
// only be proved of the actions.
module FireActions {
  import opened Common
  import opened FireBudget
  import opened FireState
  import opened FireInvariants

  datatype Action =
    | Queues(e: Entry, priority: bool)
    | Audits(routine: RoutineId, id: RunId)
    | Stamps(routine: RoutineId, now: int)
    | Shifts                                  // the drain takes the first entry
    | Exits                                   // the drain comes to rest
    | Clears                                  // a teardown, or a stale context
    | GivesUp                                 // the entry in hand is not fired after all
    | Fires(f: Firing)                        // the entry in hand is fired
    | Marks(status: Status, quiet: bool)      // the assistant's message
    | Closes                                  // the turn ends
    | Interrupts                              // the turn is cut off by a teardown
    | DropsHook(id: HookId)
    | Saves(routine: RoutineId, value: Routine)
    | Pauses(routine: RoutineId, paused: bool)
    | Deletes(routine: RoutineId)
    | Disarms

  ghost predicate Can(s: State, a: Action) {
    match a
    case Queues(e, priority) => (priority <==> e.deferred.Some?) && e.routine in s.routines
    case Audits(routine, _) => routine in s.routines
    case Shifts => s.queue != [] && !s.turn && !s.drain.Holding?
    case Exits => !s.drain.Holding?
    case GivesUp => s.drain.Holding?
    case Fires(_) => s.drain.Holding? && s.drain.entry.routine in s.routines
    case Marks(status, _) => s.turn && s.pending.Some? && (status == Silent || status == s.pending.value.status)
    case Disarms => s.queue == []
    case _ => true
  }

  function Interrupted(s: State): State {
    var u := if s.pending.Some? then
               Log(s.(pending := None), s.pending.value.routine, RunRecord(s.pending.value.run, Failure, s.pending.value.quiet))
             else s;
    u.(turn := false)
  }

  function GivenUp(s: State): State
    requires s.drain.Holding?
  {
    var e := s.drain.entry;
    var t := s.(hooks := DropHook(s.hooks, e.deferred));
    (if e.routine in s.routines then LogSkip(t, e.routine, e.run) else Discard(t, e.run)).(drain := Looping)
  }

  ghost function Act(s: State, a: Action): State
    requires Can(s, a)
  {
    match a
    case Queues(e, priority) => Enqueue(s, e, priority)
    case Audits(routine, id) => Audit(s, routine, id)
    case Stamps(routine, now) => s.(enqueuedAt := s.enqueuedAt[routine := now])
    case Shifts => WithQueue(s, s.queue[1..]).(drain := Holding(s.queue[0]))
    case Exits => ExitDrain(s)
    case Clears => Stop(s)
    case GivesUp => GivenUp(s)
    case Fires(f) => FireEntry(s, s.drain.entry, f).(drain := Looping)
    case Marks(status, quiet) => s.(pending := Some(s.pending.value.(status := status, quiet := quiet)))
    case Closes => CloseTurn(s)
    case Interrupts => Interrupted(s)
    case DropsHook(id) => s.(hooks := DropHook(s.hooks, Some(id)))
    case Saves(routine, value) => Save(s, routine, value)
    case Pauses(routine, paused) => SetPaused(s, routine, paused)
    case Deletes(routine) => DeleteRoutine(s, routine)
    case Disarms => s.(watchdog := false)
  }

  /** The actions lead from one state to the other. */
  ghost predicate Does(s: State, acts: seq<Action>, last: State)
    decreases |acts|
  {
    if acts == [] then s == last
    else Can(s, acts[0]) && Does(Act(s, acts[0]), acts[1..], last)
  }

  lemma {:induction false} DoesConcat(s: State, a: seq<Action>, mid: State, b: seq<Action>, last: State)
    requires Does(s, a, mid) && Does(mid, b, last)
    ensures Does(s, a + b, last)
    decreases |a|
  {
    hide Can, Act;
    if a == [] {
      assert a + b == b;
    } else {
      assert (a + b)[1..] == a[1..] + b;
      DoesConcat(Act(s, a[0]), a[1..], mid, b, last);
    }
  }

  lemma DoesOne(s: State, a: Action)
    requires Can(s, a)
    ensures Does(s, [a], Act(s, a))
  {
    hide Can, Act;
    assert [a][1..] == [];
  }

  lemma DoesThen(s: State, a: Action, rest: seq<Action>, last: State)
    requires Can(s, a) && Does(Act(s, a), rest, last)
    ensures Does(s, [a] + rest, last)
  {
    hide Can, Act;
    assert ([a] + rest)[1..] == rest;
  }

  // ---------------------------------------------------------------- what an event can lead to

  function NowOf(e: Event): Option<int> {
    match e
    case TriggerFired(_, _, now, _, _) => Some(now)
    case FireRequested(_, _, _, now, _, _) => Some(now)
    case RanNow(_, now, _, _) => Some(now)
    case CaughtUp(_, _, _, _, now, _) => Some(now)
    case HookPicked(_, now) => Some(now)
    case HooksOffered(_, now, _) => Some(now)
    case AgentEnded(_, _, now, _) => Some(now)
    case _ => None
  }

  /** The run ids an event brings. */
  ghost predicate Brings(e: Event, id: RunId) {
    match e
    case TriggerFired(_, _, _, mine, _) => id == mine
    case FireRequested(_, _, _, _, mine, _) => id == mine
    case RanNow(_, _, mine, _) => id == mine
    case CaughtUp(_, _, _, _, _, mine) => id == mine
    case PausedPassedOver(_, mine) => id == mine
    case HookPicked(pick, _) => id == pick.id
    case HooksOffered(picks, _, _) => exists i :: 0 <= i < |picks| && picks[i].id == id
    case AgentEnded(_, ids, _, _) => id in ids
    case _ => false
  }

  /** The payloads of an event that end up in entries. */
  ghost predicate Carries(e: Event, p: Payload) {
    match e
    case FireRequested(_, _, payload, _, _, _) => p == payload
    case CaughtUp(_, _, _, payload, _, _) => p == payload
    case HookPicked(pick, _) => p == pick.payload
    case HooksOffered(picks, _, _) => exists i :: 0 <= i < |picks| && picks[i].payload == p
    case AgentEnded(_, _, _, _) => p.apiArgs.None? && p.githubEvent.None?
    case _ => p == NO_PAYLOAD
  }

  /** An action that can come from an event. */
  ghost predicate From(e: Event, a: Action) {
    match a
    case Queues(q, priority) =>
      && Brings(e, q.run) && Carries(e, q.payload) && q.queuedAt == NowOf(e) && q.queuedAt.Some? && q.index >= -1
      && (priority ==> e.AgentEnded? && e.hasUI)
    case Audits(_, id) => Brings(e, id)
    case Fires(f) => e.DrainResumed? && f == e.f
    case GivesUp => e.DrainResumed?
    case Saves(routine, value) => e == Saved(routine, value)
    case Deletes(routine) => e == RoutineDeleted(routine)
    case Interrupts => e.ShutDown?
    case Closes => e.AgentEnded?
    case DropsHook(_) => e.AgentEnded?
    case _ => true
  }

  ghost predicate AllFrom(e: Event, acts: seq<Action>) {
    forall i :: 0 <= i < |acts| ==> From(e, acts[i])
  }

  lemma LoopHeadActs(s: State, ctx: Context, e: Event) returns (acts: seq<Action>)
    requires !s.drain.Holding?
    ensures Does(s, acts, LoopHead(s, ctx)) && AllFrom(e, acts)
  {
    hide Normals, Ids, Does, FireEntry, Enqueue;
    if s.queue != [] && ctx.Live? && !s.turn && ctx.idle && !ctx.pendingMessages {
      acts := [Shifts];
      DoesOne(s, Shifts);
    } else if s.queue != [] && ctx.Stale? {
      acts := [Clears] + [Exits];
      DoesOne(Stop(s), Exits);
      DoesThen(s, Clears, [Exits], LoopHead(s, ctx));
    } else {
      acts := [Exits];
      DoesOne(s, Exits);
    }
  }

  lemma StartDrainActs(s: State, ctx: Context, e: Event) returns (acts: seq<Action>)
    ensures Does(s, acts, StartDrain(s, ctx)) && AllFrom(e, acts)
  {
    hide LoopHead;
    acts := [];
    if s.drain.Resting? {
      acts := LoopHeadActs(s, ctx, e);
    }
  }

  lemma QueueActs(s: State, q: Entry, ctx: Context, e: Event) returns (acts: seq<Action>)
    requires Can(s, Queues(q, false)) && From(e, Queues(q, false))
    ensures Does(s, acts, EnqueueAndDrain(s, q, ctx)) && AllFrom(e, acts)
  {
    hide Can, From, StartDrain, Does, Enqueue;
    var rest := StartDrainActs(Enqueue(s, q, false), ctx, e);
    acts := [Queues(q, false)] + rest;
    DoesThen(s, Queues(q, false), rest, EnqueueAndDrain(s, q, ctx));
  }

  lemma TriggerActs(s: State, routine: RoutineId, index: nat, now: int, id: RunId, ctx: Context) returns (acts: seq<Action>)
    ensures Does(s, acts, TriggerFires(s, routine, index, now, id, ctx)) && AllFrom(TriggerFired(routine, index, now, id, ctx), acts)
  {
    hide EnqueueAndDrain, Audit, Does, HasRoutine;
    var e := TriggerFired(routine, index, now, id, ctx);
    var t := TriggerFires(s, routine, index, now, id, ctx);
    var stamped := s.(enqueuedAt := s.enqueuedAt[routine := now]);
    DoesNothing(s);
    if t == s {
      acts := [];
    } else {
      DoesOne(s, Audits(routine, id));
      if t == Audit(s, routine, id) {
        acts := [Audits(routine, id)];
      } else {
        var rest;
        if t == Audit(stamped, routine, id) {
          rest := [Audits(routine, id)];
          DoesOne(stamped, Audits(routine, id));
        } else {
          rest := QueueActs(stamped, Entry(routine, id, index, s.routines[routine].triggers[index].kind, Some(now), NO_PAYLOAD, None), ctx, e);
        }
        acts := [Stamps(routine, now)] + rest;
        DoesThen(s, Stamps(routine, now), rest, t);
      }
    }
  }

  lemma DoesNothing(s: State)
    ensures Does(s, [], s)
  {
  }

  lemma RequestActs(s: State, routine: RoutineId, index: nat, payload: Payload, now: int, id: RunId, ctx: Context) returns (acts: seq<Action>)
    ensures Does(s, acts, Requested(s, routine, index, payload, now, id, ctx))
    ensures AllFrom(FireRequested(routine, index, payload, now, id, ctx), acts)
  {
    hide EnqueueAndDrain, Audit, Does;
    var e := FireRequested(routine, index, payload, now, id, ctx);
    if routine !in s.routines || index >= |s.routines[routine].triggers| {
      acts := [];
      DoesNothing(s);
    } else if s.routines[routine].paused {
      acts := [Audits(routine, id)];
      DoesOne(s, Audits(routine, id));
    } else {
      acts := QueueActs(s, Entry(routine, id, index, s.routines[routine].triggers[index].kind, Some(now), payload, None), ctx, e);
    }
  }

  lemma RunNowActs(s: State, routine: RoutineId, now: int, id: RunId, ctx: Context) returns (acts: seq<Action>)
    ensures Does(s, acts, RunNow(s, routine, now, id, ctx)) && AllFrom(RanNow(routine, now, id, ctx), acts)
  {
    hide EnqueueAndDrain, Does, HasRoutine;
    if routine !in s.routines || s.turn || HasRoutine(s.queue, routine) {
      acts := [];
      DoesNothing(s);
    } else {
      acts := QueueActs(s, Entry(routine, id, -1, Manual, Some(now), NO_PAYLOAD, None), ctx, RanNow(routine, now, id, ctx));
    }
  }

  lemma CatchUpActs(s: State, routine: RoutineId, index: nat, kind: Kind, payload: Payload, now: int, id: RunId) returns (acts: seq<Action>)
    ensures Does(s, acts, CatchUp(s, routine, index, kind, payload, now, id))
    ensures AllFrom(CaughtUp(routine, index, kind, payload, now, id), acts)
  {
    hide Enqueue, Does, HasRoutine;
    var t := CatchUp(s, routine, index, kind, payload, now, id);
    if routine !in s.routines || s.routines[routine].paused || HasRoutine(s.queue, routine)
       || (s.pending.Some? && s.pending.value.routine == routine) {
      acts := [];
      DoesNothing(s);
    } else {
      acts := [Queues(Entry(routine, id, index, kind, Some(now), payload, None), false)];
      DoesOne(s, acts[0]);
    }
  }

  lemma PassOverActs(s: State, routine: RoutineId, id: RunId) returns (acts: seq<Action>)
    ensures Does(s, acts, PassOverPaused(s, routine, id)) && AllFrom(PausedPassedOver(routine, id), acts)
  {
    hide Audit, Does;
    if routine in s.routines && s.routines[routine].paused {
      acts := [Audits(routine, id)];
      DoesOne(s, Audits(routine, id));
    } else {
      acts := [];
      DoesNothing(s);
    }
  }

  lemma HookActs(s: State, p: Pick, now: int, e: Event) returns (acts: seq<Action>)
    requires Brings(e, p.id) && Carries(e, p.payload) && NowOf(e) == Some(now)
    ensures Does(s, acts, EnqueueHook(s, p, now)) && AllFrom(e, acts)
  {
    hide Audit, Enqueue, Does, Brings, Carries;
    if p.routine !in s.routines || !p.due {
      acts := [];
      DoesNothing(s);
    } else if |s.queue| >= MAX_QUEUE_DEPTH {
      acts := [Audits(p.routine, p.id)];
      DoesOne(s, Audits(p.routine, p.id));
    } else {
      acts := [Queues(Entry(p.routine, p.id, p.index, Hook, Some(now), p.payload, None), false)];
      DoesOne(s, acts[0]);
    }
  }

  lemma {:induction false} OfferActs(s: State, picks: seq<Pick>, now: int, ctx: Context, e: Event) returns (acts: seq<Action>)
    requires NowOf(e) == Some(now) && forall i :: 0 <= i < |picks| ==> Brings(e, picks[i].id) && Carries(e, picks[i].payload)
    ensures Does(s, acts, OfferHooks(s, picks, now, ctx)) && AllFrom(e, acts)
    decreases |picks|
  {
    hide EnqueueHook, StartDrain, Does, Brings, Carries, From;
    if picks == [] || s.turn {
      acts := [];
      DoesNothing(s);
    } else {
      var t := EnqueueHook(s, picks[0], now);
      var first := HookActs(s, picks[0], now, e);
      var rest;
      if HookIsQueued(s, picks[0]) {
        rest := StartDrainActs(t, ctx, e);
      } else {
        rest := OfferActs(t, picks[1..], now, ctx, e);
      }
      acts := first + rest;
      DoesConcat(s, first, t, rest, OfferHooks(s, picks, now, ctx));
    }
  }

  lemma {:induction false} PromoteActs(s: State, items: seq<DeferredHook>, ids: seq<RunId>, known: set<HookId>, now: int, e: Event) returns (acts: seq<Action>)
    requires |ids| == |items| && e.AgentEnded? && e.hasUI && e.now == now && forall i :: 0 <= i < |ids| ==> ids[i] in e.ids
    ensures Does(s, acts, Promote(s, items, ids, known, now)) && AllFrom(e, acts)
    decreases |items|
  {
    hide Enqueue, Audit, DropHook, Does;
    if items == [] || |s.queue| >= MAX_QUEUE_DEPTH {
      acts := [];
      DoesNothing(s);
    } else {
      var item := items[0];
      if item.id in known {
        acts := PromoteActs(s, items[1..], ids[1..], known, now, e);
      } else if !IsShutdownHook(s, item) || s.routines[item.routine].paused {
        var t := s.(hooks := DropHook(s.hooks, Some(item.id)));
        var rest;
        if item.routine in s.routines {
          var more := PromoteActs(Audit(t, item.routine, ids[0]), items[1..], ids[1..], known, now, e);
          rest := [Audits(item.routine, ids[0])] + more;
          DoesThen(t, Audits(item.routine, ids[0]), more, Promote(s, items, ids, known, now));
        } else {
          rest := PromoteActs(t, items[1..], ids[1..], known, now, e);
        }
        acts := [DropsHook(item.id)] + rest;
        DoesThen(s, DropsHook(item.id), rest, Promote(s, items, ids, known, now));
      } else {
        var q := Entry(item.routine, ids[0], item.index, Hook, Some(now), NO_PAYLOAD.(contextNote := Some(item.note)), Some(item.id));
        var rest := PromoteActs(Enqueue(s, q, true), items[1..], ids[1..], known + {item.id}, now, e);
        acts := [Queues(q, true)] + rest;
        DoesThen(s, Queues(q, true), rest, Promote(s, items, ids, known, now));
      }
    }
  }

  lemma ResumeActs(s: State, f: Firing, ctx: Context) returns (acts: seq<Action>)
    ensures Does(s, acts, ResumeDrain(s, f, ctx)) && AllFrom(DrainResumed(f, ctx), acts)
  {
    hide LoopHead, FireEntry, DropHook, Does, Discard, LogSkip;
    var ev := DrainResumed(f, ctx);
    DoesNothing(s);
    match s.drain
    case Resting => acts := [];
    case Looping => acts := LoopHeadActs(s, ctx, ev);
    case Holding(e) =>
      if e.routine in s.routines && !(s.routines[e.routine].paused && e.kind != Manual) {
        acts := [Fires(f)];
        DoesOne(s, Fires(f));
      } else {
        var t := GivenUp(s);
        GivenUpLoops(s);
        if e.routine !in s.routines && e.deferred.Some? {
          acts := [GivesUp];
          DoesOne(s, GivesUp);
        } else {
          var rest := LoopHeadActs(t, ctx, ev);
          acts := [GivesUp] + rest;
          DoesThen(s, GivesUp, rest, LoopHead(t, ctx));
        }
      }
  }

  lemma GivenUpLoops(s: State)
    requires s.drain.Holding?
    ensures GivenUp(s).drain == Looping
  {
  }

  lemma AgentEndActs(s: State, hasUI: bool, ids: seq<RunId>, now: int, ctx: Context) returns (acts: seq<Action>)
    requires |ids| == |s.hooks|
    ensures Does(s, acts, AgentEnds(s, hasUI, ids, now, ctx)) && AllFrom(AgentEnded(hasUI, ids, now, ctx), acts)
  {
    hide Promote, StartDrain, Does, Log;
    var e := AgentEnded(hasUI, ids, now, ctx);
    var closed := CloseTurn(s);
    CloseKeepsHooks(s);
    var middle, mid := [], closed;
    DoesNothing(closed);
    if hasUI {
      middle := PromoteActs(closed, closed.hooks, ids, KnownHooks(closed), now, e);
      mid := Promote(closed, closed.hooks, ids, KnownHooks(closed), now);
    }
    var rest := StartDrainActs(mid, ctx, e);
    DoesConcat(closed, middle, mid, rest, StartDrain(mid, ctx));
    acts := [Closes] + (middle + rest);
    DoesThen(s, Closes, middle + rest, AgentEnds(s, hasUI, ids, now, ctx));
  }

  lemma CloseKeepsHooks(s: State)
    ensures CloseTurn(s).hooks == s.hooks
  {
  }

  lemma ShutdownActs(s: State) returns (acts: seq<Action>)
    ensures Does(s, acts, Shutdown(s)) && AllFrom(ShutDown, acts)
  {
    hide Does, Ids, Log;
    DoesOne(Stop(s), Interrupts);
    acts := [Clears] + [Interrupts];
    DoesThen(s, Clears, [Interrupts], Shutdown(s));
  }

  lemma OneAct(s: State, a: Action, e: Event) returns (acts: seq<Action>)
    requires Can(s, a) && From(e, a)
    ensures Does(s, acts, Act(s, a)) && AllFrom(e, acts)
  {
    acts := [a];
    DoesOne(s, a);
  }

  lemma MessageActs(s: State, isToken: bool, hasText: bool, opens: bool) returns (acts: seq<Action>)
    ensures Does(s, acts, MessageEnds(s, isToken, hasText, opens)) && AllFrom(MessageEnded(isToken, hasText, opens), acts)
  {
    hide Does;
    var t := MessageEnds(s, isToken, hasText, opens);
    if t == s {
      acts := [];
      DoesNothing(s);
    } else {
      acts := OneAct(s, Marks(t.pending.value.status, t.pending.value.quiet), MessageEnded(isToken, hasText, opens));
    }
  }

  lemma TickActs(s: State, ctx: Context) returns (acts: seq<Action>)
    ensures Does(s, acts, WatchdogTick(s, ctx)) && AllFrom(WatchdogTicked(ctx), acts)
  {
    hide Does, StartDrain;
    DoesNothing(s);
    if !s.watchdog {
      acts := [];
    } else if s.queue == [] {
      acts := OneAct(s, Disarms, WatchdogTicked(ctx));
    } else {
      acts := StartDrainActs(s, ctx, WatchdogTicked(ctx));
    }
  }

  lemma SettleActs(s: State, ctx: Context) returns (acts: seq<Action>)
    ensures Does(s, acts, AgentSettles(s, ctx)) && AllFrom(AgentSettled(ctx), acts)
  {
    hide StartDrain;
    acts := [];
    if !s.turn {
      acts := StartDrainActs(s, ctx, AgentSettled(ctx));
    }
  }

  /** Every step is a list of actions that its event accounts for. */
  lemma StepActs(s: State, e: Event) returns (acts: seq<Action>)
    requires Enabled(s, e)
    ensures Does(s, acts, Step(s, e)) && AllFrom(e, acts)
  {
    hide TriggerFires, Requested, RunNow, CatchUp, PassOverPaused, EnqueueHook, OfferHooks, ResumeDrain, WatchdogTick,
         MessageEnds, AgentEnds, AgentSettles, Save, SetPaused, DeleteRoutine, Shutdown, Does, AllFrom;
    match e
    case TriggerFired(routine, index, now, id, ctx) => acts := TriggerActs(s, routine, index, now, id, ctx);
    case FireRequested(routine, index, payload, now, id, ctx) => acts := RequestActs(s, routine, index, payload, now, id, ctx);
    case RanNow(routine, now, id, ctx) => acts := RunNowActs(s, routine, now, id, ctx);
    case CaughtUp(routine, index, kind, payload, now, id) => acts := CatchUpActs(s, routine, index, kind, payload, now, id);
    case PausedPassedOver(routine, id) => acts := PassOverActs(s, routine, id);
    case HookPicked(pick, now) => acts := HookActs(s, pick, now, e);
    case HooksOffered(picks, now, ctx) => acts := OfferActs(s, picks, now, ctx, e);
    case DrainResumed(f, ctx) => acts := ResumeActs(s, f, ctx);
    case WatchdogTicked(ctx) => acts := TickActs(s, ctx);
    case MessageEnded(isToken, hasText, opens) => acts := MessageActs(s, isToken, hasText, opens);
    case AgentEnded(hasUI, ids, now, ctx) => acts := AgentEndActs(s, hasUI, ids, now, ctx);
    case AgentSettled(ctx) => acts := SettleActs(s, ctx);
    case Saved(routine, value) => acts := OneAct(s, Saves(routine, value), e);
    case PauseSet(routine, paused) => acts := OneAct(s, Pauses(routine, paused), e);
    case RoutineDeleted(routine) => acts := OneAct(s, Deletes(routine), e);
    case ShutDown => acts := ShutdownActs(s);
  }

  // ---------------------------------------------------------------- the invariant, by action

  /** Each action keeps the invariant of the fire queue. */
  lemma ActKeepsInv(s: State, a: Action, one: RunId)
    requires Inv(s, one) && Can(s, a)
    ensures Inv(Act(s, a), one)
  {
    match a
    case Queues(e, priority) => EnqueueKeepsInv(s, e, priority, one);
    case Audits(routine, id) => AuditKeepsInv(s, routine, id, one);
    case Stamps(routine, now) => StampKeepsInv(s, routine, now, one);
    case Shifts => ShiftKeepsInv(s, one);
    case Exits => ExitKeepsInv(s, one);
    case Clears => StopKeepsInv(s, one);
    case GivesUp => GiveUpKeepsInv(s, s.drain.entry, one);
    case Fires(f) => FireKeepsInv(s, s.drain.entry, f, one);
    case Marks(_, _) => MarkKeepsInv(s, a, one);
    case Closes => CloseKeepsInv(s, one);
    case Interrupts => InterruptKeepsInv(s, one);
    case DropsHook(_) => HooksKeepInv(s, a, one);
    case Saves(routine, value) => SaveKeepsInv(s, routine, value, one);
    case Pauses(routine, paused) => PauseKeepsInv(s, routine, paused, one);
    case Deletes(routine) => DeleteKeepsInv(s, routine, one);
    case Disarms => DisarmKeepsInv(s, one);
  }

  lemma MarkKeepsInv(s: State, a: Action, one: RunId)
    requires Inv(s, one) && Can(s, a) && a.Marks?
    ensures Inv(Act(s, a), one)
  {
    hide Ids, Normals, DeferredFirst;
  }

  lemma InterruptKeepsInv(s: State, one: RunId)
    requires Inv(s, one)
    ensures Inv(Interrupted(s), one)
  {
    hide Ids, Normals, DeferredFirst, RecordRun;
  }

  lemma HooksKeepInv(s: State, a: Action, one: RunId)
    requires Inv(s, one) && a.DropsHook?
    ensures Inv(Act(s, a), one)
  {
    hide Ids, Normals, DeferredFirst, DropHook;
  }

  lemma DisarmKeepsInv(s: State, one: RunId)
    requires Inv(s, one) && s.queue == []
    ensures Inv(s.(watchdog := false), one)
  {
    hide Ids, Normals, DeferredFirst;
  }
}
