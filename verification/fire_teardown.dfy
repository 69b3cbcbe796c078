// What happens to the saved queue when events still arrive between a teardown and the next load.
module FireTeardown {
  import opened Common
  import opened FireBudget
  import opened FireState
  import opened FireInvariants
  import opened FireActions
  import opened FireDeferred

  // ---------------------------------------------------------------- the guards that let an event queue something

  predicate Running(s: State, routine: RoutineId) {
    s.pending.Some? && s.pending.value.routine == routine
  }

  predicate HasTrigger(s: State, routine: RoutineId, index: nat) {
    routine in s.routines && index < |s.routines[routine].triggers| && !s.routines[routine].paused
  }

  /** The event passes every gate before the queue. */
  predicate Admits(s: State, e: Event) {
    match e
    case TriggerFired(routine, index, now, _, _) =>
      && HasTrigger(s, routine, index)
      && now - (if routine in s.enqueuedAt then s.enqueuedAt[routine] else 0) >= MULTI_TRIGGER_COLLAPSE_MS
      && !Running(s, routine) && !HasRoutine(s.queue, routine)
    case FireRequested(routine, index, _, _, _, _) => HasTrigger(s, routine, index)
    case RanNow(routine, _, _, _) => routine in s.routines && !s.turn && !HasRoutine(s.queue, routine)
    case CaughtUp(routine, _, _, _, _, _) =>
      routine in s.routines && !s.routines[routine].paused && !HasRoutine(s.queue, routine) && !Running(s, routine)
    case HookPicked(pick, _) => HookIsQueued(s, pick)
    case HooksOffered(picks, _, _) => !s.turn && exists i :: 0 <= i < |picks| && HookIsQueued(s, picks[i])
    case AgentEnded(hasUI, _, _, _) => hasUI && Promoted(CloseTurn(s), s.hooks, KnownHooks(CloseTurn(s))) != []
    case _ => false
  }

  /** The event rewrites the saved queue: it queues something, or deletes a routine with a saved entry. */
  predicate Disturbs(s: State, e: Event) {
    Admits(s, e) || (e.RoutineDeleted? && e.routine in s.routines && HasRoutine(s.mirror, e.routine))
  }

  ghost predicate Undisturbed(s: State, es: seq<Event>)
    decreases |es|
  {
    es != [] ==> !Disturbs(s, es[0]) && (Enabled(s, es[0]) ==> Undisturbed(Step(s, es[0]), es[1..]))
  }

  // ---------------------------------------------------------------- an undisturbed step

  ghost predicate SameQueue(s: State, t: State) {
    t.queue == s.queue && t.mirror == s.mirror && t.h.issued == s.h.issued
  }

  lemma EmptyDrain(s: State, ctx: Context)
    requires s.queue == []
    ensures SameQueue(s, StartDrain(s, ctx)) && SameQueue(s, LoopHead(s, ctx))
  {
  }

  lemma SmallSteps(s: State, routine: RoutineId, id: RunId)
    ensures SameQueue(s, Audit(s, routine, id)) && SameQueue(s, LogSkip(s, routine, id)) && SameQueue(s, CloseTurn(s))
    ensures Audit(s, routine, id).routines == s.routines
    ensures CloseTurn(s).hooks == s.hooks && CloseTurn(s).routines == s.routines
  {
  }

  lemma {:induction false} NoneOffered(s: State, picks: seq<Pick>, now: int, ctx: Context)
    requires s.queue == [] && (s.turn || forall i :: 0 <= i < |picks| ==> !HookIsQueued(s, picks[i]))
    ensures SameQueue(s, OfferHooks(s, picks, now, ctx))
    decreases |picks|
  {
    if picks != [] && !s.turn {
      assert EnqueueHook(s, picks[0], now) == s;
      NoneOffered(s, picks[1..], now, ctx);
    }
  }

  lemma {:induction false} NonePromoted(s: State, items: seq<DeferredHook>, ids: seq<RunId>, known: set<HookId>, now: int)
    requires |ids| == |items| && s.queue == [] && Promotable(s, items, known) == []
    ensures SameQueue(s, Promote(s, items, ids, known, now))
    decreases |items|
  {
    hide Audit, DropHook, Enqueue;
    if items != [] {
      var item := items[0];
      var t := s.(hooks := DropHook(s.hooks, Some(item.id)));
      SmallSteps(t, item.routine, ids[0]);
      PromotableAlike(s, t, items[1..], known);
      PromotableAlike(s, Audit(t, item.routine, ids[0]), items[1..], known);
      if item.id in known {
        NonePromoted(s, items[1..], ids[1..], known, now);
      } else if item.routine in s.routines {
        NonePromoted(Audit(t, item.routine, ids[0]), items[1..], ids[1..], known, now);
      } else {
        NonePromoted(t, items[1..], ids[1..], known, now);
      }
    }
  }

  lemma {:induction false} NoneDeleted(mirror: seq<Entry>, routine: RoutineId)
    requires !HasRoutine(mirror, routine)
    ensures Without(mirror, routine) == mirror
  {
    if mirror != [] {
      assert mirror[0].routine != routine;
      assert forall i :: 0 <= i < |mirror[1..]| ==> mirror[1..][i] == mirror[i + 1];
      NoneDeleted(mirror[1..], routine);
    }
  }

  lemma ResumeKeepsEmpty(s: State, f: Firing, ctx: Context)
    requires s.queue == []
    ensures SameQueue(s, ResumeDrain(s, f, ctx))
  {
    hide LoopHead, FireEntry, DropHook, LogSkip, Discard;
    match s.drain
    case Resting =>
    case Looping => EmptyDrain(s, ctx);
    case Holding(e) =>
      if e.routine in s.routines && !(s.routines[e.routine].paused && e.kind != Manual) {
        FiringKeepsQueue(s, e, f);
      } else {
        GivenUpKeepsQueue(s);
        EmptyDrain(GivenUp(s), ctx);
        assert ResumeDrain(s, f, ctx) == GivenUp(s) || ResumeDrain(s, f, ctx) == LoopHead(GivenUp(s), ctx);
      }
  }

  lemma GivenUpKeepsQueue(s: State)
    requires s.drain.Holding?
    ensures SameQueue(s, GivenUp(s))
  {
    hide DropHook, RecordRun;
  }

  /** A fire touches neither the queue nor what is saved of it. */
  lemma FiringKeepsQueue(s: State, e: Entry, f: Firing)
    requires e.routine in s.routines
    ensures var t := FireEntry(s, e, f);
            SameQueue(s, t) && t.h.stranded == s.h.stranded && t.h.audited == s.h.audited
  {
    hide RecordRun, Fire, DropHook;
  }

  lemma AgentEndKeepsEmpty(s: State, hasUI: bool, ids: seq<RunId>, now: int, ctx: Context)
    requires s.queue == [] && |ids| == |s.hooks| && !Admits(s, AgentEnded(hasUI, ids, now, ctx))
    ensures SameQueue(s, AgentEnds(s, hasUI, ids, now, ctx))
  {
    hide Promote, Promotable, StartDrain, RecordRun;
    var closed := CloseTurn(s);
    SmallSteps(s, "", "");
    if hasUI {
      assert Promotable(closed, s.hooks, KnownHooks(closed)) == [];
      NonePromoted(closed, closed.hooks, ids, KnownHooks(closed), now);
      EmptyDrain(Promote(closed, closed.hooks, ids, KnownHooks(closed), now), ctx);
    } else {
      EmptyDrain(closed, ctx);
    }
  }

  /** Over an empty queue an event that does not disturb changes neither the queue nor what is saved. */
  lemma UndisturbedStep(s: State, e: Event)
    requires s.queue == [] && Enabled(s, e) && !Disturbs(s, e)
    ensures SameQueue(s, Step(s, e))
  {
    hide Audit, LogSkip, StartDrain, LoopHead, EnqueueAndDrain, Enqueue, OfferHooks, Promote, Promoted, Log, RecordRun, AgentEnds, ResumeDrain;
    match e
    case TriggerFired(routine, index, now, id, ctx) =>
      SmallSteps(s, routine, id);
      SmallSteps(s.(enqueuedAt := s.enqueuedAt[routine := now]), routine, id);
    case FireRequested(routine, _, _, _, id, _) => SmallSteps(s, routine, id);
    case PausedPassedOver(routine, id) => SmallSteps(s, routine, id);
    case HooksOffered(picks, now, ctx) => NoneOffered(s, picks, now, ctx);
    case DrainResumed(f, ctx) => ResumeKeepsEmpty(s, f, ctx);
    case AgentEnded(hasUI, ids, now, ctx) => AgentEndKeepsEmpty(s, hasUI, ids, now, ctx);
    case AgentSettled(ctx) => EmptyDrain(s, ctx);
    case RoutineDeleted(routine) => DeleteKeepsSaved(s, routine);
    case ShutDown => ShutdownKeepsSaved(s);
    case _ =>
  }

  lemma DeleteKeepsSaved(s: State, routine: RoutineId)
    requires s.queue == [] && (routine in s.routines ==> !HasRoutine(s.mirror, routine))
    ensures SameQueue(s, DeleteRoutine(s, routine))
  {
    if routine in s.routines {
      NoneDeleted(s.mirror, routine);
    }
  }

  lemma ShutdownKeepsSaved(s: State)
    requires s.queue == []
    ensures SameQueue(s, Shutdown(s))
  {
    hide RecordRun;
  }

  // ---------------------------------------------------------------- a disturbing step

  /** Issued ids only grow in number. */
  lemma ActIssues(s: State, a: Action)
    requires Can(s, a)
    ensures Act(s, a).h.issued == if a.Queues? then s.h.issued + multiset{a.e.run} else s.h.issued
    ensures forall id :: s.h.stranded[id] <= Act(s, a).h.stranded[id] && s.h.audited[id] <= Act(s, a).h.audited[id]
  {
    hide Normals, Ids, RecordRun, FireEntry, DropHook, Enqueue, DeleteRoutine;
    match a
    case Queues(e, priority) => EnqueueIssues(s, e, priority);
    case Fires(f) => FiringKeepsQueue(s, s.drain.entry, f);
    case Deletes(routine) => DeleteIssuesNothing(s, routine);
    case _ =>
  }

  lemma DeleteIssuesNothing(s: State, routine: RoutineId)
    ensures var t := DeleteRoutine(s, routine); t.h.issued == s.h.issued && t.h.audited == s.h.audited && t.h.stranded == s.h.stranded
  {
    hide Ids, Without, Of;
  }

  lemma DrainIssuesNothing(s: State, ctx: Context)
    ensures StartDrain(s, ctx).h.issued == s.h.issued
  {
    hide Normals, Ids;
  }

  lemma EnqueueIssues(s: State, e: Entry, priority: bool)
    ensures Enqueue(s, e, priority).h.issued == s.h.issued + multiset{e.run}
    ensures var t := Enqueue(s, e, priority);
            t.turn == s.turn && t.mirror == Normals(t.queue) && t.h.stranded == s.h.stranded && t.h.audited == s.h.audited
  {
    hide Normals, Insert, MakeRoom;
    MadeRoomIssuesNothing(s, priority);
  }

  lemma MadeRoomIssuesNothing(s: State, priority: bool)
    ensures var t := MakeRoom(s, priority);
            t.turn == s.turn && t.h.issued == s.h.issued && t.h.stranded == s.h.stranded && t.h.audited == s.h.audited
  {
    hide Normals, RecordRun, RemoveAt;
  }

  lemma {:induction false} OfferIssues(s: State, picks: seq<Pick>, now: int, ctx: Context)
    requires s.queue == [] && !s.turn && exists i :: 0 <= i < |picks| && HookIsQueued(s, picks[i])
    ensures |OfferHooks(s, picks, now, ctx).h.issued| > |s.h.issued|
    decreases |picks|
  {
    hide StartDrain, Enqueue;
    var p := picks[0];
    if HookIsQueued(s, p) {
      var q := Entry(p.routine, p.id, p.index, Hook, Some(now), p.payload, None);
      EnqueueIssues(s, q, false);
      DrainIssuesNothing(Enqueue(s, q, false), ctx);
    } else {
      var i :| 0 <= i < |picks| && HookIsQueued(s, picks[i]);
      assert picks[1..][i - 1] == picks[i];
      OfferIssues(s, picks[1..], now, ctx);
    }
  }

  lemma {:induction false} PromoteIssues(s: State, items: seq<DeferredHook>, ids: seq<RunId>, known: set<HookId>, now: int)
    requires |ids| == |items|
    ensures |Promote(s, items, ids, known, now).h.issued| >= |s.h.issued|
    ensures s.queue == [] && Promotable(s, items, known) != [] ==> |Promote(s, items, ids, known, now).h.issued| > |s.h.issued|
    decreases |items|
  {
    hide Audit, DropHook, Enqueue;
    if items != [] && |s.queue| < MAX_QUEUE_DEPTH {
      var item := items[0];
      if item.id in known {
        PromoteIssues(s, items[1..], ids[1..], known, now);
      } else if !IsShutdownHook(s, item) || s.routines[item.routine].paused {
        var t := s.(hooks := DropHook(s.hooks, Some(item.id)));
        var u := if item.routine in s.routines then Audit(t, item.routine, ids[0]) else t;
        SmallSteps(t, item.routine, ids[0]);
        PromotableAlike(s, u, items[1..], known);
        PromoteIssues(u, items[1..], ids[1..], known, now);
      } else {
        var e := Entry(item.routine, ids[0], item.index, Hook, Some(now), NO_PAYLOAD.(contextNote := Some(item.note)), Some(item.id));
        EnqueueIssues(s, e, true);
        PromoteIssues(Enqueue(s, e, true), items[1..], ids[1..], known + {item.id}, now);
      }
    }
  }

  /** What passes the gates issues a run id. */
  lemma AdmittedIssues(s: State, e: Event)
    requires s.queue == [] && Enabled(s, e) && Admits(s, e)
    ensures |Step(s, e).h.issued| > |s.h.issued|
  {
    hide StartDrain, Enqueue, OfferHooks, Promote, Promoted;
    match e
    case TriggerFired(routine, index, now, id, ctx) =>
      QueueIssues(s.(enqueuedAt := s.enqueuedAt[routine := now]),
                  Entry(routine, id, index, s.routines[routine].triggers[index].kind, Some(now), NO_PAYLOAD, None), ctx);
    case FireRequested(routine, index, payload, now, id, ctx) =>
      QueueIssues(s, Entry(routine, id, index, s.routines[routine].triggers[index].kind, Some(now), payload, None), ctx);
    case RanNow(routine, now, id, ctx) => QueueIssues(s, Entry(routine, id, -1, Manual, Some(now), NO_PAYLOAD, None), ctx);
    case CaughtUp(routine, index, kind, payload, now, id) => EnqueueIssues(s, Entry(routine, id, index, kind, Some(now), payload, None), false);
    case HookPicked(p, now) => EnqueueIssues(s, Entry(p.routine, p.id, p.index, Hook, Some(now), p.payload, None), false);
    case HooksOffered(picks, now, ctx) => OfferIssues(s, picks, now, ctx);
    case AgentEnded(hasUI, ids, now, ctx) => AgentEndIssues(s, ids, now, ctx);
  }

  lemma QueueIssues(s: State, e: Entry, ctx: Context)
    ensures EnqueueAndDrain(s, e, ctx).h.issued == s.h.issued + multiset{e.run}
  {
    hide StartDrain, Enqueue;
    EnqueueIssues(s, e, false);
    DrainIssuesNothing(Enqueue(s, e, false), ctx);
  }

  lemma AgentEndIssues(s: State, ids: seq<RunId>, now: int, ctx: Context)
    requires s.queue == [] && |ids| == |s.hooks| && Admits(s, AgentEnded(true, ids, now, ctx))
    ensures |AgentEnds(s, true, ids, now, ctx).h.issued| > |s.h.issued|
  {
    hide StartDrain, Promote, Promotable, RecordRun;
    var closed := CloseTurn(s);
    SmallSteps(s, "", "");
    PromoteIssues(closed, closed.hooks, ids, KnownHooks(closed), now);
    DrainIssuesNothing(Promote(closed, closed.hooks, ids, KnownHooks(closed), now), ctx);
  }

  // ---------------------------------------------------------------- what is lost stays lost

  /** The run `one` was stranded by a teardown and is not in the saved queue. */
  ghost predicate Forgotten(s: State, one: RunId) {
    Inv(s, one) && s.h.stranded[one] >= 1 && Ids(s.mirror)[one] == 0
  }

  /** Nothing has happened to the saved queue yet. */
  ghost predicate Intact(s: State, saved: seq<Entry>, issued: multiset<RunId>, one: RunId) {
    Inv(s, one) && s.h.stranded[one] >= 1 && s.queue == [] && s.mirror == saved && s.h.issued == issued
  }

  lemma {:induction false} NormalsAreFewer(queue: seq<Entry>, one: RunId)
    ensures Ids(Normals(queue))[one] <= Ids(queue)[one]
  {
    if queue != [] {
      NormalsAreFewer(queue[1..], one);
      assert ([queue[0]] + Normals(queue[1..]))[1..] == Normals(queue[1..]);
    }
  }

  /** What an action does to the saved queue. */
  lemma MirrorAfter(s: State, a: Action)
    requires Can(s, a)
    ensures var t := Act(s, a);
            if a.Queues? || a.Shifts? then t.mirror == Normals(t.queue)
            else if a.Deletes? then t.mirror == s.mirror || t.mirror == Without(s.mirror, a.routine)
            else t.mirror == s.mirror && (s.queue == [] ==> t.queue == [])
  {
    hide Normals, Ids, Log, FireEntry, DropHook, Enqueue, GivenUp, Audit;
    match a
    case Queues(e, priority) => EnqueueIssues(s, e, priority);
    case Fires(f) => FiringKeepsQueue(s, s.drain.entry, f);
    case GivesUp => GivenUpKeepsQueue(s);
    case Audits(routine, id) => SmallSteps(s, routine, id);
    case Closes => SmallSteps(s, "", "");
    case Interrupts => InterruptKeepsQueue(s);
    case _ =>
  }

  lemma InterruptKeepsQueue(s: State)
    ensures SameQueue(s, Interrupted(s))
  {
    hide RecordRun;
  }

  lemma WithoutIsFewer(mirror: seq<Entry>, routine: RoutineId, one: RunId)
    ensures Ids(Without(mirror, routine))[one] <= Ids(mirror)[one]
  {
    IdsOfSplit(mirror, routine);
    assert (Ids(Without(mirror, routine)) + Ids(Of(mirror, routine)))[one] == Ids(mirror)[one];
  }

  /** A stranded run that is not issued again is not queued again. */
  lemma StrandedIsNotQueued(s: State, one: RunId)
    requires Inv(s, one) && s.h.stranded[one] >= 1 && s.h.issued[one] + s.h.audited[one] <= 1
    ensures Ids(s.queue)[one] == 0 && Ids(Normals(s.queue))[one] == 0
  {
    NormalsAreFewer(s.queue, one);
  }

  lemma ActKeepsForgotten(s: State, a: Action, saved: seq<Entry>, issued: multiset<RunId>, one: RunId)
    requires Can(s, a) && (Forgotten(s, one) || (Intact(s, saved, issued, one) && !a.Deletes?))
    requires Act(s, a).h.issued[one] + Act(s, a).h.audited[one] <= 1
    ensures Forgotten(Act(s, a), one) || Intact(Act(s, a), saved, issued, one)
    ensures Forgotten(s, one) ==> Forgotten(Act(s, a), one)
  {
    hide Inv, Act, Ids, Normals;
    var t := Act(s, a);
    ActKeepsInv(s, a, one);
    ActIssues(s, a);
    MirrorAfter(s, a);
    StrandedIsNotQueued(t, one);
    if a.Deletes? {
      WithoutIsFewer(s.mirror, a.routine, one);
    }
  }

  lemma {:induction false} ActsOnlyIssue(s: State, acts: seq<Action>, last: State, one: RunId)
    requires Does(s, acts, last)
    ensures s.h.issued[one] <= last.h.issued[one] && s.h.audited[one] <= last.h.audited[one]
    decreases |acts|
  {
    hide Act, Can;
    if acts != [] {
      ActIssues(s, acts[0]);
      ActsOnlyIssue(Act(s, acts[0]), acts[1..], last, one);
    }
  }

  ghost predicate NoDeletes(acts: seq<Action>) {
    forall i :: 0 <= i < |acts| ==> !acts[i].Deletes?
  }

  lemma {:induction false} ActsKeepForgotten(s: State, acts: seq<Action>, last: State, saved: seq<Entry>, issued: multiset<RunId>, one: RunId)
    requires Does(s, acts, last) && last.h.issued[one] + last.h.audited[one] <= 1
    requires Forgotten(s, one) || (Intact(s, saved, issued, one) && NoDeletes(acts))
    ensures Forgotten(last, one) || Intact(last, saved, issued, one)
    ensures Forgotten(s, one) ==> Forgotten(last, one)
    decreases |acts|
  {
    hide Act, Can, Forgotten, Intact;
    if acts != [] {
      var t := Act(s, acts[0]);
      ActsOnlyIssue(t, acts[1..], last, one);
      ActKeepsForgotten(s, acts[0], saved, issued, one);
      ActsKeepForgotten(t, acts[1..], last, saved, issued, one);
    }
  }

  lemma StepKeepsForgotten(s: State, e: Event, one: RunId)
    requires Forgotten(s, one) && Enabled(s, e) && Step(s, e).h.issued[one] + Step(s, e).h.audited[one] <= 1
    ensures Forgotten(Step(s, e), one)
  {
    hide Step, Forgotten, Does;
    var acts := StepActs(s, e);
    ActsKeepForgotten(s, acts, Step(s, e), [], multiset{}, one);
  }

  lemma StepOnlyIssues(s: State, e: Event, one: RunId)
    requires Enabled(s, e)
    ensures s.h.issued[one] <= Step(s, e).h.issued[one] && s.h.audited[one] <= Step(s, e).h.audited[one]
  {
    hide Step, Does;
    var acts := StepActs(s, e);
    ActsOnlyIssue(s, acts, Step(s, e), one);
  }

  lemma {:induction false} RunOnlyIssues(s: State, es: seq<Event>, last: State, one: RunId)
    requires Runs(s, es, last)
    ensures s.h.issued[one] <= last.h.issued[one] && s.h.audited[one] <= last.h.audited[one]
    decreases |es|
  {
    hide Step, Enabled;
    if es != [] {
      StepOnlyIssues(s, es[0], one);
      RunOnlyIssues(Step(s, es[0]), es[1..], last, one);
    }
  }

  lemma {:induction false} RunKeepsForgotten(s: State, es: seq<Event>, last: State, one: RunId)
    requires Forgotten(s, one) && Runs(s, es, last) && last.h.issued[one] + last.h.audited[one] <= 1
    ensures Forgotten(last, one)
    decreases |es|
  {
    hide Step, Forgotten;
    if es != [] {
      RunOnlyIssues(Step(s, es[0]), es[1..], last, one);
      StepKeepsForgotten(s, es[0], one);
      RunKeepsForgotten(Step(s, es[0]), es[1..], last, one);
    }
  }

  /** An admitted event makes the saved queue forget every stranded run. */
  lemma AdmittedForgets(s: State, e: Event, one: RunId)
    requires Intact(s, s.mirror, s.h.issued, one) && Enabled(s, e) && Admits(s, e)
    requires Step(s, e).h.issued[one] + Step(s, e).h.audited[one] <= 1
    ensures Forgotten(Step(s, e), one)
  {
    hide Step, Does, Inv, Ids, Admits;
    AdmittedIssues(s, e);
    var acts := StepActs(s, e);
    assert NoDeletes(acts) by {
      AdmitsNoDelete(s, e);
      forall i | 0 <= i < |acts|
        ensures !acts[i].Deletes?
      {
        assert From(e, acts[i]);
      }
    }
    ActsKeepForgotten(s, acts, Step(s, e), s.mirror, s.h.issued, one);
  }

  lemma AdmitsNoDelete(s: State, e: Event)
    requires Admits(s, e)
    ensures !e.RoutineDeleted?
  {
  }

  lemma {:induction false} OfMembers(queue: seq<Entry>, routine: RoutineId, i: nat)
    requires i < |queue| && queue[i].routine == routine
    ensures Ids(Of(queue, routine))[queue[i].run] >= 1
  {
    if i > 0 {
      OfMembers(queue[1..], routine, i - 1);
    }
    var rest := Of(queue[1..], routine);
    assert ([queue[0]] + rest)[1..] == rest;
  }

  lemma DeleteForgets(s: State, routine: RoutineId, i: nat)
    requires i < |s.mirror| && s.mirror[i].routine == routine && routine in s.routines && s.queue == []
    requires Ids(s.mirror)[s.mirror[i].run] <= 1 && Inv(s, s.mirror[i].run) && s.h.stranded[s.mirror[i].run] >= 1
    ensures Forgotten(DeleteRoutine(s, routine), s.mirror[i].run)
  {
    hide Ids, Inv, Normals, Of, Without;
    var one := s.mirror[i].run;
    DeleteKeepsInv(s, routine, one);
    OfMembers(s.mirror, routine, i);
    IdsOfSplit(s.mirror, routine);
    assert (Ids(Without(s.mirror, routine)) + Ids(Of(s.mirror, routine)))[one] == Ids(s.mirror)[one];
    assert DeleteRoutine(s, routine).h.stranded == s.h.stranded;
  }

  // ---------------------------------------------------------------- the exact condition

  lemma {:induction false} SomeId(queue: seq<Entry>, i: nat)
    requires i < |queue|
    ensures Ids(queue)[queue[i].run] >= 1
  {
    if i > 0 {
      SomeId(queue[1..], i - 1);
    }
  }

  /** Everything saved was stranded, and nothing of it is issued twice. */
  ghost predicate SavedOnce(s: State, saved: seq<Entry>, last: State) {
    forall id :: id in Ids(saved) ==> Inv(s, id) && s.h.stranded[id] >= 1 && Ids(saved)[id] <= 1
                                      && last.h.issued[id] + last.h.audited[id] <= 1
  }

  lemma SavedOnceAfter(s: State, saved: seq<Entry>, last: State, e: Event)
    requires SavedOnce(s, saved, last) && Enabled(s, e) && SameQueue(s, Step(s, e)) && s.queue == [] && s.mirror == saved
    requires forall id :: Step(s, e).h.issued[id] <= last.h.issued[id] && Step(s, e).h.audited[id] <= last.h.audited[id]
    ensures SavedOnce(Step(s, e), saved, last)
  {
    hide Step, Inv, Ids;
    forall id | id in Ids(saved)
      ensures Inv(Step(s, e), id) && Step(s, e).h.stranded[id] >= 1
    {
      StepKeepsInv(s, e, id);
      StepStrands(s, e, id);
    }
  }

  lemma StepStrands(s: State, e: Event, one: RunId)
    requires Enabled(s, e)
    ensures s.h.stranded[one] <= Step(s, e).h.stranded[one]
  {
    hide Step, Does;
    var acts := StepActs(s, e);
    ActsStrand(s, acts, Step(s, e), one);
  }

  lemma {:induction false} ActsStrand(s: State, acts: seq<Action>, last: State, one: RunId)
    requires Does(s, acts, last)
    ensures s.h.stranded[one] <= last.h.stranded[one]
    decreases |acts|
  {
    hide Act, Can;
    if acts != [] {
      ActIssues(s, acts[0]);
      ActsStrand(Act(s, acts[0]), acts[1..], last, one);
    }
  }

  lemma DisturbedForgets(s: State, saved: seq<Entry>, e: Event, last: State) returns (one: RunId)
    requires s.queue == [] && s.mirror == saved && saved != [] && SavedOnce(s, saved, last)
    requires Enabled(s, e) && Disturbs(s, e)
    requires forall id :: Step(s, e).h.issued[id] <= last.h.issued[id] && Step(s, e).h.audited[id] <= last.h.audited[id]
    ensures one in Ids(saved) && Forgotten(Step(s, e), one)
  {
    hide Ids, Inv, Admits, Step, DeleteRoutine;
    if Admits(s, e) {
      one := saved[0].run;
      SomeId(saved, 0);
      AdmittedForgets(s, e, one);
    } else {
      var i :| 0 <= i < |s.mirror| && s.mirror[i].routine == e.routine;
      one := saved[i].run;
      SomeId(saved, i);
      DeleteForgets(s, e.routine, i);
      DeleteIsStep(s, e);
    }
  }

  lemma DeleteIsStep(s: State, e: Event)
    requires e.RoutineDeleted? && Enabled(s, e)
    ensures Step(s, e) == DeleteRoutine(s, e.routine)
  {
  }

  lemma {:induction false} SavedUntilDisturbed(s: State, saved: seq<Entry>, es: seq<Event>, last: State)
    requires s.queue == [] && s.mirror == saved && saved != [] && Runs(s, es, last) && SavedOnce(s, saved, last)
    ensures last.mirror == saved <==> Undisturbed(s, es)
    decreases |es|
  {
    hide Step, SavedOnce, Ids, Disturbs, Inv;
    if es != [] {
      var t := Step(s, es[0]);
      forall id
        ensures t.h.issued[id] <= last.h.issued[id] && t.h.audited[id] <= last.h.audited[id]
      {
        RunOnlyIssues(t, es[1..], last, id);
      }
      if Disturbs(s, es[0]) {
        var one := DisturbedForgets(s, saved, es[0], last);
        OnceIs(s, saved, last, one);
        RunKeepsForgotten(t, es[1..], last, one);
        ForgottenIs(last, one);
      } else {
        UndisturbedStep(s, es[0]);
        SavedOnceAfter(s, saved, last, es[0]);
        SavedUntilDisturbed(t, saved, es[1..], last);
      }
    }
  }

  lemma OnceIs(s: State, saved: seq<Entry>, last: State, one: RunId)
    requires SavedOnce(s, saved, last) && one in Ids(saved)
    ensures last.h.issued[one] + last.h.audited[one] <= 1
  {
  }

  lemma ForgottenIs(s: State, one: RunId)
    requires Forgotten(s, one)
    ensures one !in Ids(s.mirror)
  {
  }

  lemma TeardownSavesOnce(s: State, last: State)
    requires (forall one :: Inv(s, one)) && !s.stopped
    requires forall id :: Shutdown(s).h.issued[id] <= last.h.issued[id] && Shutdown(s).h.audited[id] <= last.h.audited[id]
    requires forall id :: id in Ids(Normals(s.queue)) ==> last.h.issued[id] + last.h.audited[id] <= 1
    ensures SavedOnce(Shutdown(s), Normals(s.queue), last)
  {
    hide Inv, Ids, Normals, Shutdown;
    forall id | id in Ids(Normals(s.queue))
      ensures Inv(Shutdown(s), id) && Shutdown(s).h.stranded[id] >= 1 && Ids(Normals(s.queue))[id] <= 1
    {
      ShutdownKeepsInv(s, id);
      NormalsAreFewer(s.queue, id);
      ShutdownStrands(s);
      QueuedWasIssued(s, id);
    }
  }

  lemma ShutdownStrands(s: State)
    ensures Shutdown(s).h.stranded == s.h.stranded + Ids(s.queue)
    ensures Shutdown(s).h.issued == s.h.issued && Shutdown(s).h.audited == s.h.audited
    ensures Shutdown(s).queue == [] && Shutdown(s).mirror == s.mirror
  {
    hide Ids, RecordRun;
  }

  lemma QueuedWasIssued(s: State, one: RunId)
    requires Inv(s, one)
    ensures Ids(s.queue)[one] <= s.h.issued[one] + s.h.audited[one]
  {
  }

  /** What a teardown saved is still there at the next load exactly when no event in between rewrote it. (With run
      ids that are never reused; a teardown that saved nothing has nothing to lose.) */
  lemma SavedQueueSurvivesIff(s: State, es: seq<Event>, last: State)
    requires (forall one :: Inv(s, one)) && !s.stopped && Normals(s.queue) != [] && Runs(Shutdown(s), es, last)
    requires forall id :: id in Ids(Normals(s.queue)) ==> last.h.issued[id] + last.h.audited[id] <= 1
    ensures last.mirror == Normals(s.queue) <==> Undisturbed(Shutdown(s), es)
  {
    hide Inv, Ids, Normals, Shutdown, Runs, Undisturbed;
    forall id
      ensures Shutdown(s).h.issued[id] <= last.h.issued[id] && Shutdown(s).h.audited[id] <= last.h.audited[id]
    {
      RunOnlyIssues(Shutdown(s), es, last, id);
    }
    TeardownSavesOnce(s, last);
    ShutdownStrands(s);
    assert Inv(s, "");
    MirrorIsNormals(s);
    SavedUntilDisturbed(Shutdown(s), Normals(s.queue), es, last);
  }

  lemma MirrorIsNormals(s: State)
    requires Inv(s, "") && !s.stopped
    ensures s.mirror == Normals(s.queue)
  {
  }

  /** In one direction nothing is needed of the run ids, nor of what was saved. */
  lemma {:induction false} UndisturbedKeepsSaved(s: State, es: seq<Event>, last: State)
    requires s.queue == [] && Runs(s, es, last) && Undisturbed(s, es)
    ensures last.queue == [] && last.mirror == s.mirror
    decreases |es|
  {
    hide Step, Disturbs;
    if es != [] {
      UndisturbedStep(s, es[0]);
      UndisturbedKeepsSaved(Step(s, es[0]), es[1..], last);
    }
  }
}
