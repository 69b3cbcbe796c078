// A deferred shutdown hook is in one place at a time, except after one kind of step.
module FireDeferred {
  import opened Common
  import opened FireBudget
  import opened FireState
  import opened FireInvariants
  import opened FireActions

  function HookIds(queue: seq<Entry>): set<HookId> {
    set i | 0 <= i < |queue| && queue[i].deferred.Some? :: queue[i].deferred.value
  }

  ghost predicate QueuedOnce(queue: seq<Entry>) {
    forall i, j :: 0 <= i < j < |queue| && queue[i].deferred.Some? ==> queue[i].deferred != queue[j].deferred
  }

  function PendingHook(pending: Option<PendingRun>): Option<HookId> {
    if pending.Some? then pending.value.deferred else None
  }

  function HeldHook(drain: Drain): Option<HookId> {
    if drain.Holding? then drain.entry.deferred else None
  }

  ghost predicate Absent(id: Option<HookId>, queue: seq<Entry>) {
    id.Some? ==> id.value !in HookIds(queue)
  }

  /** No deferred hook is in two of: the queue, the pending run, the drain's hand. */
  ghost predicate HooksOnce(s: State) {
    && QueuedOnce(s.queue)
    && Absent(PendingHook(s.pending), s.queue)
    && Absent(HeldHook(s.drain), s.queue)
  }

  // ---------------------------------------------------------------- lists

  lemma RemovedHooks(queue: seq<Entry>, i: nat)
    requires i < |queue|
    ensures HookIds(RemoveAt(queue, i)) <= HookIds(queue)
    ensures QueuedOnce(queue) ==> QueuedOnce(RemoveAt(queue, i)) && Absent(queue[i].deferred, RemoveAt(queue, i))
  {
    var r := RemoveAt(queue, i);
    assert forall j :: 0 <= j < |r| ==> r[j] == queue[if j < i then j else j + 1];
  }

  lemma {:induction false} WithoutHooks(queue: seq<Entry>, routine: RoutineId)
    ensures HookIds(Without(queue, routine)) <= HookIds(queue)
    ensures QueuedOnce(queue) ==> QueuedOnce(Without(queue, routine))
  {
    if queue != [] {
      var tail := queue[1..];
      WithoutHooks(tail, routine);
      assert forall j :: 0 <= j < |tail| ==> tail[j] == queue[j + 1];
      if queue[0].routine != routine {
        var rest := Without(tail, routine);
        var r := [queue[0]] + rest;
        assert forall j :: 1 <= j < |r| ==> r[j] == rest[j - 1];
        assert forall j :: 0 <= j < |rest| && rest[j].deferred.Some? ==> rest[j].deferred.value in HookIds(rest);
      }
    }
  }

  lemma InsertedHooks(queue: seq<Entry>, e: Entry, priority: bool)
    ensures HookIds(Insert(queue, e, priority)) == HookIds(queue) + (if e.deferred.Some? then {e.deferred.value} else {})
    ensures QueuedOnce(queue) && Absent(e.deferred, queue) ==> QueuedOnce(Insert(queue, e, priority))
  {
    var i := if priority then FirstNormal(queue) else |queue|;
    var r := Insert(queue, e, priority);
    assert |r| == |queue| + 1;
    assert forall j :: 0 <= j < |r| ==> r[j] == if j < i then queue[j] else if j == i then e else queue[j - 1];
    assert r[i] == e;
    forall h | h in HookIds(queue)
      ensures h in HookIds(r)
    {
      var j :| 0 <= j < |queue| && queue[j].deferred == Some(h);
      assert r[if j < i then j else j + 1] == queue[j];
    }
    assert forall j :: 0 <= j < |queue| && queue[j].deferred.Some? ==> queue[j].deferred.value in HookIds(queue);
  }

  // ---------------------------------------------------------------- actions

  lemma EnqueuedHooks(s: State, e: Entry, priority: bool)
    requires HooksOnce(s) && (priority <==> e.deferred.Some?)
    requires Absent(e.deferred, s.queue) && (e.deferred.Some? ==> e.deferred != PendingHook(s.pending) && e.deferred != HeldHook(s.drain))
    ensures HooksOnce(Enqueue(s, e, priority))
  {
    hide Insert, HookIds, QueuedOnce, MakeRoom, Normals;
    MadeRoomHooks(s, priority);
    InsertedHooks(MakeRoom(s, priority).queue, e, priority);
  }

  lemma MadeRoomHooks(s: State, priority: bool)
    ensures var t := MakeRoom(s, priority);
            && t.pending == s.pending && t.drain == s.drain
            && HookIds(t.queue) <= HookIds(s.queue) && (QueuedOnce(s.queue) ==> QueuedOnce(t.queue))
  {
    hide Normals, Ids, RecordRun, RemoveAt, HookIds, QueuedOnce;
    if |s.queue| >= MAX_QUEUE_DEPTH {
      RemovedHooks(s.queue, Victim(s.queue, priority));
    }
  }

  /** Every action keeps each deferred hook in one place, unless it queues one that is somewhere already. */
  lemma ActKeepsHooksOnce(s: State, a: Action)
    requires Sound(s) && HooksOnce(s) && Can(s, a)
    requires a.Queues? && a.priority ==> Absent(a.e.deferred, s.queue) && a.e.deferred != PendingHook(s.pending) && a.e.deferred != HeldHook(s.drain)
    ensures HooksOnce(Act(s, a))
  {
    hide Normals, Ids, HookIds, QueuedOnce, Enqueue;
    match a
    case Queues(e, priority) => EnqueuedHooks(s, e, priority);
    case Shifts =>
      RemovedHooks(s.queue, 0);
      assert RemoveAt(s.queue, 0) == s.queue[1..];
    case Clears => NoHooks();
    case Deletes(routine) => WithoutHooks(s.queue, routine);
    case _ => OtherActs(s, a);
  }

  lemma OtherActs(s: State, a: Action)
    requires Can(s, a) && !a.Queues? && !a.Shifts? && !a.Clears? && !a.Deletes?
    ensures var t := Act(s, a);
            && t.queue == s.queue
            && (t.drain == s.drain || (!t.drain.Holding? && (a.Exits? || a.GivesUp? || a.Fires?)))
            && (PendingHook(t.pending) == PendingHook(s.pending) || t.pending.None? || (a.Fires? && PendingHook(t.pending) == HeldHook(s.drain)))
  {
    hide Normals, Ids, RecordRun, FireEntry, DropHook, PendingHook;
    match a
    case Fires(f) => FiredHook(s, f);
    case Marks(_, _) => MarkedHook(s, a);
    case _ =>
  }

  lemma MarkedHook(s: State, a: Action)
    requires a.Marks? && Can(s, a)
    ensures PendingHook(Act(s, a).pending) == PendingHook(s.pending)
  {
  }

  lemma FiredHook(s: State, f: Firing)
    requires s.drain.Holding? && s.drain.entry.routine in s.routines
    ensures var t := FireEntry(s, s.drain.entry, f);
            && t.queue == s.queue
            && (t.pending == s.pending || t.pending.None? || PendingHook(t.pending) == HeldHook(s.drain))
  {
    hide Normals, Ids, RecordRun, Fire, DropHook;
  }

  lemma NoHooks()
    ensures QueuedOnce([]) && HookIds([]) == {}
  {
  }

  ghost predicate NoPriority(acts: seq<Action>) {
    forall i :: 0 <= i < |acts| ==> !(acts[i].Queues? && acts[i].priority)
  }

  lemma {:induction false} ActsKeepHooksOnce(s: State, acts: seq<Action>, last: State)
    requires Inv(s, "") && HooksOnce(s) && Does(s, acts, last) && NoPriority(acts)
    ensures HooksOnce(last)
    decreases |acts|
  {
    hide Inv, HooksOnce, Act, Can;
    if acts != [] {
      InvIsSound(s);
      ActKeepsHooksOnce(s, acts[0]);
      ActKeepsInv(s, acts[0], "");
      ActsKeepHooksOnce(Act(s, acts[0]), acts[1..], last);
    }
  }

  lemma InvIsSound(s: State)
    requires Inv(s, "")
    ensures Sound(s)
  {
  }

  // ---------------------------------------------------------------- what a promotion queues

  /** The stored hooks that can be promoted, in order, whether or not there is room. */
  function Promotable(s: State, items: seq<DeferredHook>, known: set<HookId>): seq<HookId> {
    if items == [] then []
    else if items[0].id in known || !IsShutdownHook(s, items[0]) || s.routines[items[0].routine].paused then
      Promotable(s, items[1..], known)
    else [items[0].id] + Promotable(s, items[1..], known + {items[0].id})
  }

  /** Those for which there is room. */
  function Promoted(s: State, items: seq<DeferredHook>, known: set<HookId>): seq<HookId> {
    var ids := Promotable(s, items, known);
    var room := Max(0, MAX_QUEUE_DEPTH - |s.queue|);
    if |ids| <= room then ids else ids[..room]
  }

  lemma {:induction false} PromotableAlike(s: State, t: State, items: seq<DeferredHook>, known: set<HookId>)
    requires s.routines == t.routines
    ensures Promotable(s, items, known) == Promotable(t, items, known)
    decreases |items|
  {
    if items != [] {
      PromotableAlike(s, t, items[1..], known);
      PromotableAlike(s, t, items[1..], known + {items[0].id});
    }
  }

  /** Promotion adds exactly those hooks to the queue, each once. */
  lemma {:induction false} PromoteQueues(s: State, items: seq<DeferredHook>, ids: seq<RunId>, known: set<HookId>, now: int)
    requires |ids| == |items| && QueuedOnce(s.queue) && HookIds(s.queue) <= known
    ensures var t := Promote(s, items, ids, known, now);
            && QueuedOnce(t.queue) && t.pending == s.pending && t.drain == s.drain
            && (forall h :: h in HookIds(t.queue) <==> h in HookIds(s.queue) || h in Promoted(s, items, known))
    ensures forall h :: h in Promoted(s, items, known) ==> h !in known
    decreases |items|
  {
    hide HookIds, QueuedOnce, Normals, Ids, DropHook, Audit, Insert;
    if items != [] && |s.queue| < MAX_QUEUE_DEPTH {
      var item := items[0];
      if item.id in known {
        PromoteQueues(s, items[1..], ids[1..], known, now);
      } else if !IsShutdownHook(s, item) || NotRunning(s, item.routine) {
        var t := s.(hooks := DropHook(s.hooks, Some(item.id)));
        var u := if item.routine in s.routines then Audit(t, item.routine, ids[0]) else t;
        AuditKeepsQueue(t, item.routine, ids[0]);
        PromoteQueues(u, items[1..], ids[1..], known, now);
        PromotableAlike(s, u, items[1..], known);
      } else {
        PromoteOneMore(s, items, ids, known, now);
      }
    }
  }

  predicate NotRunning(s: State, routine: RoutineId) {
    routine in s.routines && s.routines[routine].paused
  }

  lemma AuditKeepsQueue(s: State, routine: RoutineId, id: RunId)
    ensures var t := Audit(s, routine, id); t.queue == s.queue && t.routines == s.routines && t.pending == s.pending && t.drain == s.drain
  {
  }

  lemma PromoteOneMore(s: State, items: seq<DeferredHook>, ids: seq<RunId>, known: set<HookId>, now: int)
    requires |ids| == |items| && items != [] && |s.queue| < MAX_QUEUE_DEPTH && items[0].id !in known
    requires IsShutdownHook(s, items[0]) && !s.routines[items[0].routine].paused
    requires QueuedOnce(s.queue) && HookIds(s.queue) <= known
    ensures var t := Promote(s, items, ids, known, now);
            && QueuedOnce(t.queue) && t.pending == s.pending && t.drain == s.drain
            && (forall h :: h in HookIds(t.queue) <==> h in HookIds(s.queue) || h in Promoted(s, items, known))
    ensures forall h :: h in Promoted(s, items, known) ==> h !in known
    decreases |items|, 0
  {
    hide HookIds, QueuedOnce, Normals, Ids, DropHook, Insert;
    var item := items[0];
    var e := Entry(item.routine, ids[0], item.index, Hook, Some(now), NO_PAYLOAD.(contextNote := Some(item.note)), Some(item.id));
    var u := Enqueue(s, e, true);
    InsertedHooks(s.queue, e, true);
    assert |Insert(s.queue, e, true)| == |s.queue| + 1 by {
      InsertLength(s.queue, e);
    }
    assert u.queue == Insert(s.queue, e, true) && u.routines == s.routines && u.pending == s.pending && u.drain == s.drain;
    PromoteQueues(u, items[1..], ids[1..], known + {item.id}, now);
    PromotableAlike(s, u, items[1..], known + {item.id});
    var rest := Promotable(s, items[1..], known + {item.id});
    assert Promoted(s, items, known) == [item.id] + Promoted(u, items[1..], known + {item.id});
  }

  lemma InsertLength(queue: seq<Entry>, e: Entry)
    ensures |Insert(queue, e, true)| == |queue| + 1
  {
  }

  // ---------------------------------------------------------------- steps and runs

  /** An `agent_end` that promotes hooks while the drain holds an entry, with that entry's own hook among those
      that are stored, promotable and find room. */
  predicate PromotesHeld(s: State, e: Event) {
    && e.AgentEnded? && e.hasUI && s.drain.Holding? && s.drain.entry.deferred.Some?
    && s.drain.entry.deferred.value in Promoted(s, s.hooks, KnownHooks(s))
  }

  lemma QueuedIsKnown(s: State)
    ensures HookIds(s.queue) <= KnownHooks(s)
    ensures PendingHook(s.pending).Some? ==> PendingHook(s.pending).value in KnownHooks(s)
  {
  }

  lemma AgentEndBreaksIff(s: State, e: Event)
    requires Inv(s, "") && HooksOnce(s) && Enabled(s, e) && e.AgentEnded?
    ensures HooksOnce(Step(s, e)) <==> !PromotesHeld(s, e)
  {
    hide Inv, Promote, Promotable, Promoted, KnownHooks, HookIds, QueuedOnce, Ids, Normals, RecordRun;
    var AgentEnded(hasUI, ids, now, ctx) := e;
    var closed := CloseTurn(s);
    CloseKeepsInv(s, "");
    InvIsSound(s);
    CloseKeepsHooks(s);
    assert closed.queue == s.queue && closed.drain == s.drain && closed.pending.None?;
    if hasUI {
      var t := Promote(closed, closed.hooks, ids, KnownHooks(closed), now);
      PromoteKeepsInv(closed, closed.hooks, ids, KnownHooks(closed), now, "");
      QueuedIsKnown(closed);
      PromoteQueues(closed, closed.hooks, ids, KnownHooks(closed), now);
      if s.drain.Holding? {
        assert closed == s;
      } else {
        DrainKeepsHooksOnce(t, ctx, e);
      }
    } else {
      DrainKeepsHooksOnce(closed, ctx, e);
    }
  }

  lemma DrainKeepsHooksOnce(s: State, ctx: Context, e: Event)
    requires Inv(s, "") && HooksOnce(s) && e.AgentEnded?
    ensures HooksOnce(StartDrain(s, ctx))
  {
    hide Inv, HooksOnce, StartDrain, Does;
    var acts := StartDrainActs(s, ctx, AgentSettled(ctx));
    assert NoPriority(acts) by {
      forall i | 0 <= i < |acts|
        ensures !(acts[i].Queues? && acts[i].priority)
      {
        assert From(AgentSettled(ctx), acts[i]);
      }
    }
    ActsKeepHooksOnce(s, acts, StartDrain(s, ctx));
  }

  /** A step puts a deferred hook into a second place exactly when it promotes the one the drain holds. */
  lemma StepBreaksIff(s: State, e: Event)
    requires Inv(s, "") && HooksOnce(s) && Enabled(s, e)
    ensures HooksOnce(Step(s, e)) <==> !PromotesHeld(s, e)
  {
    hide Inv, HooksOnce, Step, Does;
    if e.AgentEnded? {
      AgentEndBreaksIff(s, e);
    } else {
      var acts := StepActs(s, e);
      forall i | 0 <= i < |acts|
        ensures !(acts[i].Queues? && acts[i].priority)
      {
        assert From(e, acts[i]);
      }
      ActsKeepHooksOnce(s, acts, Step(s, e));
    }
  }

  ghost predicate NeverPromotesHeld(s: State, es: seq<Event>)
    decreases |es|
  {
    es != [] ==> !PromotesHeld(s, es[0]) && (Enabled(s, es[0]) ==> NeverPromotesHeld(Step(s, es[0]), es[1..]))
  }

  lemma {:induction false} RunKeepsHooksOnce(s: State, es: seq<Event>, last: State)
    requires Inv(s, "") && HooksOnce(s) && Runs(s, es, last) && NeverPromotesHeld(s, es)
    ensures HooksOnce(last)
    decreases |es|
  {
    hide Inv, HooksOnce, Step, PromotesHeld;
    if es != [] {
      StepBreaksIff(s, es[0]);
      StepKeepsInv(s, es[0], "");
      RunKeepsHooksOnce(Step(s, es[0]), es[1..], last);
    }
  }

  /** In a session in which no `agent_end` promotes the hook the drain holds, each deferred hook is in one place. */
  lemma DeferredHooksAreInOnePlace(s: State, es: seq<Event>, last: State)
    requires Fresh(s) && Runs(s, es, last) && NeverPromotesHeld(s, es)
    ensures HooksOnce(last)
  {
    RunKeepsHooksOnce(s, es, last);
  }

  // ---------------------------------------------------------------- a session in which one hook runs twice

  const HOOKED := Routine([Trigger(Hook, SessionShutdown)], false, false, Limits(None, None))
  const QUIT := DeferredHook("h", "r", 0, "")
  const GO := Firing(0, true, 0)
  const IDLE := Live(true, false)

  const SESSION := State(map["r" := HOOKED], map["r" := FRESH], [], [], [QUIT], map[], Resting, false, false, None, false,
                         History(multiset{}, multiset{}, multiset{}, multiset{}, multiset{}))

  /** The entry that promotion makes of the stored hook. */
  function Replay(id: RunId): Entry {
    Entry("r", id, 0, Hook, Some(0), NO_PAYLOAD.(contextNote := Some("")), Some("h"))
  }

  lemma PromotesQuit(s: State, id: RunId)
    requires s.queue == [] && s.pending.None? && s.hooks == [QUIT] && s.routines == map["r" := HOOKED]
    ensures Promote(s, s.hooks, [id], KnownHooks(s), 0) == Enqueue(s, Replay(id), true)
  {
    assert KnownHooks(s) == {};
    assert IsShutdownHook(s, QUIT);
    assert s.hooks[1..] == [] && [id][1..] == [];
  }

  lemma EnqueueFirst(s: State, e: Entry, priority: bool)
    requires s.queue == []
    ensures var t := Enqueue(s, e, priority);
            && t.queue == [e] && t.routines == s.routines && t.hooks == s.hooks && t.ticks == s.ticks
            && t.turn == s.turn && t.pending == s.pending && t.drain == s.drain
  {
    assert FirstNormal([]) == 0;
  }

  /** Reachable from a fresh session: the hook is promoted and shifted, promoted again while the drain awaits the
      save, and then its routine runs twice. */
  lemma AHookCanRunTwice() returns (es: seq<Event>, last: State)
    ensures Fresh(SESSION) && Runs(SESSION, es, last) && !NeverPromotesHeld(SESSION, es)
    ensures "r" in last.ticks && last.ticks["r"].tickCount == 2
    ensures last.pending == Some(PendingRun("r", "b", Success, false, Some("h")))
  {
    hide Step, PromotesHeld;
    var s1, s2 := PromotedTwice();
    var s3, s4, s5, s6 := TheRest(s2);
    es := [PROMOTE_A, PROMOTE_B, DrainResumed(GO, Missing), AgentEnded(false, [], 0, Missing), DrainResumed(GO, IDLE), DrainResumed(GO, Missing)];
    RunOfSix(es, SESSION, s1, s2, s3, s4, s5, s6);
    assert es[1..][0] == PROMOTE_B;
    last := s6;
  }

  const PROMOTE_A := AgentEnded(true, ["a"], 0, IDLE)
  const PROMOTE_B := AgentEnded(true, ["b"], 0, Missing)

  lemma PromotedTwice() returns (s1: State, s2: State)
    ensures Enabled(SESSION, PROMOTE_A) && s1 == Step(SESSION, PROMOTE_A)
    ensures Enabled(s1, PROMOTE_B) && s2 == Step(s1, PROMOTE_B) && PromotesHeld(s1, PROMOTE_B)
    ensures s2.drain == Holding(Replay("a")) && s2.queue == [Replay("b")] && s2.routines == SESSION.routines && s2.hooks == [QUIT]
    ensures s2.pending.None? && !s2.turn && s2.ticks == SESSION.ticks
  {
    hide Normals, Ids, RecordRun, Promote, KnownHooks, Enqueue;
    PromotesQuit(SESSION, "a");
    EnqueueFirst(SESSION, Replay("a"), true);
    s1 := Step(SESSION, PROMOTE_A);
    PromotesQuit(s1, "b");
    EnqueueFirst(s1, Replay("b"), true);
    HeldQuitIsPromoted(s1);
    s2 := Step(s1, PROMOTE_B);
  }

  lemma HeldQuitIsPromoted(s: State)
    requires s.queue == [] && s.pending.None? && s.hooks == [QUIT] && s.routines == map["r" := HOOKED]
    ensures "h" in Promoted(s, s.hooks, KnownHooks(s))
  {
    assert KnownHooks(s) == {};
    assert IsShutdownHook(s, QUIT);
    assert s.hooks[1..] == [];
    assert Promotable(s, s.hooks, {})[0] == "h";
    assert Promoted(s, s.hooks, {})[0] == "h";
  }

  lemma TheRest(s2: State) returns (s3: State, s4: State, s5: State, s6: State)
    requires s2.drain == Holding(Replay("a")) && s2.queue == [Replay("b")] && s2.routines == SESSION.routines && s2.hooks == [QUIT]
    requires s2.pending.None? && !s2.turn && s2.ticks == SESSION.ticks
    ensures s3 == Step(s2, DrainResumed(GO, Missing)) && s3.hooks == []
    ensures s4 == Step(s3, AgentEnded(false, [], 0, Missing)) && s5 == Step(s4, DrainResumed(GO, IDLE)) && s6 == Step(s5, DrainResumed(GO, Missing))
    ensures "r" in s6.ticks && s6.ticks["r"].tickCount == 2
    ensures s6.pending == Some(PendingRun("r", "b", Success, false, Some("h")))
  {
    hide Step;
    assert DropHook([QUIT], Some("h")) == [] by {
      assert [QUIT][1..] == [];
    }
    HeldReplayStarts(s2, "a");
    s3 := Step(s2, DrainResumed(GO, Missing));
    EndAndShift(s3);
    s4 := Step(s3, AgentEnded(false, [], 0, Missing));
    s5 := Step(s4, DrainResumed(GO, IDLE));
    HeldReplayStarts(s5, "b");
    s6 := Step(s5, DrainResumed(GO, Missing));
  }

  lemma EndAndShift(s: State)
    requires s.turn && s.drain.Looping? && s.queue == [Replay("b")] && s.hooks == [] && s.routines == SESSION.routines
    requires s.pending == Some(PendingRun("r", "a", Success, false, Some("h"))) && "r" in s.ticks && s.ticks["r"].tickCount == 1
    ensures Enabled(s, AgentEnded(false, [], 0, Missing))
    ensures var t := Step(Step(s, AgentEnded(false, [], 0, Missing)), DrainResumed(GO, IDLE));
            && t.drain == Holding(Replay("b")) && !t.turn && t.routines == SESSION.routines
            && "r" in t.ticks && t.ticks["r"].tickCount == 1
  {
    hide Normals, Ids, RecordRun;
    RecordKeepsCount(s.ticks["r"], RunRecord("a", Success, false));
  }

  lemma RecordKeepsCount(t: TickState, run: RunRecord)
    ensures RecordRun(Some(t), run).tickCount == t.tickCount
  {
  }

  lemma HeldReplayStarts(s: State, id: RunId)
    requires s.drain == Holding(Replay(id)) && !s.turn && s.routines == SESSION.routines && "r" in s.ticks
    ensures var t := Step(s, DrainResumed(GO, Missing));
            && t.turn && t.drain == Looping && t.queue == s.queue && t.routines == s.routines && t.hooks == DropHook(s.hooks, Some("h"))
            && t.pending == Some(PendingRun("r", id, Success, false, Some("h")))
            && "r" in t.ticks && t.ticks["r"].tickCount == s.ticks["r"].tickCount + 1
  {
    hide Normals, Ids, RecordRun, DropHook;
  }

  lemma RunOfSix(es: seq<Event>, s0: State, s1: State, s2: State, s3: State, s4: State, s5: State, s6: State)
    requires |es| == 6 && Enabled(s0, es[0]) && s1 == Step(s0, es[0]) && Enabled(s1, es[1]) && s2 == Step(s1, es[1])
    requires Enabled(s2, es[2]) && s3 == Step(s2, es[2]) && Enabled(s3, es[3]) && s4 == Step(s3, es[3])
    requires Enabled(s4, es[4]) && s5 == Step(s4, es[4]) && Enabled(s5, es[5]) && s6 == Step(s5, es[5])
    ensures Runs(s0, es, s6)
  {
    hide Step, Enabled;
    assert es[5..][1..] == [] && es[4..][1..] == es[5..] && es[3..][1..] == es[4..];
    assert es[2..][1..] == es[3..] && es[1..][1..] == es[2..];
    assert Runs(s5, es[5..], s6);
    assert Runs(s4, es[4..], s6);
    assert Runs(s3, es[3..], s6);
    assert Runs(s2, es[2..], s6);
    assert Runs(s1, es[1..], s6);
  }
}
