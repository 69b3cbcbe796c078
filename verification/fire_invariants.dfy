// What every step of the fire queue keeps.
module FireInvariants {
  import opened Common
  import opened FireBudget
  import opened FireState

  // ---------------------------------------------------------------- the invariant, by component

  /** Bounded, and every deferred entry stands before every normal one. */
  ghost predicate Shaped(queue: seq<Entry>) {
    |queue| <= MAX_QUEUE_DEPTH && DeferredFirst(queue)
  }

  ghost predicate DeferredFirst(queue: seq<Entry>) {
    forall i, j :: 0 <= i < j < |queue| && queue[j].deferred.Some? ==> queue[i].deferred.Some?
  }

  /** The persisted mirror is exactly the normal part, unless a teardown has just cleared the queue. */
  ghost predicate Mirrored(queue: seq<Entry>, mirror: seq<Entry>, stopped: bool) {
    if stopped then queue == [] else mirror == Normals(queue)
  }

  /** Work waiting means the watchdog is armed; armed with nothing waiting only while a drain runs. */
  ghost predicate Watched(queue: seq<Entry>, watchdog: bool, drain: Drain) {
    && (queue != [] ==> watchdog)
    && (watchdog && queue == [] ==> !drain.Resting?)
  }

  /** The guard is held exactly while a run is pending, never while the drain holds an entry. */
  ghost predicate Guarded(turn: bool, pending: Option<PendingRun>, drain: Drain) {
    && (turn <==> pending.Some?)
    && (drain.Holding? ==> !turn)
  }

  function InHand(drain: Drain): multiset<RunId> {
    if drain.Holding? then multiset{drain.entry.run} else multiset{}
  }

  function InFlight(pending: Option<PendingRun>): multiset<RunId> {
    if pending.Some? then multiset{pending.value.run} else multiset{}
  }

  /** How often an id occurs, over every place an id can be. */
  function PlacesOf(queue: seq<Entry>, drain: Drain, pending: Option<PendingRun>, h: History, id: RunId): nat {
    Ids(queue)[id] + InHand(drain)[id] + InFlight(pending)[id] + h.logged[id] + h.discarded[id] + h.stranded[id]
  }

  /** Every time an id was issued it is now in one place. */
  ghost predicate Balanced(queue: seq<Entry>, drain: Drain, pending: Option<PendingRun>, h: History, id: RunId) {
    h.issued[id] + h.audited[id] == PlacesOf(queue, drain, pending, h, id)
  }

  ghost predicate Sound(s: State) {
    && Shaped(s.queue)
    && Mirrored(s.queue, s.mirror, s.stopped)
    && Watched(s.queue, s.watchdog, s.drain)
    && Guarded(s.turn, s.pending, s.drain)
  }

  /** Soundness and the account of one run id, whichever it is. */
  ghost predicate Inv(s: State, one: RunId) {
    && Sound(s)
    && Balanced(s.queue, s.drain, s.pending, s.h, one)
  }

  // ---------------------------------------------------------------- lists

  lemma {:induction false} IdsOfConcat(a: seq<Entry>, b: seq<Entry>)
    ensures Ids(a + b) == Ids(a) + Ids(b)
  {
    if a == [] {
      assert a + b == b;
    } else {
      assert (a + b)[1..] == a[1..] + b;
      IdsOfConcat(a[1..], b);
    }
  }

  lemma {:induction false} IdsOfInserted(queue: seq<Entry>, i: nat, e: Entry)
    requires i <= |queue|
    ensures Ids(InsertAt(queue, i, e)) == Ids(queue) + multiset{e.run}
  {
    if i == 0 {
      assert InsertAt(queue, i, e)[1..] == queue;
    } else {
      IdsOfInserted(queue[1..], i - 1, e);
      assert InsertAt(queue, i, e)[1..] == InsertAt(queue[1..], i - 1, e);
    }
  }

  lemma InsertUndoesRemove(queue: seq<Entry>, i: nat)
    requires i < |queue|
    ensures InsertAt(RemoveAt(queue, i), i, queue[i]) == queue
  {
    var rest := RemoveAt(queue, i);
    assert rest[..i] == queue[..i] && rest[i..] == queue[i + 1..];
  }

  lemma IdsOfRemoved(queue: seq<Entry>, i: nat)
    requires i < |queue|
    ensures Ids(queue) == Ids(RemoveAt(queue, i)) + multiset{queue[i].run}
  {
    InsertUndoesRemove(queue, i);
    IdsOfInserted(RemoveAt(queue, i), i, queue[i]);
  }

  lemma {:induction false} IdsOfSplit(queue: seq<Entry>, routine: RoutineId)
    ensures Ids(queue) == Ids(Without(queue, routine)) + Ids(Of(queue, routine))
  {
    if queue != [] {
      IdsOfSplit(queue[1..], routine);
      IdsOfConcat([queue[0]], Without(queue[1..], routine));
      IdsOfConcat([queue[0]], Of(queue[1..], routine));
      assert [queue[0]][1..] == [];
    }
  }

  lemma {:induction false} WithoutCommutesWithNormals(queue: seq<Entry>, routine: RoutineId)
    ensures Normals(Without(queue, routine)) == Without(Normals(queue), routine)
  {
    if queue != [] {
      WithoutCommutesWithNormals(queue[1..], routine);
      var rest := Without(queue[1..], routine);
      assert ([queue[0]] + rest)[1..] == rest;
      assert ([queue[0]] + Normals(queue[1..]))[1..] == Normals(queue[1..]);
    }
  }

  lemma {:induction false} WithoutIsFrom(queue: seq<Entry>, routine: RoutineId)
    ensures |Without(queue, routine)| <= |queue|
    ensures forall e :: e in Without(queue, routine) <==> e in queue && e.routine != routine
  {
    if queue != [] {
      WithoutIsFrom(queue[1..], routine);
    }
  }

  lemma {:induction false} WithoutKeepsShape(queue: seq<Entry>, routine: RoutineId)
    requires DeferredFirst(queue)
    ensures DeferredFirst(Without(queue, routine))
  {
    if queue != [] {
      WithoutKeepsShape(queue[1..], routine);
      if queue[0].routine != routine && queue[0].deferred.None? {
        WithoutIsFrom(queue[1..], routine);
        var rest := Without(queue[1..], routine);
        forall j | 0 <= j < |rest|
          ensures rest[j].deferred.None?
        {
          assert rest[j] in queue[1..];
        }
      }
    }
  }

  lemma RemoveKeepsShape(queue: seq<Entry>, i: nat)
    requires DeferredFirst(queue) && i < |queue|
    ensures DeferredFirst(RemoveAt(queue, i))
  {
    var r := RemoveAt(queue, i);
    assert forall j :: 0 <= j < |r| ==> r[j] == queue[if j < i then j else j + 1];
  }

  /** A priority entry is a deferred one; it goes before the first normal entry, any other goes last. */
  lemma InsertKeepsShape(queue: seq<Entry>, e: Entry, priority: bool)
    requires DeferredFirst(queue) && (priority <==> e.deferred.Some?)
    ensures DeferredFirst(Insert(queue, e, priority))
    ensures |Insert(queue, e, priority)| == |queue| + 1
  {
    var i := if priority then FirstNormal(queue) else |queue|;
    var r := Insert(queue, e, priority);
    assert forall j :: 0 <= j < |r| ==> r[j] == if j < i then queue[j] else if j == i then e else queue[j - 1];
  }

  lemma IdsOfInsert(queue: seq<Entry>, e: Entry, priority: bool)
    ensures Ids(Insert(queue, e, priority)) == Ids(queue) + multiset{e.run}
  {
    if priority {
      IdsOfInserted(queue, FirstNormal(queue), e);
    } else {
      IdsOfInserted(queue, |queue|, e);
      assert InsertAt(queue, |queue|, e) == queue + [e];
    }
  }

  // ---------------------------------------------------------------- steps of the queue

  lemma DropKeepsAccount(s: State, i: nat, one: RunId)
    requires i < |s.queue| && Balanced(s.queue, s.drain, s.pending, s.h, one)
    ensures var t := DropAt(s, i); Balanced(t.queue, s.drain, s.pending, t.h, one)
  {
    hide Ids, Normals, RecordRun, InHand, InFlight;
    IdsOfRemoved(s.queue, i);
    var id := s.queue[i].run;
    assert Ids(s.queue)[one] == Ids(RemoveAt(s.queue, i))[one] + multiset{id}[one];
  }

  lemma MakeRoomKeepsAccount(s: State, priority: bool, one: RunId)
    requires Balanced(s.queue, s.drain, s.pending, s.h, one)
    ensures var t := MakeRoom(s, priority); Balanced(t.queue, s.drain, s.pending, t.h, one)
  {
    hide Balanced, DropAt;
    if |s.queue| >= MAX_QUEUE_DEPTH {
      DropKeepsAccount(s, Victim(s.queue, priority), one);
    }
  }

  lemma MakeRoomKeepsShape(s: State, priority: bool)
    requires Shaped(s.queue)
    ensures var t := MakeRoom(s, priority);
            && DeferredFirst(t.queue) && |t.queue| < MAX_QUEUE_DEPTH
            && t.drain == s.drain && t.turn == s.turn && t.pending == s.pending
  {
    hide Ids, Normals, RecordRun;
    if |s.queue| >= MAX_QUEUE_DEPTH {
      RemoveKeepsShape(s.queue, Victim(s.queue, priority));
    }
  }

  lemma EnqueueKeepsAccount(s: State, e: Entry, priority: bool, one: RunId)
    requires Balanced(s.queue, s.drain, s.pending, s.h, one)
    ensures var t := Enqueue(s, e, priority); Balanced(t.queue, s.drain, s.pending, t.h, one)
  {
    hide Ids, Normals, InHand, InFlight, MakeRoom, Insert;
    MakeRoomKeepsAccount(s, priority, one);
    IdsOfInsert(MakeRoom(s, priority).queue, e, priority);
    var t := MakeRoom(s, priority);
    assert Ids(Insert(t.queue, e, priority))[one] == Ids(t.queue)[one] + multiset{e.run}[one];
  }

  lemma EnqueueKeepsInv(s: State, e: Entry, priority: bool, one: RunId)
    requires Inv(s, one) && (priority <==> e.deferred.Some?)
    ensures Inv(Enqueue(s, e, priority), one)
  {
    hide Balanced, MakeRoom, Insert, Normals, DeferredFirst;
    MakeRoomKeepsShape(s, priority);
    InsertKeepsShape(MakeRoom(s, priority).queue, e, priority);
    EnqueueKeepsAccount(s, e, priority, one);
  }

  lemma AuditKeepsInv(s: State, routine: RoutineId, id: RunId, one: RunId)
    requires Inv(s, one)
    ensures Inv(Audit(s, routine, id), one)
  {
  }

  lemma StopKeepsInv(s: State, one: RunId)
    requires Inv(s, one)
    ensures Inv(Stop(s), one)
  {
  }

  lemma IdsOfHead(queue: seq<Entry>)
    requires queue != []
    ensures Ids(queue) == multiset{queue[0].run} + Ids(queue[1..])
  {
  }

  lemma ShiftKeepsInv(s: State, one: RunId)
    requires Inv(s, one) && s.queue != [] && !s.drain.Holding? && !s.turn
    ensures Inv(WithQueue(s, s.queue[1..]).(drain := Holding(s.queue[0])), one)
  {
    hide Normals, Ids, DeferredFirst;
    IdsOfHead(s.queue);
    RemoveKeepsShape(s.queue, 0);
    assert RemoveAt(s.queue, 0) == s.queue[1..];
  }

  lemma ExitKeepsInv(s: State, one: RunId)
    requires Inv(s, one) && !s.drain.Holding?
    ensures Inv(ExitDrain(s), one)
  {
    hide Normals, Ids, DeferredFirst;
  }

  /** The loop head also repairs a watchdog that is armed over an empty queue. */
  lemma LoopHeadKeepsInv(s: State, ctx: Context, one: RunId)
    requires Inv(s, one) && !s.drain.Holding?
    ensures Inv(LoopHead(s, ctx), one)
  {
    hide Inv, ExitDrain, Stop, WithQueue;
    StopKeepsInv(s, one);
    StopKeepsDrain(s);
    ExitKeepsInv(s, one);
    ExitKeepsInv(Stop(s), one);
    if s.queue != [] && !s.turn {
      ShiftKeepsInv(s, one);
    }
  }

  lemma StopKeepsDrain(s: State)
    ensures Stop(s).drain == s.drain
  {
  }

  lemma StartDrainKeepsInv(s: State, ctx: Context, one: RunId)
    requires Inv(s, one)
    ensures Inv(StartDrain(s, ctx), one)
  {
    if s.drain.Resting? {
      LoopHeadKeepsInv(s, ctx, one);
    }
  }

  lemma EnqueueAndDrainKeepsInv(s: State, e: Entry, ctx: Context, one: RunId)
    requires Inv(s, one) && e.deferred.None?
    ensures Inv(EnqueueAndDrain(s, e, ctx), one)
  {
    EnqueueKeepsInv(s, e, false, one);
    StartDrainKeepsInv(Enqueue(s, e, false), ctx, one);
  }

  /** Acquiring the turn from the drain never throws: the entry in hand was taken while no turn was
      active and nothing but the drain itself opens one. */
  lemma AcquireNeverThrows(s: State, e: Entry, f: Firing, one: RunId)
    requires Inv(s, one) && s.drain == Holding(e)
    ensures !s.turn
    ensures RequestOf(e, f, !s.turn).sends == f.sends
  {
  }

  /** What a fire that starts leaves: the turn is this run's, one more start is counted, an automatic one in the
      day's budget too, the deferred hook it stems from is stored no longer, and nothing else has changed. */
  lemma StartedFireMeans(s: State, e: Entry, f: Firing, other: RoutineId)
    requires e.routine in s.routines && Fire(s.routines[e.routine].limits, Tick(s, e.routine), RequestOf(e, f, !s.turn)).Started?
    ensures var before, t := OrFresh(Tick(s, e.routine)), FireEntry(s, e, f);
            && !s.turn && f.sends && t.turn
            && t.pending.Some? && t.pending.value.run == e.run && t.pending.value.routine == e.routine
            && (forall i :: 0 <= i < |t.hooks| ==> t.hooks[i] in s.hooks && Some(t.hooks[i].id) != e.deferred)
            && (forall i :: 0 <= i < |s.hooks| && Some(s.hooks[i].id) != e.deferred ==> s.hooks[i] in t.hooks)
            && Tick(t, e.routine).Some? && Tick(t, e.routine).value.tickCount == before.tickCount + 1
            && UsedOn(Tick(t, e.routine).value, f.sent) ==
               UsedOn(before, f.sent) + (if e.kind == Manual || e.deferred.Some? then 0 else 1)
            && (other != e.routine ==> Tick(t, other) == Tick(s, other))
            && t.queue == s.queue && t.mirror == s.mirror && t.h == s.h
  {
    DroppedHooks(s.hooks, e.deferred);
  }

  lemma {:induction false} DroppedHooks(hooks: seq<DeferredHook>, id: Option<HookId>)
    ensures var r := DropHook(hooks, id); forall i :: 0 <= i < |r| ==> r[i] in hooks && Some(r[i].id) != id
    ensures var r := DropHook(hooks, id); forall i :: 0 <= i < |hooks| && Some(hooks[i].id) != id ==> hooks[i] in r
  {
    if id.Some? && hooks != [] {
      DroppedHooks(hooks[1..], id);
      assert hooks[0] in hooks && forall h :: h in hooks[1..] ==> h in hooks;
      var rest := DropHook(hooks[1..], id);
      forall i | 0 <= i < |hooks| && Some(hooks[i].id) != id
        ensures hooks[i] in DropHook(hooks, id)
      {
        if i > 0 {
          assert hooks[i] == hooks[1..][i - 1];
          assert hooks[i] in rest;
        }
      }
    }
  }

  lemma FireKeepsAccount(s: State, e: Entry, f: Firing, one: RunId)
    requires Guarded(s.turn, s.pending, s.drain) && Balanced(s.queue, s.drain, s.pending, s.h, one)
    requires s.drain == Holding(e) && e.routine in s.routines
    ensures var t := FireEntry(s, e, f); Balanced(t.queue, Looping, t.pending, t.h, one)
  {
    hide Fire, Ids, RequestOf, DropHook, Tick;
    assert s.pending.None?;
    match Fire(s.routines[e.routine].limits, Tick(s, e.routine), RequestOf(e, f, !s.turn))
    case Deleted => assert FireEntry(s, e, f).h.discarded == s.h.discarded + multiset{e.run};
    case Capped(t) => assert FireEntry(s, e, f).h.logged == s.h.logged + multiset{e.run};
    case Failed(t) => assert FireEntry(s, e, f).h.logged == s.h.logged + multiset{e.run};
    case Started(t) => assert FireEntry(s, e, f).h == s.h;
  }

  lemma FireKeepsInv(s: State, e: Entry, f: Firing, one: RunId)
    requires Inv(s, one) && s.drain == Holding(e) && e.routine in s.routines
    ensures Inv(FireEntry(s, e, f).(drain := Looping), one)
  {
    hide Fire, Balanced, Normals, DropHook, RequestOf, DeferredFirst;
    FireKeepsAccount(s, e, f, one);
  }

  lemma GiveUpKeepsInv(s: State, e: Entry, one: RunId)
    requires Inv(s, one) && s.drain == Holding(e)
    ensures Inv(Discard(s.(hooks := DropHook(s.hooks, e.deferred)), e.run).(drain := Looping), one)
    ensures Inv(LogSkip(s.(hooks := DropHook(s.hooks, e.deferred)), e.routine, e.run).(drain := Looping), one)
  {
    hide Ids, Normals, DropHook, RecordRun, DeferredFirst;
  }

  lemma ResumeKeepsInv(s: State, f: Firing, ctx: Context, one: RunId)
    requires Inv(s, one)
    ensures Inv(ResumeDrain(s, f, ctx), one)
  {
    hide Inv, LoopHead, FireEntry, DropHook, Discard, LogSkip;
    match s.drain
    case Resting =>
    case Looping => LoopHeadKeepsInv(s, ctx, one);
    case Holding(e) =>
      GiveUpKeepsInv(s, e, one);
      if e.routine !in s.routines {
        var t := Discard(s.(hooks := DropHook(s.hooks, e.deferred)), e.run).(drain := Looping);
        LoopHeadKeepsInv(t, ctx, one);
      } else if s.routines[e.routine].paused && e.kind != Manual {
        var t := LogSkip(s.(hooks := DropHook(s.hooks, e.deferred)), e.routine, e.run).(drain := Looping);
        LoopHeadKeepsInv(t, ctx, one);
      } else {
        FireKeepsInv(s, e, f, one);
      }
  }

  lemma {:induction false} PromoteKeepsInv(s: State, items: seq<DeferredHook>, ids: seq<RunId>, known: set<HookId>, now: int, one: RunId)
    requires Inv(s, one) && |ids| == |items|
    ensures Inv(Promote(s, items, ids, known, now), one)
    decreases |items|
  {
    if items != [] && |s.queue| < MAX_QUEUE_DEPTH {
      var item := items[0];
      if item.id in known {
        PromoteKeepsInv(s, items[1..], ids[1..], known, now, one);
      } else if !IsShutdownHook(s, item) || s.routines[item.routine].paused {
        var t := s.(hooks := DropHook(s.hooks, Some(item.id)));
        AuditKeepsInv(t, item.routine, ids[0], one);
        PromoteKeepsInv(if item.routine in s.routines then Audit(t, item.routine, ids[0]) else t, items[1..], ids[1..], known, now, one);
      } else {
        var e := Entry(item.routine, ids[0], item.index, Hook, Some(now), NO_PAYLOAD.(contextNote := Some(item.note)), Some(item.id));
        EnqueueKeepsInv(s, e, true, one);
        PromoteKeepsInv(Enqueue(s, e, true), items[1..], ids[1..], known + {item.id}, now, one);
      }
    }
  }

  lemma EnqueueHookKeepsInv(s: State, p: Pick, now: int, one: RunId)
    requires Inv(s, one)
    ensures Inv(EnqueueHook(s, p, now), one)
  {
    if HookIsQueued(s, p) {
      EnqueueKeepsInv(s, Entry(p.routine, p.id, p.index, Hook, Some(now), p.payload, None), false, one);
    }
  }

  lemma {:induction false} OfferKeepsInv(s: State, picks: seq<Pick>, now: int, ctx: Context, one: RunId)
    requires Inv(s, one)
    ensures Inv(OfferHooks(s, picks, now, ctx), one)
    decreases |picks|
  {
    hide Inv, EnqueueHook, StartDrain;
    if picks != [] {
      EnqueueHookKeepsInv(s, picks[0], now, one);
      var t := EnqueueHook(s, picks[0], now);
      StartDrainKeepsInv(t, ctx, one);
      OfferKeepsInv(t, picks[1..], now, ctx, one);
    }
  }

  lemma CloseKeepsInv(s: State, one: RunId)
    requires Inv(s, one)
    ensures Inv(CloseTurn(s), one)
  {
  }

  lemma AgentEndKeepsInv(s: State, hasUI: bool, ids: seq<RunId>, now: int, ctx: Context, one: RunId)
    requires Inv(s, one) && |ids| == |s.hooks|
    ensures Inv(AgentEnds(s, hasUI, ids, now, ctx), one)
  {
    var closed := CloseTurn(s);
    CloseKeepsInv(s, one);
    PromoteKeepsInv(closed, closed.hooks, ids, KnownHooks(closed), now, one);
    StartDrainKeepsInv(if hasUI then Promote(closed, closed.hooks, ids, KnownHooks(closed), now) else closed, ctx, one);
  }

  lemma ShutdownKeepsInv(s: State, one: RunId)
    requires Inv(s, one)
    ensures Inv(Shutdown(s), one)
  {
    StopKeepsInv(s, one);
  }

  lemma DeleteKeepsInv(s: State, routine: RoutineId, one: RunId)
    requires Inv(s, one)
    ensures Inv(DeleteRoutine(s, routine), one)
  {
    if routine in s.routines {
      IdsOfSplit(s.queue, routine);
      WithoutKeepsShape(s.queue, routine);
      WithoutIsFrom(s.queue, routine);
      WithoutCommutesWithNormals(s.queue, routine);
    }
  }

  lemma StampKeepsInv(s: State, routine: RoutineId, now: int, one: RunId)
    requires Inv(s, one)
    ensures Inv(s.(enqueuedAt := s.enqueuedAt[routine := now]), one)
  {
  }

  lemma TriggerKeepsInv(s: State, routine: RoutineId, index: nat, now: int, id: RunId, ctx: Context, one: RunId)
    requires Inv(s, one)
    ensures Inv(TriggerFires(s, routine, index, now, id, ctx), one)
  {
    hide EnqueueAndDrain, Audit, Inv;
    StampKeepsInv(s, routine, now, one);
    var t := s.(enqueuedAt := s.enqueuedAt[routine := now]);
    AuditKeepsInv(s, routine, id, one);
    AuditKeepsInv(t, routine, id, one);
    if routine in s.routines && index < |s.routines[routine].triggers| {
      EnqueueAndDrainKeepsInv(t, Entry(routine, id, index, s.routines[routine].triggers[index].kind, Some(now), NO_PAYLOAD, None), ctx, one);
    }
  }

  lemma RequestKeepsInv(s: State, routine: RoutineId, index: nat, payload: Payload, now: int, id: RunId, ctx: Context, one: RunId)
    requires Inv(s, one)
    ensures Inv(Requested(s, routine, index, payload, now, id, ctx), one)
  {
    hide EnqueueAndDrain, Audit, Inv;
    AuditKeepsInv(s, routine, id, one);
    if routine in s.routines && index < |s.routines[routine].triggers| {
      EnqueueAndDrainKeepsInv(s, Entry(routine, id, index, s.routines[routine].triggers[index].kind, Some(now), payload, None), ctx, one);
    }
  }

  lemma RunNowKeepsInv(s: State, routine: RoutineId, now: int, id: RunId, ctx: Context, one: RunId)
    requires Inv(s, one)
    ensures Inv(RunNow(s, routine, now, id, ctx), one)
  {
    EnqueueAndDrainKeepsInv(s, Entry(routine, id, -1, Manual, Some(now), NO_PAYLOAD, None), ctx, one);
  }

  lemma CatchUpKeepsInv(s: State, routine: RoutineId, index: nat, kind: Kind, payload: Payload, now: int, id: RunId, one: RunId)
    requires Inv(s, one)
    ensures Inv(CatchUp(s, routine, index, kind, payload, now, id), one)
  {
    EnqueueKeepsInv(s, Entry(routine, id, index, kind, Some(now), payload, None), false, one);
  }

  lemma MessageKeepsInv(s: State, isToken: bool, hasText: bool, opensWithToken: bool, one: RunId)
    requires Inv(s, one)
    ensures Inv(MessageEnds(s, isToken, hasText, opensWithToken), one)
  {
  }

  lemma PassOverKeepsInv(s: State, routine: RoutineId, id: RunId, one: RunId)
    requires Inv(s, one)
    ensures Inv(PassOverPaused(s, routine, id), one)
  {
    AuditKeepsInv(s, routine, id, one);
  }

  lemma TickKeepsInv(s: State, ctx: Context, one: RunId)
    requires Inv(s, one)
    ensures Inv(WatchdogTick(s, ctx), one)
  {
    StartDrainKeepsInv(s, ctx, one);
  }

  lemma SaveKeepsInv(s: State, routine: RoutineId, value: Routine, one: RunId)
    requires Inv(s, one)
    ensures Inv(Save(s, routine, value), one)
  {
  }

  lemma PauseKeepsInv(s: State, routine: RoutineId, paused: bool, one: RunId)
    requires Inv(s, one)
    ensures Inv(SetPaused(s, routine, paused), one)
  {
  }

  lemma SettleKeepsInv(s: State, ctx: Context, one: RunId)
    requires Inv(s, one)
    ensures Inv(AgentSettles(s, ctx), one)
  {
    hide StartDrain;
    StartDrainKeepsInv(s, ctx, one);
  }

  /** Every event, at any moment, keeps the invariant. */
  lemma StepKeepsInv(s: State, e: Event, one: RunId)
    requires Inv(s, one) && Enabled(s, e)
    ensures Inv(Step(s, e), one)
  {
    hide TriggerFires, Requested, RunNow, CatchUp, PassOverPaused, EnqueueHook, OfferHooks, ResumeDrain, WatchdogTick,
         MessageEnds, AgentEnds, AgentSettles, Save, SetPaused, DeleteRoutine, Shutdown, Inv;
    match e
    case TriggerFired(routine, index, now, id, ctx) => TriggerKeepsInv(s, routine, index, now, id, ctx, one);
    case FireRequested(routine, index, payload, now, id, ctx) => RequestKeepsInv(s, routine, index, payload, now, id, ctx, one);
    case RanNow(routine, now, id, ctx) => RunNowKeepsInv(s, routine, now, id, ctx, one);
    case CaughtUp(routine, index, kind, payload, now, id) => CatchUpKeepsInv(s, routine, index, kind, payload, now, id, one);
    case PausedPassedOver(routine, id) => PassOverKeepsInv(s, routine, id, one);
    case HookPicked(pick, now) => EnqueueHookKeepsInv(s, pick, now, one);
    case HooksOffered(picks, now, ctx) => OfferKeepsInv(s, picks, now, ctx, one);
    case DrainResumed(f, ctx) => ResumeKeepsInv(s, f, ctx, one);
    case WatchdogTicked(ctx) => TickKeepsInv(s, ctx, one);
    case MessageEnded(isToken, hasText, opens) => MessageKeepsInv(s, isToken, hasText, opens, one);
    case AgentEnded(hasUI, ids, now, ctx) => AgentEndKeepsInv(s, hasUI, ids, now, ctx, one);
    case AgentSettled(ctx) => SettleKeepsInv(s, ctx, one);
    case Saved(routine, value) => SaveKeepsInv(s, routine, value, one);
    case PauseSet(routine, paused) => PauseKeepsInv(s, routine, paused, one);
    case RoutineDeleted(routine) => DeleteKeepsInv(s, routine, one);
    case ShutDown => ShutdownKeepsInv(s, one);
  }

  // ---------------------------------------------------------------- whole sessions

  ghost predicate Runs(s: State, es: seq<Event>, last: State)
    decreases |es|
  {
    if es == [] then s == last
    else Enabled(s, es[0]) && Runs(Step(s, es[0]), es[1..], last)
  }

  /** A session begins with nothing queued, nothing in flight and no history. */
  ghost predicate Fresh(s: State) {
    && s.queue == [] && s.mirror == [] && s.drain.Resting? && !s.watchdog && !s.turn && s.pending.None? && !s.stopped
    && s.h == History(multiset{}, multiset{}, multiset{}, multiset{}, multiset{})
  }

  lemma {:induction false} RunKeepsInv(s: State, es: seq<Event>, last: State, one: RunId)
    requires Inv(s, one) && Runs(s, es, last)
    ensures Inv(last, one)
    decreases |es|
  {
    if es != [] {
      StepKeepsInv(s, es[0], one);
      RunKeepsInv(Step(s, es[0]), es[1..], last, one);
    }
  }

  /** With ids that are never reused, each fire is in exactly one place: queued, in the drain's hand, in
      flight, logged once, discarded with its routine, or stranded by a teardown. */
  lemma EveryFireIsInOnePlace(s: State, es: seq<Event>, last: State, id: RunId)
    requires Fresh(s) && Runs(s, es, last)
    requires last.h.issued[id] + last.h.audited[id] == 1
    ensures PlacesOf(last.queue, last.drain, last.pending, last.h, id) == 1
  {
    RunKeepsInv(s, es, last, id);
  }

  /** An id nobody issued is nowhere. */
  lemma NothingComesFromNowhere(s: State, es: seq<Event>, last: State, id: RunId)
    requires Fresh(s) && Runs(s, es, last)
    requires id !in last.h.issued && id !in last.h.audited
    ensures PlacesOf(last.queue, last.drain, last.pending, last.h, id) == 0
  {
    RunKeepsInv(s, es, last, id);
  }

  /** Whatever happened, waiting work is watched, mirrored to disk and bounded. */
  lemma WaitingWorkIsSafe(s: State, es: seq<Event>, last: State)
    requires Fresh(s) && Runs(s, es, last) && last.queue != []
    ensures last.watchdog && last.mirror == Normals(last.queue) && |last.queue| <= MAX_QUEUE_DEPTH
    ensures last.queue == last.queue[..FirstNormal(last.queue)] + Normals(last.queue)
  {
    RunKeepsInv(s, es, last, "");
    NormalsAreTheTail(last.queue);
  }

  lemma {:induction false} NormalsAreTheTail(queue: seq<Entry>)
    requires DeferredFirst(queue)
    ensures queue == queue[..FirstNormal(queue)] + Normals(queue)
  {
    if queue != [] {
      NormalsAreTheTail(queue[1..]);
      if queue[0].deferred.None? {
        assert FirstNormal(queue[1..]) == 0 by {
          assert |queue| > 1 ==> queue[1].deferred.None?;
        }
      } else {
        assert queue[..FirstNormal(queue)] == [queue[0]] + queue[1..][..FirstNormal(queue[1..])];
      }
    }
  }

  /** No starvation: over waiting work a watchdog tick in an idle session takes the oldest entry. */
  lemma WatchdogMakesProgress(s: State)
    requires Sound(s) && s.queue != [] && s.drain.Resting? && !s.turn
    ensures WatchdogTick(s, Live(true, false)).drain == Holding(s.queue[0])
    ensures WatchdogTick(s, Live(true, false)).queue == s.queue[1..]
  {
  }

  /** One offer of `agent_end` hooks queues at most one of them, however many routines carry one. */
  lemma {:induction false} OneHookAnOffer(s: State, picks: seq<Pick>, now: int, ctx: Context)
    ensures |OfferHooks(s, picks, now, ctx).h.issued| <= |s.h.issued| + 1
    decreases |picks|
  {
    if picks != [] && !s.turn {
      var t := EnqueueHook(s, picks[0], now);
      if !HookIsQueued(s, picks[0]) {
        OneHookAnOffer(t, picks[1..], now, ctx);
      } else {
        assert StartDrain(t, ctx).h.issued == t.h.issued;
      }
    }
  }

  /** What a teardown leaves on disk is exactly the normal part of the queue it cleared. */
  lemma TeardownKeepsTheMirror(s: State)
    requires Sound(s) && !s.stopped
    ensures Shutdown(s).queue == [] && Shutdown(s).mirror == Normals(s.queue)
    ensures Shutdown(s).h.stranded == s.h.stranded + Ids(s.queue)
    ensures Shutdown(s).pending.None? && !Shutdown(s).turn
  {
  }

  lemma NormalsOfOne(e: Entry)
    requires e.deferred.None?
    ensures Normals([e]) == [e]
  {
    assert [e][1..] == [];
  }

  /** But only until something is queued again: the mirror is rewritten and the stranded fires are lost to it. */
  lemma QueueingAfterATeardownForgets(s: State, e: Entry)
    requires Sound(s) && !s.stopped && e.deferred.None?
    ensures Enqueue(Shutdown(s), e, false).mirror == [e]
  {
    var t := Shutdown(s);
    TeardownKeepsTheMirror(s);
    assert MakeRoom(t, false) == t;
    assert Insert(t.queue, e, false) == [e];
    NormalsOfOne(e);
  }
}
