// One routine of a session as a life of its own, so that the caps hold over whole sessions and restarts.
module FireLife {
  import opened Common
  import opened FireBudget
  import opened FireState
  import opened FireInvariants
  import opened FireActions
  import opened FireDeferred
  import opened FireTeardown
  import opened Rehydrate
  import J = Json
  import S = StoreSanitizer

  /** A life that agrees with the state about routine `r`. */
  ghost predicate Matches(s: State, r: RoutineId, limits: Limits, life: Life) {
    && (life.gone <==> r !in s.routines)
    && (r in s.routines ==> s.routines[r].limits == limits)
    && life.tick == Tick(s, r)
    && (life.open <==> Running(s, r))
    && (s.pending.Some? ==> s.pending.value.status != Skipped)
  }

  function Victims(s: State, priority: bool): seq<Entry> {
    if |s.queue| >= MAX_QUEUE_DEPTH then [s.queue[Victim(s.queue, priority)]] else []
  }

  function SkipOf(s: State, e: Entry, r: RoutineId): seq<Happening> {
    if e.routine == r && r in s.routines then [Skip(e.run)] else []
  }

  /** What an action is to routine `r`: at most one happening. */
  ghost function Seen(s: State, a: Action, r: RoutineId): seq<Happening>
    requires Can(s, a)
  {
    match a
    case Queues(_, priority) => if Victims(s, priority) == [] then [] else SkipOf(s, Victims(s, priority)[0], r)
    case Audits(routine, id) => if routine == r then [Skip(id)] else []
    case GivesUp => SkipOf(s, s.drain.entry, r)
    case Fires(f) => if s.drain.entry.routine == r then [Attempt(RequestOf(s.drain.entry, f, !s.turn))] else []
    case Closes => if s.turn && Running(s, r) then [Finish(RunRecord(s.pending.value.run, s.pending.value.status, s.pending.value.quiet))] else []
    case Interrupts => if Running(s, r) then [Finish(RunRecord(s.pending.value.run, Failure, s.pending.value.quiet))] else []
    case Deletes(routine) => if routine == r && r in s.routines then [Remove] else []
    case _ => []
  }

  ghost predicate Projects(s: State, a: Action, r: RoutineId, limits: Limits, life: Life)
    requires Can(s, a)
  {
    var hs := Seen(s, a, r);
    && |hs| <= 1
    && (hs != [] ==> Allowed(life, hs[0]))
    && Matches(Act(s, a), r, limits, if hs == [] then life else After(limits, life, hs[0]))
  }

  /** Only the routines, their tick states and the pending run matter to a life. */
  lemma MatchesAlike(s: State, t: State, r: RoutineId, limits: Limits, life: Life)
    requires Matches(s, r, limits, life) && t.routines == s.routines && t.ticks == s.ticks && t.pending == s.pending
    ensures Matches(t, r, limits, life)
  {
  }

  ghost predicate Skips(s: State, routine: RoutineId, id: RunId, t: State, r: RoutineId, limits: Limits, life: Life) {
    var hs := if routine == r && r in s.routines then [Skip(id)] else [];
    && (hs != [] ==> Allowed(life, hs[0]))
    && Matches(t, r, limits, if hs == [] then life else After(limits, life, hs[0]))
  }

  /** A skip row is a skip in the life of its routine. */
  lemma LogSkipProjects(s: State, routine: RoutineId, id: RunId, r: RoutineId, limits: Limits, life: Life)
    requires Matches(s, r, limits, life) && routine in s.routines
    ensures Skips(s, routine, id, LogSkip(s, routine, id), r, limits, life)
    ensures LogSkip(s, routine, id).routines == s.routines
  {
    hide RecordRun;
  }

  lemma DropProjects(s: State, i: nat, r: RoutineId, limits: Limits, life: Life)
    requires i < |s.queue| && Matches(s, r, limits, life)
    ensures Skips(s, s.queue[i].routine, s.queue[i].run, DropAt(s, i), r, limits, life)
  {
    hide LogSkip, Normals, Matches, After, Allowed;
    var e := s.queue[i];
    var t := WithQueue(s, RemoveAt(s.queue, i));
    MatchesAlike(s, t, r, limits, life);
    if e.routine in s.routines {
      LogSkipProjects(t, e.routine, e.run, r, limits, life);
    } else {
      MatchesAlike(s, Discard(t, e.run), r, limits, life);
    }
  }

  lemma EnqueueProjects(s: State, e: Entry, priority: bool, r: RoutineId, limits: Limits, life: Life)
    requires Can(s, Queues(e, priority)) && Matches(s, r, limits, life)
    ensures Projects(s, Queues(e, priority), r, limits, life)
  {
    hide DropAt, Normals, Ids, Insert, RecordRun;
    if |s.queue| >= MAX_QUEUE_DEPTH {
      DropProjects(s, Victim(s.queue, priority), r, limits, life);
    }
  }

  lemma FireProjects(s: State, f: Firing, r: RoutineId, limits: Limits, life: Life)
    requires Sound(s) && Can(s, Fires(f)) && Matches(s, r, limits, life)
    ensures Projects(s, Fires(f), r, limits, life)
  {
    hide Normals, Ids, DropHook, RecordRun, Fire, DeferredFirst, RequestOf, Enqueue, DeleteRoutine, CloseTurn, Interrupted, GivenUp, Audit;
    var e := s.drain.entry;
    var q := RequestOf(e, f, !s.turn);
    RequestIs(e, f, !s.turn);
    FireLogs(s.routines[e.routine].limits, Tick(s, e.routine), q);
    assert Act(s, Fires(f)) == FireEntry(s, e, f).(drain := Looping);
    match Fire(s.routines[e.routine].limits, Tick(s, e.routine), q)
    case Deleted =>
    case Capped(t) =>
    case Failed(t) =>
    case Started(t) =>
  }

  lemma RequestIs(e: Entry, f: Firing, free: bool)
    ensures var q := RequestOf(e, f, free); q.id == e.run && q.checked == f.checked && q.sent == f.sent
  {
  }

  lemma FireLogs(limits: Limits, tick: Option<TickState>, q: Request)
    ensures Fire(limits, tick, q).Capped? ==> Fire(limits, tick, q).tick == RecordRun(tick, RunRecord(q.id, Skipped, false))
    ensures Fire(limits, tick, q).Failed? ==> Fire(limits, tick, q).tick == RecordRun(tick, RunRecord(q.id, Failure, false))
  {
  }

  lemma CloseProjects(s: State, r: RoutineId, limits: Limits, life: Life)
    requires Sound(s) && Matches(s, r, limits, life)
    ensures Projects(s, Closes, r, limits, life) && Projects(s, Interrupts, r, limits, life)
  {
    hide Normals, Ids, RecordRun, DeferredFirst;
  }

  lemma GiveUpProjects(s: State, r: RoutineId, limits: Limits, life: Life)
    requires s.drain.Holding? && Matches(s, r, limits, life)
    ensures Projects(s, GivesUp, r, limits, life)
  {
    hide LogSkip, DropHook, Matches, After, Allowed;
    var e := s.drain.entry;
    var t := s.(hooks := DropHook(s.hooks, e.deferred));
    MatchesAlike(s, t, r, limits, life);
    if e.routine in s.routines {
      LogSkipProjects(t, e.routine, e.run, r, limits, life);
      var after := if e.routine == r then After(limits, life, Skip(e.run)) else life;
      MatchesAlike(LogSkip(t, e.routine, e.run), GivenUp(s), r, limits, after);
    } else {
      MatchesAlike(s, GivenUp(s), r, limits, life);
    }
    assert Act(s, GivesUp) == GivenUp(s);
  }

  lemma AuditProjects(s: State, routine: RoutineId, id: RunId, r: RoutineId, limits: Limits, life: Life)
    requires routine in s.routines && Matches(s, r, limits, life)
    ensures Projects(s, Audits(routine, id), r, limits, life)
  {
    hide LogSkip, Matches, After, Allowed;
    LogSkipProjects(s, routine, id, r, limits, life);
    var after := if routine == r then After(limits, life, Skip(id)) else life;
    MatchesAlike(LogSkip(s, routine, id), Audit(s, routine, id), r, limits, after);
  }

  lemma DeleteProjects(s: State, routine: RoutineId, r: RoutineId, limits: Limits, life: Life)
    requires Matches(s, r, limits, life)
    ensures Projects(s, Deletes(routine), r, limits, life)
  {
    hide Normals, Ids, Without, Of, HooksWithout;
  }

  /** Saving `r` under other limits, or after it was deleted, would begin another life. */
  ghost predicate SameLife(s: State, a: Action, r: RoutineId, limits: Limits) {
    a.Saves? && a.routine == r ==> r in s.routines && a.value.limits == limits
  }

  lemma OtherProjects(s: State, a: Action, r: RoutineId, limits: Limits, life: Life)
    requires Can(s, a) && Matches(s, r, limits, life) && SameLife(s, a, r, limits)
    requires !a.Queues? && !a.Audits? && !a.GivesUp? && !a.Fires? && !a.Closes? && !a.Interrupts? && !a.Deletes?
    ensures Projects(s, a, r, limits, life)
  {
    hide Normals, Ids, DropHook, After;
  }

  /** Each action is at most one happening in the life of a routine. */
  lemma ActProjects(s: State, a: Action, r: RoutineId, limits: Limits, life: Life)
    requires Sound(s) && Can(s, a) && Matches(s, r, limits, life) && SameLife(s, a, r, limits)
    ensures Projects(s, a, r, limits, life)
  {
    hide Projects, Matches, SameLife, Sound;
    match a
    case Queues(e, priority) => EnqueueProjects(s, e, priority, r, limits, life);
    case Audits(routine, id) => AuditProjects(s, routine, id, r, limits, life);
    case GivesUp => GiveUpProjects(s, r, limits, life);
    case Fires(f) => FireProjects(s, f, r, limits, life);
    case Closes => CloseProjects(s, r, limits, life);
    case Interrupts => CloseProjects(s, r, limits, life);
    case Deletes(routine) => DeleteProjects(s, routine, r, limits, life);
    case _ => OtherProjects(s, a, r, limits, life);
  }

  // ---------------------------------------------------------------- starts and readings, seen in the state

  /** The event fires the entry in the drain's hand. */
  predicate FiresNow(s: State, e: Event) {
    && e.DrainResumed? && s.drain.Holding? && s.drain.entry.routine in s.routines
    && !(s.routines[s.drain.entry.routine].paused && s.drain.entry.kind != Manual)
  }

  function StartsOf(s: State, e: Event, r: RoutineId): seq<Start> {
    if FiresNow(s, e) && s.drain.entry.routine == r
       && Fire(s.routines[r].limits, Tick(s, r), RequestOf(s.drain.entry, e.f, !s.turn)).Started? then
      [Start(e.f.sent, !(s.drain.entry.kind == Manual || s.drain.entry.deferred.Some?))]
    else []
  }

  function ReadingsOf(s: State, e: Event, r: RoutineId): seq<Reading> {
    if FiresNow(s, e) && s.drain.entry.routine == r then [Reading(e.f.checked, e.f.sent)] else []
  }

  function StartsDuring(s: State, es: seq<Event>, r: RoutineId): seq<Start>
    decreases |es|
  {
    if es == [] || !Enabled(s, es[0]) then [] else StartsOf(s, es[0], r) + StartsDuring(Step(s, es[0]), es[1..], r)
  }

  function ReadingsDuring(s: State, es: seq<Event>, r: RoutineId): seq<Reading>
    decreases |es|
  {
    if es == [] || !Enabled(s, es[0]) then [] else ReadingsOf(s, es[0], r) + ReadingsDuring(Step(s, es[0]), es[1..], r)
  }

  lemma {:induction false} LivesConcat(limits: Limits, life: Life, a: seq<Happening>, mid: Life, b: seq<Happening>, last: Life)
    requires Lives(limits, life, a, mid) && Lives(limits, mid, b, last)
    ensures Lives(limits, life, a + b, last)
    decreases |a|
  {
    hide Allowed, After;
    if a == [] {
      assert a + b == b;
    } else {
      assert (a + b)[1..] == a[1..] + b;
      LivesConcat(limits, After(limits, life, a[0]), a[1..], mid, b, last);
    }
  }

  lemma {:induction false} ReadingsConcat(a: seq<Happening>, b: seq<Happening>)
    ensures Readings(a + b) == Readings(a) + Readings(b)
    decreases |b|
  {
    if b == [] {
      assert a + b == a && Readings(a) + Readings(b) == Readings(a);
    } else {
      var n := |b| - 1;
      assert a + b == (a + b[..n]) + [b[n]] && b == b[..n] + [b[n]];
      ReadingsOfSnoc(a + b[..n], b[n]);
      ReadingsOfSnoc(b[..n], b[n]);
      ReadingsConcat(a, b[..n]);
    }
  }

  lemma NoHappening(limits: Limits, life: Life)
    ensures Lives(limits, life, [], life) && Readings([]) == []
  {
  }

  lemma OneHappening(limits: Limits, life: Life, h: Happening)
    requires Allowed(life, h)
    ensures Lives(limits, life, [h], After(limits, life, h))
    ensures Readings([h]) == if h.Attempt? then [Reading(h.q.checked, h.q.sent)] else []
  {
    assert [h][1..] == [] && [h][..0] == [];
  }

  lemma StartsOnlyByAttempt(limits: Limits, life: Life, h: Happening)
    ensures !h.Attempt? ==> After(limits, life, h).starts == life.starts
  {
  }

  ghost predicate NoFires(acts: seq<Action>) {
    forall i :: 0 <= i < |acts| ==> !acts[i].Fires?
  }

  ghost predicate NoSaves(acts: seq<Action>, r: RoutineId) {
    forall i :: 0 <= i < |acts| ==> !(acts[i].Saves? && acts[i].routine == r)
  }

  /** Actions among which no entry is fired: a life without attempts. */
  lemma {:induction false} ActsProject(s: State, acts: seq<Action>, last: State, r: RoutineId, limits: Limits, life: Life)
    returns (hs: seq<Happening>, after: Life)
    requires Inv(s, "") && Does(s, acts, last) && Matches(s, r, limits, life) && NoFires(acts) && NoSaves(acts, r)
    ensures Lives(limits, life, hs, after) && Matches(last, r, limits, after)
    ensures after.starts == life.starts && Readings(hs) == []
    decreases |acts|
  {
    hide Inv, Act, Can, Matches, Allowed, After, Seen, Readings, Sound;
    if acts == [] {
      NoHappening(limits, life);
      hs, after := [], life;
    } else {
      InvIsSound(s);
      ActProjects(s, acts[0], r, limits, life);
      ActKeepsInv(s, acts[0], "");
      SeenWithoutFire(s, acts[0], r);
      var first := Seen(s, acts[0], r);
      var next := life;
      NoHappening(limits, life);
      if first != [] {
        next := After(limits, life, first[0]);
        OneHappening(limits, life, first[0]);
        StartsOnlyByAttempt(limits, life, first[0]);
        assert first == [first[0]];
      }
      var rest;
      rest, after := ActsProject(Act(s, acts[0]), acts[1..], last, r, limits, next);
      hs := first + rest;
      LivesConcat(limits, life, first, next, rest, after);
      ReadingsConcat(first, rest);
    }
  }

  lemma SeenWithoutFire(s: State, a: Action, r: RoutineId)
    requires Can(s, a) && !a.Fires?
    ensures Seen(s, a, r) == [] || !Seen(s, a, r)[0].Attempt?
  {
  }

  /** A step fires the entry in hand and does nothing else, or fires nothing. */
  lemma StepFires(s: State, e: Event) returns (acts: seq<Action>)
    requires Enabled(s, e)
    ensures Does(s, acts, Step(s, e))
    ensures if FiresNow(s, e) then acts == [Fires(e.f)] && Can(s, Fires(e.f)) && Act(s, Fires(e.f)) == Step(s, e) else NoFires(acts)
    ensures forall i :: 0 <= i < |acts| && acts[i].Saves? ==> e == Saved(acts[i].routine, acts[i].value)
  {
    hide Does;
    if e.DrainResumed? {
      acts := ResumeFires(s, e.f, e.ctx);
    } else {
      hide Step, Can, Act;
      acts := StepActs(s, e);
      assert forall i :: 0 <= i < |acts| ==> From(e, acts[i]);
    }
  }

  lemma ResumeFires(s: State, f: Firing, ctx: Context) returns (acts: seq<Action>)
    ensures Does(s, acts, ResumeDrain(s, f, ctx))
    ensures if FiresNow(s, DrainResumed(f, ctx)) then acts == [Fires(f)] && Can(s, Fires(f)) && Act(s, Fires(f)) == ResumeDrain(s, f, ctx)
            else NoFires(acts)
    ensures forall i :: 0 <= i < |acts| ==> !acts[i].Saves?
  {
    hide LoopHead, FireEntry, DropHook, Does, Discard, LogSkip;
    var other := AgentSettled(ctx);
    DoesNothing(s);
    match s.drain
    case Resting => acts := [];
    case Looping =>
      acts := LoopHeadActs(s, ctx, other);
      assert forall i :: 0 <= i < |acts| ==> From(other, acts[i]);
    case Holding(e) =>
      if e.routine in s.routines && !(s.routines[e.routine].paused && e.kind != Manual) {
        acts := [Fires(f)];
        DoesOne(s, Fires(f));
      } else if e.routine !in s.routines && e.deferred.Some? {
        acts := [GivesUp];
        DoesOne(s, GivesUp);
      } else {
        GivenUpLoops(s);
        var rest := LoopHeadActs(GivenUp(s), ctx, other);
        assert forall i :: 0 <= i < |rest| ==> From(other, rest[i]);
        acts := [GivesUp] + rest;
        DoesThen(s, GivesUp, rest, LoopHead(GivenUp(s), ctx));
      }
  }

  ghost predicate SameLifeStep(s: State, e: Event, r: RoutineId, limits: Limits) {
    e.Saved? && e.routine == r ==> r in s.routines && e.value.limits == limits
  }

  /** One step of the session in the life of a routine. */
  lemma StepProjects(s: State, e: Event, r: RoutineId, limits: Limits, life: Life) returns (hs: seq<Happening>, after: Life)
    requires Inv(s, "") && Enabled(s, e) && Matches(s, r, limits, life) && SameLifeStep(s, e, r, limits)
    ensures Lives(limits, life, hs, after) && Matches(Step(s, e), r, limits, after)
    ensures after.starts == life.starts + StartsOf(s, e, r) && Readings(hs) == ReadingsOf(s, e, r)
  {
    hide Inv, Matches, After, Readings, Does;
    InvIsSound(s);
    var acts := StepFires(s, e);
    if FiresNow(s, e) {
      hide Step, Sound;
      hs, after := FireStepProjects(s, e, r, limits, life);
    } else if e.Saved? && e.routine == r {
      hide Act, Sound;
      SaveStepProjects(s, e, r, limits, life);
      NoHappening(limits, life);
      hs, after := [], life;
      assert life.starts + [] == life.starts;
    } else {
      hide Step;
      hs, after := ActsProject(s, acts, Step(s, e), r, limits, life);
      assert life.starts + [] == life.starts;
    }
  }

  lemma SaveStepProjects(s: State, e: Event, r: RoutineId, limits: Limits, life: Life)
    requires e.Saved? && e.routine == r && Matches(s, r, limits, life) && SameLifeStep(s, e, r, limits)
    ensures Matches(Step(s, e), r, limits, life)
  {
  }

  lemma FireStepProjects(s: State, e: Event, r: RoutineId, limits: Limits, life: Life) returns (hs: seq<Happening>, after: Life)
    requires Sound(s) && Enabled(s, e) && Matches(s, r, limits, life) && FiresNow(s, e)
    requires Act(s, Fires(e.f)) == Step(s, e)
    ensures Lives(limits, life, hs, after) && Matches(Step(s, e), r, limits, after)
    ensures after.starts == life.starts + StartsOf(s, e, r) && Readings(hs) == ReadingsOf(s, e, r)
  {
    hide Step, Act, Readings, Sound, Fire;
    var held := s.drain.entry;
    ActProjects(s, Fires(e.f), r, limits, life);
    if held.routine == r {
      var q := RequestOf(held, e.f, !s.turn);
      RequestIs(held, e.f, !s.turn);
      OneHappening(limits, life, Attempt(q));
      hs, after := [Attempt(q)], After(limits, life, Attempt(q));
      assert life.starts + [] == life.starts;
    } else {
      NoHappening(limits, life);
      hs, after := [], life;
      assert life.starts + [] == life.starts;
    }
  }

  ghost predicate SameLifeRun(s: State, es: seq<Event>, r: RoutineId, limits: Limits)
    decreases |es|
  {
    es != [] ==> SameLifeStep(s, es[0], r, limits) && (Enabled(s, es[0]) ==> SameLifeRun(Step(s, es[0]), es[1..], r, limits))
  }

  /** Every run of a session is, for each routine, a life with the same starts and the same readings of the clock. */
  lemma {:induction false} RunProjects(s: State, es: seq<Event>, last: State, r: RoutineId, limits: Limits, life: Life)
    returns (hs: seq<Happening>, after: Life)
    requires Inv(s, "") && Runs(s, es, last) && Matches(s, r, limits, life) && SameLifeRun(s, es, r, limits)
    ensures Lives(limits, life, hs, after) && Matches(last, r, limits, after)
    ensures after.starts == life.starts + StartsDuring(s, es, r) && Readings(hs) == ReadingsDuring(s, es, r)
    decreases |es|
  {
    hide Inv, Matches, Readings, Step, Lives, StartsOf, ReadingsOf, SameLifeStep;
    if es == [] {
      NoHappening(limits, life);
      hs, after := [], life;
      assert life.starts + [] == life.starts;
    } else {
      var first, mid := StepProjects(s, es[0], r, limits, life);
      StepKeepsInv(s, es[0], "");
      var rest;
      rest, after := RunProjects(Step(s, es[0]), es[1..], last, r, limits, mid);
      hs := first + rest;
      LivesConcat(limits, life, first, mid, rest, after);
      ReadingsConcat(first, rest);
      assert life.starts + StartsOf(s, es[0], r) + StartsDuring(Step(s, es[0]), es[1..], r)
          == life.starts + (StartsOf(s, es[0], r) + StartsDuring(Step(s, es[0]), es[1..], r));
    }
  }

  // ---------------------------------------------------------------- restarts

  /** The new session before rehydration, seen from a routine that is still there: a reload. */
  lemma LoadProjects(d: State, s: State, known: map<RoutineId, Routine>, r: RoutineId, limits: Limits, life: Life)
    requires Matches(d, r, limits, life) && r in d.routines && life.tick.Some? && r in known && known[r].limits == limits
    requires s.routines == known && s.ticks == ReloadedTicks(d.ticks, known.Keys) && s.pending.None?
    ensures Allowed(life, Reload) && Matches(s, r, limits, After(limits, life, Reload))
  {
  }

  lemma RehydrateOneActs(s: State, seen: set<RoutineId>, e: Entry, now: int) returns (acts: seq<Action>)
    ensures Does(s, acts, RehydrateOne(s, seen, e, now).0) && forall i :: 0 <= i < |acts| ==> acts[i].Queues? || acts[i].Audits?
  {
    hide Enqueue, Audit, Does, HasRoutine;
    DoesNothing(s);
    acts := [];
    var fate := FateOf(s.routines, s.queue, seen, e, now);
    if fate.Kept? {
      acts := [Queues(Refreshed(e, now), false)];
      DoesOne(s, acts[0]);
    } else if !fate.Unknown? {
      acts := [Audits(e.routine, e.run)];
      DoesOne(s, acts[0]);
    }
  }

  lemma {:induction false} RehydrateProjects(s: State, es: seq<Entry>, n: nat, now: int, r: RoutineId, limits: Limits, life: Life)
    returns (hs: seq<Happening>, after: Life)
    requires Inv(s, "") && n <= |es| && Matches(s, r, limits, life)
    ensures Lives(limits, life, hs, after) && Matches(RehydrateUpTo(s, es, n, now).0, r, limits, after)
    ensures after.starts == life.starts && Readings(hs) == []
  {
    hide Inv, Matches, Readings, Lives, RehydrateOne, Does;
    if n == 0 {
      NoHappening(limits, life);
      hs, after := [], life;
    } else {
      var first, mid := RehydrateProjects(s, es, n - 1, now, r, limits, life);
      RehydrateKeepsInvUpTo(s, es, n - 1, now, "");
      var (t, seen) := RehydrateUpTo(s, es, n - 1, now);
      var acts := RehydrateOneActs(t, seen, es[n - 1], now);
      var rest;
      rest, after := ActsProject(t, acts, RehydrateOne(t, seen, es[n - 1], now).0, r, limits, mid);
      hs := first + rest;
      LivesConcat(limits, life, first, mid, rest, after);
      ReadingsConcat(first, rest);
    }
  }

  /** A restart is a reload and a few skipped fires in the life of a routine. */
  lemma RestartProjects(h: S.Host, d: State, routines: map<J.Key, J.Json>, known: map<RoutineId, Routine>, now: int,
                        r: RoutineId, limits: Limits, life: Life) returns (hs: seq<Happening>, after: Life)
    requires Matches(d, r, limits, life) && r in d.routines && life.tick.Some? && r in known && known[r].limits == limits
    ensures Lives(limits, life, hs, after) && Matches(Restart(h, d, routines, known, now), r, limits, after)
    ensures after.starts == life.starts && Readings(hs) == [] && Inv(Restart(h, d, routines, known, now), "")
  {
    hide Inv, Matches, Readings, Lives, RehydrateUpTo, ReloadedTicks, After, Allowed, Decode, Encode;
    var loaded := DecodeAll(S.PendingQueueOf(h, Some(J.Arr(EncodeAll(d.mirror))), routines));
    var start := NewSession(known, ReloadedTicks(d.ticks, known.Keys), d.hooks, loaded);
    LoadProjects(d, start, known, r, limits, life);
    LoadProjects(d, start.(mirror := []), known, r, limits, life);
    OneHappening(limits, life, Reload);
    StartsOnlyByAttempt(limits, life, Reload);
    NewSessionInv(start, "");
    RehydrateKeepsInv(start, now, "");
    var mid := After(limits, life, Reload);
    var rest;
    NoHappening(limits, mid);
    assert start.(mirror := []) == start.(mirror := [], stopped := false);
    if loaded == [] {
      rest, after := [], mid;
    } else {
      rest, after := RehydrateProjects(start.(mirror := []), loaded, |loaded|, now, r, limits, mid);
    }
    hs := [Reload] + rest;
    LivesConcat(limits, life, [Reload], mid, rest, after);
    ReadingsConcat([Reload], rest);
  }

  // ---------------------------------------------------------------- any number of sessions

  /** A session that ran over `es` up to `end`, where the process ended; what the next load finds, and when. */
  datatype Session = Session(es: seq<Event>, end: State, routines: map<J.Key, J.Json>, known: map<RoutineId, Routine>, now: int)

  /** The sessions follow one another up to a last one that runs over `es`; `r` is never deleted before the last
      and keeps its limits. */
  ghost predicate Lifetime(h: S.Host, s: State, sessions: seq<Session>, es: seq<Event>, last: State, r: RoutineId, limits: Limits)
    decreases |sessions|
  {
    if sessions == [] then Runs(s, es, last) && SameLifeRun(s, es, r, limits)
    else
      var one := sessions[0];
      && Runs(s, one.es, one.end) && SameLifeRun(s, one.es, r, limits)
      && r in one.end.routines && r in one.known && one.known[r].limits == limits
      && Lifetime(h, Restart(h, one.end, one.routines, one.known, one.now), sessions[1..], es, last, r, limits)
  }

  ghost function AllStarts(h: S.Host, s: State, sessions: seq<Session>, es: seq<Event>, r: RoutineId): seq<Start>
    decreases |sessions|
  {
    if sessions == [] then StartsDuring(s, es, r)
    else
      var one := sessions[0];
      StartsDuring(s, one.es, r) + AllStarts(h, Restart(h, one.end, one.routines, one.known, one.now), sessions[1..], es, r)
  }

  ghost function AllReadings(h: S.Host, s: State, sessions: seq<Session>, es: seq<Event>, r: RoutineId): seq<Reading>
    decreases |sessions|
  {
    if sessions == [] then ReadingsDuring(s, es, r)
    else
      var one := sessions[0];
      ReadingsDuring(s, one.es, r) + AllReadings(h, Restart(h, one.end, one.routines, one.known, one.now), sessions[1..], es, r)
  }

  lemma {:induction false} LifetimeProjects(h: S.Host, s: State, sessions: seq<Session>, es: seq<Event>, last: State,
                                            r: RoutineId, limits: Limits, past: seq<Happening>, life: Life)
    returns (hs: seq<Happening>, after: Life)
    requires Inv(s, "") && Lifetime(h, s, sessions, es, last, r, limits) && Matches(s, r, limits, life) && Lives(limits, BORN, past, life)
    ensures Lives(limits, BORN, past + hs, after) && Matches(last, r, limits, after)
    ensures after.starts == life.starts + AllStarts(h, s, sessions, es, r)
    ensures Readings(past + hs) == Readings(past) + AllReadings(h, s, sessions, es, r)
    decreases |sessions|
  {
    hide Inv, Matches, Readings, Lives, Restart, Runs, SameLifeRun, StartsDuring, ReadingsDuring;
    if sessions == [] {
      hs, after := RunProjects(s, es, last, r, limits, life);
      LivesConcat(limits, BORN, past, life, hs, after);
      ReadingsConcat(past, hs);
    } else {
      var one := sessions[0];
      var next := Restart(h, one.end, one.routines, one.known, one.now);
      var a, mid := RunProjects(s, one.es, one.end, r, limits, life);
      LivesConcat(limits, BORN, past, life, a, mid);
      KnownHasTick(limits, past + a, mid, one.end, r);
      var b, begun := RestartProjects(h, one.end, one.routines, one.known, one.now, r, limits, mid);
      LivesConcat(limits, BORN, past + a, mid, b, begun);
      var c;
      c, after := LifetimeProjects(h, next, sessions[1..], es, last, r, limits, past + a + b, begun);
      hs := a + b + c;
      assert past + a + b + c == past + hs;
      ReadingsConcat(past, a);
      ReadingsConcat(past + a, b);
      assert Readings(past) + ReadingsDuring(s, one.es, r) + [] + AllReadings(h, next, sessions[1..], es, r)
          == Readings(past) + (ReadingsDuring(s, one.es, r) + AllReadings(h, next, sessions[1..], es, r));
      assert life.starts + StartsDuring(s, one.es, r) + AllStarts(h, next, sessions[1..], es, r)
          == life.starts + (StartsDuring(s, one.es, r) + AllStarts(h, next, sessions[1..], es, r));
    }
  }

  lemma KnownHasTick(limits: Limits, hs: seq<Happening>, life: Life, s: State, r: RoutineId)
    requires Lives(limits, BORN, hs, life) && Matches(s, r, limits, life) && r in s.routines
    ensures life.tick.Some?
  {
    hide Lives;
    EveryLifeIsCounted(limits, hs, life);
  }

  /** A routine that has just been saved, in a session that has just begun. */
  ghost predicate NewIn(s: State, r: RoutineId, limits: Limits) {
    Inv(s, "") && s.pending.None? && r in s.routines && s.routines[r].limits == limits && Tick(s, r) == Some(FRESH)
  }

  /** Over any number of sessions, with restarts at any moment: while the dates a routine's fires read do not go
      back, its automatic starts on one date never exceed its daily cap. */
  lemma SessionsKeepTheDailyCap(h: S.Host, s: State, sessions: seq<Session>, es: seq<Event>, last: State, r: RoutineId, limits: Limits, date: Date)
    requires NewIn(s, r, limits) && Lifetime(h, s, sessions, es, last, r, limits) && limits.maxRunsPerDay.Some?
    requires NeverBack(AllReadings(h, s, sessions, es, r))
    ensures AutomaticOn(AllStarts(h, s, sessions, es, r), date) <= Max(limits.maxRunsPerDay.value, 0)
  {
    hide Inv, Lifetime, AllStarts, AllReadings, NeverBack, Lives, Readings;
    NoHappening(limits, BORN);
    var hs, after := LifetimeProjects(h, s, sessions, es, last, r, limits, [], BORN);
    assert [] + hs == hs && BORN.starts + AllStarts(h, s, sessions, es, r) == AllStarts(h, s, sessions, es, r);
    assert Readings(hs) == AllReadings(h, s, sessions, es, r);
    DailyCapHolds(limits, hs, after, date);
  }

  /** And all its starts together, of every kind, never exceed its lifetime cap. */
  lemma SessionsKeepTheLifetimeCap(h: S.Host, s: State, sessions: seq<Session>, es: seq<Event>, last: State, r: RoutineId, limits: Limits)
    requires NewIn(s, r, limits) && Lifetime(h, s, sessions, es, last, r, limits) && limits.maxTicks.Some?
    ensures |AllStarts(h, s, sessions, es, r)| <= Max(limits.maxTicks.value, 0)
  {
    hide Inv, Lifetime, AllStarts, AllReadings, Lives, Readings;
    NoHappening(limits, BORN);
    var hs, after := LifetimeProjects(h, s, sessions, es, last, r, limits, [], BORN);
    assert [] + hs == hs;
    StartsNeverExceedMaxTicks(limits, hs, after);
  }
}
