// How a routine's turn is logged, how failures in a row are counted, and what the user's commands change.
module FireTurns {
  import opened Common
  import opened FireBudget
  import opened FireState
  import opened FireInvariants
  import opened FireSteps

  // ---------------------------------------------------------------- the end of a turn

  predicate IsQuietRoutine(s: State, routine: RoutineId) {
    routine in s.routines && s.routines[routine].quiet
  }

  /** The assistant's message decides how the run will be logged: as silent if it is the token alone and the routine is
      quiet; otherwise a message with text says whether it opens with the token. It changes nothing else. */
  lemma MessageDecides(s: State, isToken: bool, hasText: bool, opensWithToken: bool)
    ensures var t := Step(s, MessageEnded(isToken, hasText, opensWithToken));
            && t == s.(pending := t.pending)
            && (t.pending.Some? <==> s.pending.Some?)
            && (s.pending.Some? ==>
                  var p, q := s.pending.value, t.pending.value;
                  var suppressed := s.turn && isToken && IsQuietRoutine(s, p.routine);
                  && q.routine == p.routine && q.run == p.run && q.deferred == p.deferred
                  && q.status == (if suppressed then Silent else p.status)
                  && (q.quiet <==> if suppressed then true else if s.turn && hasText then opensWithToken else p.quiet))
  {
  }

  /** The end of the turn frees it and logs its run once, as it stands; then hooks may be promoted and logged. */
  lemma TurnIsLogged(s: State, e: Event)
    requires Sound(s) && Enabled(s, e) && e.AgentEnded? && !e.hasUI && s.turn
    ensures s.pending.Some?
    ensures var t, p := Step(s, e), s.pending.value;
            && !t.turn && t.pending.None? && t.h.logged == s.h.logged + multiset{p.run}
            && LastLogged(t, p.routine, p.run, p.status) && t.h.discarded == s.h.discarded
  {
    hide Normals, Ids, RecordRun, LoopHead, LastLogged;
    var p := s.pending.value;
    LastRow(Tick(s, p.routine), RunRecord(p.run, p.status, p.quiet));
    var closed := CloseTurn(s);
    assert LastLogged(closed, p.routine, p.run, p.status) by {
      ClosedTurn(s);
    }
    if closed.drain.Resting? {
      HeadKeepsAccount(closed, e.ctx);
    }
    SameTicksSameLog(closed, StartDrain(closed, e.ctx), p.routine, p.run, p.status);
  }

  lemma ClosedTurn(s: State)
    requires s.turn && s.pending.Some?
    ensures var p, t := s.pending.value, CloseTurn(s); LastLogged(t, p.routine, p.run, p.status)
  {
    hide RecordRun;
    LastRow(Tick(s, s.pending.value.routine), RunRecord(s.pending.value.run, s.pending.value.status, s.pending.value.quiet));
  }

  lemma SameTicksSameLog(s: State, t: State, routine: RoutineId, id: RunId, status: Status)
    requires LastLogged(s, routine, id, status) && t.ticks == s.ticks
    ensures LastLogged(t, routine, id, status)
  {
  }

  /** A teardown cuts the turn off and logs it as failed. */
  lemma InterruptedTurnFailed(s: State)
    requires Sound(s)
    ensures var t := Step(s, ShutDown);
            && !t.turn && t.pending.None? && t.queue == []
            && (s.pending.Some? ==> LastLogged(t, s.pending.value.routine, s.pending.value.run, Failure)
                                    && t.h.logged == s.h.logged + multiset{s.pending.value.run})
            && (s.pending.None? ==> t.h.logged == s.h.logged && t.ticks == s.ticks)
  {
    hide Ids, RecordRun;
    if s.pending.Some? {
      var p := s.pending.value;
      LastRow(Tick(s, p.routine), RunRecord(p.run, Failure, p.quiet));
    }
  }

  /** A quiet routine that answers with the token alone is logged as silent; another routine as a success. */
  lemma TokenTurnIsSilent(s: State, f: Firing, ctx: Context, last: Context, ids: seq<RunId>)
    requires Sound(s) && s.drain.Holding? && s.drain.entry.routine in s.routines && !IsHeldByPause(s, s.drain.entry)
    requires !IsSpent(s, s.drain.entry.routine) && !IsCapped(s, s.drain.entry, f.checked) && f.sends
    ensures var q := s.drain.entry;
            var started := Step(s, DrainResumed(f, ctx));
            var answered := Step(started, MessageEnded(true, true, true));
            && Sound(answered) && answered.turn
            && (|ids| == |answered.hooks| ==>
                  LastLogged(Step(answered, AgentEnded(false, ids, 0, last)), q.routine, q.run,
                             if s.routines[q.routine].quiet then Silent else Success))
  {
    hide Sound, Step, IsSpent, IsCapped;
    var q := s.drain.entry;
    var started := Step(s, DrainResumed(f, ctx));
    HandIsResolved(s, f, ctx);
    StartedIsSound(s, f, ctx);
    var answered := Step(started, MessageEnded(true, true, true));
    MessageDecides(started, true, true, true);
    AnsweredIsSound(started);
    if |ids| == |answered.hooks| {
      TurnIsLogged(answered, AgentEnded(false, ids, 0, last));
    }
  }

  lemma StartedIsSound(s: State, f: Firing, ctx: Context)
    requires Sound(s) && s.drain.Holding? && s.drain.entry.routine in s.routines && !IsHeldByPause(s, s.drain.entry)
    requires !IsSpent(s, s.drain.entry.routine) && !IsCapped(s, s.drain.entry, f.checked) && f.sends
    ensures var t := Step(s, DrainResumed(f, ctx)); Sound(t) && t.routines == s.routines
  {
    hide Normals, Ids, RecordRun, DropHook, Mirrored, Shaped;
  }

  lemma AnsweredIsSound(s: State)
    requires Sound(s)
    ensures Sound(Step(s, MessageEnded(true, true, true)))
  {
    hide Mirrored, Shaped;
  }

  // ---------------------------------------------------------------- failures in a row

  /** From the end of a log: failures, skipped runs passed over, up to a run that did not fail. */
  function FailedInARow(log: seq<RunRecord>): nat {
    if log == [] then 0
    else match log[|log| - 1].status
      case Skipped => FailedInARow(log[..|log| - 1])
      case Failure => FailedInARow(log[..|log| - 1]) + 1
      case _ => 0
  }

  lemma OneMoreRow(log: seq<RunRecord>, run: RunRecord)
    ensures FailedInARow(log + [run]) == match run.status
                                         case Skipped => FailedInARow(log)
                                         case Failure => FailedInARow(log) + 1
                                         case _ => 0
  {
    assert (log + [run])[..|log|] == log;
  }

  /** From a start or a load on, until the next one, the error count is the number of failures in a row since. */
  lemma {:induction false} ErrorsAreFailuresInARow(limits: Limits, life: Life, hs: seq<Happening>, last: Life)
    requires Lives(limits, life, hs, last) && life.tick.Some? && life.tick.value.errorTicks == 0 && last.tick.Some?
    requires !life.gone && |last.starts| == |life.starts| && forall i :: 0 <= i < |hs| ==> !hs[i].Reload? && !hs[i].Remove?
    ensures |life.log| <= |last.log| && last.tick.value.errorTicks == FailedInARow(last.log[|life.log|..])
    decreases |hs|
  {
    hide Lives;
    if hs == [] {
      assert Lives(limits, life, [], last) ==> life == last by {
        NothingHappens(limits, life, last);
      }
      assert last.log[|life.log|..] == [];
    } else {
      var n := |hs| - 1;
      assert hs == hs[..n] + [hs[n]];
      var before := SplitLives(limits, life, hs[..n], hs[n], last);
      StartsOnlyGrow(limits, life, hs[..n], before);
      StaysKnown(limits, life, hs[..n], before);
      AfterIs(limits, before, hs[n]);
      ErrorsAreFailuresInARow(limits, life, hs[..n], before);
      if |last.log| > |before.log| {
        var row := last.log[|before.log|];
        assert last.log[|life.log|..] == before.log[|life.log|..] + [row];
        OneMoreRow(before.log[|life.log|..], row);
      }
    }
  }

  lemma NothingHappens(limits: Limits, life: Life, last: Life)
    requires Lives(limits, life, [], last)
    ensures life == last
  {
  }

  /** What one happening adds to the log and to the error count. */
  lemma AfterIs(limits: Limits, life: Life, h: Happening)
    requires Allowed(life, h) && !h.Reload? && |After(limits, life, h).starts| == |life.starts| && After(limits, life, h).tick.Some?
    ensures var t := After(limits, life, h);
            && (life.tick.Some? ==>
                  || (t.log == life.log && t.tick.value.errorTicks == life.tick.value.errorTicks)
                  || (exists row ::
                        && t.log == life.log + [row]
                        && t.tick.value.errorTicks == match row.status
                                                      case Skipped => life.tick.value.errorTicks
                                                      case Failure => life.tick.value.errorTicks + 1
                                                      case _ => 0))
  {
    hide LastRuns;
    match h
    case Finish(run) => assert After(limits, life, h).log == life.log + [run];
    case Skip(id) => assert After(limits, life, h).log == life.log + [RunRecord(id, Skipped, false)];
    case Remove =>
    case Attempt(q) =>
      assert RunRecord(q.id, Skipped, false).status == Skipped && RunRecord(q.id, Failure, false).status == Failure;
  }

  /** Until it is removed a routine has a tick state; one whose lifetime is spent has no open turn. */
  lemma {:induction false} StaysKnown(limits: Limits, life: Life, hs: seq<Happening>, last: Life)
    requires Lives(limits, life, hs, last) && forall i :: 0 <= i < |hs| ==> !hs[i].Remove?
    requires if life.gone then !life.open else life.tick.Some?
    ensures if last.gone then !last.open else last.tick.Some?
    decreases |hs|
  {
    if hs != [] {
      StaysKnown(limits, After(limits, life, hs[0]), hs[1..], last);
    }
  }

  lemma {:induction false} StartsOnlyGrow(limits: Limits, life: Life, hs: seq<Happening>, last: Life)
    requires Lives(limits, life, hs, last)
    ensures |life.starts| <= |last.starts| && |life.log| <= |last.log|
    decreases |hs|
  {
    if hs != [] {
      StartsOnlyGrow(limits, After(limits, life, hs[0]), hs[1..], last);
    }
  }

  /** The delay of a pulse in numbers: unchanged up to one failure in a row, doubled at two, then again for each, at most
      thirty-two times the interval, and never more than ten minutes once it engages. */
  lemma DelayInNumbers(interval: int, streak: nat)
    ensures streak <= 1 ==> PulseDelay(interval, 0, streak) == interval
    ensures streak == 2 ==> PulseDelay(interval, 0, streak) == Min(interval * 2, 600_000)
    ensures streak == 3 ==> PulseDelay(interval, 0, streak) == Min(interval * 4, 600_000)
    ensures streak == 4 ==> PulseDelay(interval, 0, streak) == Min(interval * 8, 600_000)
    ensures streak == 5 ==> PulseDelay(interval, 0, streak) == Min(interval * 16, 600_000)
    ensures streak >= 6 ==> PulseDelay(interval, 0, streak) == Min(interval * 32, 600_000)
    ensures forall other :: 0 <= other <= streak ==> PulseDelay(interval, other, streak) == PulseDelay(interval, streak, other) == PulseDelay(interval, 0, streak)
  {
    assert Power(0) == 1 && Power(1) == 2 * Power(0) && Power(2) == 2 * Power(1) && Power(3) == 2 * Power(2) && Power(4) == 2 * Power(3);
    if streak >= 6 {
      PowerOfFive(streak - 1);
    }
  }

  lemma {:induction false} PowerOfFive(n: nat)
    requires n >= 5
    ensures Power(n) >= 32
  {
    if n > 5 {
      PowerOfFive(n - 1);
    } else {
      assert Power(1) == 2 * Power(0) && Power(2) == 2 * Power(1) && Power(3) == 2 * Power(2) && Power(4) == 2 * Power(3) && Power(5) == 2 * Power(4);
    }
  }

  // ---------------------------------------------------------------- the user's commands

  /** Saving replaces one routine; a new one begins with an empty tick state, a known one keeps its own. */
  lemma SavedRoutineKeepsItsTicks(s: State, routine: RoutineId, value: Routine)
    ensures var t := Step(s, Saved(routine, value));
            && t == s.(routines := t.routines, ticks := t.ticks)
            && t.routines.Keys == s.routines.Keys + {routine} && t.routines[routine] == value
            && (forall r :: r in s.routines && r != routine ==> t.routines[r] == s.routines[r])
            && (routine in s.routines ==> t.ticks == s.ticks)
            && (routine !in s.routines ==>
                  routine in t.ticks && t.ticks[routine] == TickState(0, [], None, None, 0, 0) && t.ticks - {routine} == s.ticks - {routine})
  {
  }

  /** Pausing and resuming set one flag of one known routine. */
  lemma PauseSetsOneFlag(s: State, routine: RoutineId, paused: bool)
    ensures var t := Step(s, PauseSet(routine, paused));
            && t == s.(routines := t.routines) && t.routines.Keys == s.routines.Keys
            && (forall r :: r in s.routines && r != routine ==> t.routines[r] == s.routines[r])
            && (routine in s.routines ==>
                  && t.routines[routine].paused == paused && t.routines[routine].triggers == s.routines[routine].triggers
                  && t.routines[routine].quiet == s.routines[routine].quiet && t.routines[routine].limits == s.routines[routine].limits)
  {
  }

  /** What a list is without the entries of a routine, from the end of the list on. */
  lemma WithoutOfSnoc(queue: seq<Entry>, q: Entry, routine: RoutineId)
    ensures Without([], routine) == []
    ensures Without(queue + [q], routine) == Without(queue, routine) + (if q.routine == routine then [] else [q])
  {
    if queue == [] {
      assert [q][1..] == [];
    } else {
      assert (queue + [q])[1..] == queue[1..] + [q];
      WithoutOfSnoc(queue[1..], q, routine);
    }
  }

  lemma {:induction false} HooksWithoutMeans(hooks: seq<DeferredHook>, routine: RoutineId)
    ensures forall h :: h in HooksWithout(hooks, routine) <==> h in hooks && h.routine != routine
  {
    if hooks != [] {
      HooksWithoutMeans(hooks[1..], routine);
      assert hooks == [hooks[0]] + hooks[1..];
    }
  }

  lemma {:induction false} WithoutMeans(queue: seq<Entry>, routine: RoutineId)
    ensures forall q :: q in Without(queue, routine) <==> q in queue && q.routine != routine
  {
    if queue != [] {
      WithoutMeans(queue[1..], routine);
      assert queue == [queue[0]] + queue[1..];
    }
  }

  /** After a deletion nothing of the routine is left, and everything of the others is. */
  lemma DeletedLeavesNothing(s: State, routine: RoutineId)
    requires routine in s.routines
    ensures var t := Step(s, RoutineDeleted(routine));
            && t.routines == s.routines - {routine} && t.ticks == s.ticks - {routine}
            && (forall q :: q in t.queue <==> q in s.queue && q.routine != routine)
            && (forall q :: q in t.mirror <==> q in s.mirror && q.routine != routine)
            && (forall h :: h in t.hooks <==> h in s.hooks && h.routine != routine)
            && t.turn == s.turn && t.pending == s.pending && t.drain == s.drain && t.h.logged == s.h.logged
  {
    hide Without, Of, Ids, HooksWithout;
    WithoutMeans(s.queue, routine);
    WithoutMeans(s.mirror, routine);
    HooksWithoutMeans(s.hooks, routine);
  }

  // ---------------------------------------------------------------- quiet runs in a row

  /** From the end of a log: runs that were suppressed or open with the silent token; failed and skipped ones are passed
      over, and a run that has something to say ends the count. */
  function QuietInARow(log: seq<RunRecord>): nat {
    if log == [] then 0
    else match log[|log| - 1].status
      case Skipped => QuietInARow(log[..|log| - 1])
      case Failure => QuietInARow(log[..|log| - 1])
      case Silent => QuietInARow(log[..|log| - 1]) + 1
      case Success => if log[|log| - 1].quiet then QuietInARow(log[..|log| - 1]) + 1 else 0
  }

  /** One more row, on top of counts that are right so far. */
  lemma RowCounts(tick: TickState, log: seq<RunRecord>, run: RunRecord)
    requires tick.errorTicks == FailedInARow(log) && tick.silentTicks == QuietInARow(log) && tick.runs == LastRuns(log)
    ensures var t := RecordRun(Some(tick), run);
            && t.errorTicks == FailedInARow(log + [run]) && t.silentTicks == QuietInARow(log + [run])
            && |t.runs| == Min(|log| + 1, 20) && t.runs == (log + [run])[|log| + 1 - |t.runs|..]
            && t.tickCount == tick.tickCount && t.runsToday == tick.runsToday && t.runsTodayDate == tick.runsTodayDate
  {
    hide LastRuns;
    assert (log + [run])[..|log|] == log;
    LastRunsOfSnoc(log, run);
    LastTwenty(log + [run]);
  }

  lemma LastTwenty(log: seq<RunRecord>)
    ensures var kept := LastRuns(log); |kept| == Min(|log|, 20) && kept == log[|log| - |kept|..]
  {
    assert log[0..] == log;
  }
}
