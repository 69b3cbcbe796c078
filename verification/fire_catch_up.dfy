// The catch-up at session start: which missed slot is fired, and what it does to the queue that came back.
module FireCatchUp {
  import opened Common
  import opened FireBudget
  import opened FireState
  import opened FireInvariants
  import opened Rehydrate
  import C = Cron

  /** When a trigger comes due. `Slots`: a cron expression, if it can be read, and the calendar of its zone. */
  datatype Schedule = Slots(spec: Option<C.CronSpec>, at: C.Calendar) | Every(interval: int) | Unscheduled

  datatype Slot = Slot(index: nat, at: int)

  // ---------------------------------------------------------------- the missed slot

  /** The first slot after the anchor; an expression that cannot be read, or never fires, has none. */
  function NextSlot(t: Schedule, anchor: int): Option<int> {
    match t
    case Slots(spec, at) => if spec.Some? then C.NextFire(spec.value, at, anchor) else None
    case Every(interval) => Some(anchor + interval)
    case Unscheduled => None
  }

  predicate IsMissed(t: Schedule, anchor: int, now: int) {
    NextSlot(t, anchor).Some? && NextSlot(t, anchor).value <= now
  }

  /** A slot of the trigger lies after the anchor and not after now, inside the horizon of the search. */
  ghost predicate HasPassed(t: Schedule, anchor: int, now: int) {
    match t
    case Slots(spec, at) => spec.Some? && exists u :: anchor < u <= now && u <= anchor + C.HORIZON_MS && C.MatchAt(spec.value, at, u)
    case Every(interval) => anchor + interval <= now
    case Unscheduled => false
  }

  lemma MissedIffPassed(t: Schedule, anchor: int, now: int)
    requires anchor >= 0
    ensures IsMissed(t, anchor, now) <==> HasPassed(t, anchor, now)
  {
    hide C.NextFire, C.MatchAt;
    if t.Slots? && t.spec.Some? {
      C.NextFireIsLeast(t.spec.value, t.at, anchor);
    }
  }

  /** The loop keeps the first trigger whose missed slot is the oldest so far. */
  function EarliestMissed(ts: seq<Schedule>, anchor: int, now: int): (r: Option<Slot>)
    ensures r.Some? ==> r.value.index < |ts| && IsMissed(ts[r.value.index], anchor, now)
    ensures r.Some? ==> r.value.at == NextSlot(ts[r.value.index], anchor).value
    ensures r.Some? <==> exists i :: 0 <= i < |ts| && IsMissed(ts[i], anchor, now)
    ensures r.Some? ==> forall i :: 0 <= i < |ts| && IsMissed(ts[i], anchor, now) ==>
                        r.value.at <= NextSlot(ts[i], anchor).value && (i < r.value.index ==> r.value.at < NextSlot(ts[i], anchor).value)
  {
    if ts == [] then None
    else
      var n := |ts| - 1;
      var before := EarliestMissed(ts[..n], anchor, now);
      assert forall i :: 0 <= i < n ==> ts[..n][i] == ts[i];
      if IsMissed(ts[n], anchor, now) && (before.None? || NextSlot(ts[n], anchor).value < before.value.at) then
        Some(Slot(n, NextSlot(ts[n], anchor).value))
      else before
  }

  method FindMissed(ts: seq<Schedule>, anchor: int, now: int) returns (missed: Option<Slot>)
    ensures missed == EarliestMissed(ts, anchor, now)
  {
    missed := None;
    for i := 0 to |ts|
      invariant missed == EarliestMissed(ts[..i], anchor, now)
    {
      assert ts[..i + 1][..i] == ts[..i];
      var at: Option<int> := None;
      match ts[i] {
        case Slots(spec, calendar) =>
          if spec.Some? {
            at := C.NextCronFire(spec.value, calendar, anchor);
          }
        case Every(interval) => at := Some(anchor + interval);
        case Unscheduled =>
      }
      if at.Some? && at.value <= now && (missed.None? || at.value < missed.value.at) {
        missed := Some(Slot(i, at.value));
      }
    }
    assert ts[..|ts|] == ts;
  }

  /** A routine is caught up exactly when a slot of one of its triggers has passed since it last fired or was
      created; the slot is then the oldest there is. */
  lemma CaughtUpIffPassed(ts: seq<Schedule>, anchor: int, now: int)
    requires anchor >= 0
    ensures EarliestMissed(ts, anchor, now).Some? <==> exists i :: 0 <= i < |ts| && HasPassed(ts[i], anchor, now)
    ensures EarliestMissed(ts, anchor, now).Some? ==>
              var slot := EarliestMissed(ts, anchor, now).value;
              slot.at <= now && forall i :: 0 <= i < |ts| ==> !HasPassed(ts[i], anchor, slot.at - 1)
  {
    hide NextSlot, HasPassed, EarliestMissed;
    forall i | 0 <= i < |ts|
      ensures IsMissed(ts[i], anchor, now) <==> HasPassed(ts[i], anchor, now)
    {
      MissedIffPassed(ts[i], anchor, now);
    }
    var r := EarliestMissed(ts, anchor, now);
    if r.Some? {
      forall i | 0 <= i < |ts|
        ensures !HasPassed(ts[i], anchor, r.value.at - 1)
      {
        MissedIffPassed(ts[i], anchor, r.value.at - 1);
      }
    }
  }

  /** The fire moves the anchor to its own time, so no slot up to then is counted again. */
  lemma NoSlotTwice(ts: seq<Schedule>, fired: int)
    requires fired >= 0 && forall i :: 0 <= i < |ts| && ts[i].Every? ==> ts[i].interval > 0
    ensures EarliestMissed(ts, fired, fired).None?
  {
    hide EarliestMissed, C.MatchAt;
    CaughtUpIffPassed(ts, fired, fired);
  }

  // ---------------------------------------------------------------- all routines in turn

  /** What the loop knows of a routine: its schedules, when it last fired or was created, and the fire it would make. */
  datatype Candidate = Candidate(routine: RoutineId, schedules: seq<Schedule>, anchor: int, id: RunId, note: string)

  function MissedBy(c: Candidate, now: int): Option<Slot> {
    EarliestMissed(c.schedules, c.anchor, now)
  }

  function KindOf(t: Schedule): Kind {
    if t.Slots? then Cron else Pulse
  }

  function CatchUpOne(s: State, c: Candidate, now: int): State {
    var missed := MissedBy(c, now);
    if missed.None? then s
    else CatchUp(s, c.routine, missed.value.index, KindOf(c.schedules[missed.value.index]), NO_PAYLOAD.(contextNote := Some(c.note)), now, c.id)
  }

  function CatchUpAll(s: State, cs: seq<Candidate>, now: int): State
    decreases |cs|
  {
    if cs == [] then s else CatchUpAll(CatchUpOne(s, cs[0], now), cs[1..], now)
  }

  /** The routine has missed a slot, is not paused, not queued already and not in flight. */
  predicate IsDue(s: State, c: Candidate, now: int) {
    && MissedBy(c, now).Some?
    && c.routine in s.routines && !s.routines[c.routine].paused
    && !HasRoutine(s.queue, c.routine) && !(s.pending.Some? && s.pending.value.routine == c.routine)
  }

  function EntryOf(c: Candidate, now: int): Entry
    requires MissedBy(c, now).Some?
  {
    var slot := MissedBy(c, now).value;
    Entry(c.routine, c.id, slot.index, KindOf(c.schedules[slot.index]), Some(now), NO_PAYLOAD.(contextNote := Some(c.note)), None)
  }

  /** With room, the catch-up of a due routine is one more entry at the end: for a trigger that really missed a slot, a cron
      fire when that trigger follows a calendar and a pulse when it repeats, stamped with the time and carrying the note. */
  lemma CaughtUpFireIs(s: State, c: Candidate, now: int)
    requires IsDue(s, c, now) && |s.queue| < MAX_QUEUE_DEPTH
    ensures var q := CatchUpOne(s, c, now).queue;
            && |q| == |s.queue| + 1 && q[..|s.queue|] == s.queue
            && var e := q[|s.queue|];
               && e.routine == c.routine && e.run == c.id && e.queuedAt == Some(now) && e.deferred.None?
               && e.payload.contextNote == Some(c.note)
               && 0 <= e.index < |c.schedules| && IsMissed(c.schedules[e.index], c.anchor, now)
               && match c.schedules[e.index] { case Slots(_, _) => e.kind == Cron case Every(_) => e.kind == Pulse case Unscheduled => false }
  {
    EnqueueIsAppend(s, EntryOf(c, now));
  }

  /** One entry for each routine that is due. */
  function DueEntries(s: State, cs: seq<Candidate>, now: int): seq<Entry> {
    if cs == [] then []
    else (if IsDue(s, cs[0], now) then [EntryOf(cs[0], now)] else []) + DueEntries(s, cs[1..], now)
  }

  ghost predicate DistinctRoutines(cs: seq<Candidate>) {
    forall i, j :: 0 <= i < j < |cs| ==> cs[i].routine != cs[j].routine
  }

  lemma CatchUpOneIs(s: State, c: Candidate, now: int)
    ensures CatchUpOne(s, c, now) == if IsDue(s, c, now) then Enqueue(s, EntryOf(c, now), false) else s
  {
    hide Enqueue;
  }

  lemma EnqueueIsBounded(s: State, e: Entry)
    requires |s.queue| <= MAX_QUEUE_DEPTH
    ensures |Enqueue(s, e, false).queue| <= MAX_QUEUE_DEPTH
    ensures |s.queue| < MAX_QUEUE_DEPTH ==> Enqueue(s, e, false).queue == s.queue + [e]
    ensures |s.queue| < MAX_QUEUE_DEPTH ==> Enqueue(s, e, false).routines == s.routines && Enqueue(s, e, false).pending == s.pending
  {
  }

  lemma {:induction false} CatchUpIsBounded(s: State, cs: seq<Candidate>, now: int)
    requires |s.queue| <= MAX_QUEUE_DEPTH
    ensures |CatchUpAll(s, cs, now).queue| <= MAX_QUEUE_DEPTH
    decreases |cs|
  {
    hide CatchUpOne, Enqueue;
    if cs != [] {
      CatchUpOneIs(s, cs[0], now);
      if IsDue(s, cs[0], now) {
        EnqueueIsBounded(s, EntryOf(cs[0], now));
      }
      CatchUpIsBounded(CatchUpOne(s, cs[0], now), cs[1..], now);
    }
  }

  /** Queueing one routine makes no other due, or no longer due. */
  lemma {:induction false} SameDueEntries(s: State, t: State, cs: seq<Candidate>, now: int, e: Entry)
    requires t.queue == s.queue + [e] && t.routines == s.routines && t.pending == s.pending
    requires forall i :: 0 <= i < |cs| ==> cs[i].routine != e.routine
    ensures DueEntries(t, cs, now) == DueEntries(s, cs, now)
    decreases |cs|
  {
    hide MissedBy;
    if cs != [] {
      assert HasRoutine(t.queue, cs[0].routine) <==> HasRoutine(s.queue, cs[0].routine) by {
        assert forall i :: 0 <= i < |s.queue| ==> t.queue[i] == s.queue[i];
        assert t.queue[|s.queue|] == e;
      }
      SameDueEntries(s, t, cs[1..], now, e);
    }
  }

  lemma {:induction false} CaughtUpInRoom(s: State, cs: seq<Candidate>, now: int)
    requires DistinctRoutines(cs) && |s.queue| + |DueEntries(s, cs, now)| <= MAX_QUEUE_DEPTH
    ensures CatchUpAll(s, cs, now).queue == s.queue + DueEntries(s, cs, now)
    decreases |cs|
  {
    hide CatchUpOne, Enqueue, EntryOf, MissedBy;
    if cs == [] {
      assert s.queue + [] == s.queue;
    } else {
      var t, rest := CatchUpOne(s, cs[0], now), cs[1..];
      CatchUpOneIs(s, cs[0], now);
      if IsDue(s, cs[0], now) {
        var e := EntryOf(cs[0], now);
        assert e.routine == cs[0].routine by {
          EntryIsOfRoutine(cs[0], now);
        }
        EnqueueIsBounded(s, e);
        SameDueEntries(s, t, rest, now, e);
        CaughtUpInRoom(t, rest, now);
        assert s.queue + ([e] + DueEntries(s, rest, now)) == (s.queue + [e]) + DueEntries(s, rest, now);
      } else {
        assert [] + DueEntries(s, rest, now) == DueEntries(s, rest, now);
        CaughtUpInRoom(s, rest, now);
      }
    }
  }

  lemma EntryIsOfRoutine(c: Candidate, now: int)
    requires MissedBy(c, now).Some?
    ensures EntryOf(c, now).routine == c.routine
  {
  }

  /** The queue that came back keeps its entries and gets one more for each routine that is due, exactly when there
      is room for all of them. Otherwise entries that came back are dropped for catch-ups. */
  lemma SurvivorsKeepTheirPlaceIff(s: State, cs: seq<Candidate>, now: int)
    requires Sound(s) && DistinctRoutines(cs)
    ensures CatchUpAll(s, cs, now).queue == s.queue + DueEntries(s, cs, now) <==> |s.queue| + |DueEntries(s, cs, now)| <= MAX_QUEUE_DEPTH
  {
    hide CatchUpAll, DueEntries;
    CatchUpIsBounded(s, cs, now);
    if |s.queue| + |DueEntries(s, cs, now)| <= MAX_QUEUE_DEPTH {
      CaughtUpInRoom(s, cs, now);
    }
  }

  /** The loop is a run of catch-up events. */
  lemma {:induction false} CatchUpAllRuns(s: State, cs: seq<Candidate>, now: int) returns (es: seq<Event>)
    ensures Runs(s, es, CatchUpAll(s, cs, now)) && |es| <= |cs|
    ensures forall i :: 0 <= i < |es| ==> es[i].CaughtUp?
    decreases |cs|
  {
    hide CatchUp;
    if cs == [] {
      es := [];
    } else {
      var c, missed := cs[0], MissedBy(cs[0], now);
      var rest := CatchUpAllRuns(CatchUpOne(s, c, now), cs[1..], now);
      if missed.Some? {
        var e := CaughtUp(c.routine, missed.value.index, KindOf(c.schedules[missed.value.index]), NO_PAYLOAD.(contextNote := Some(c.note)), now, c.id);
        es := [e] + rest;
        assert es[1..] == rest;
      } else {
        es := rest;
      }
    }
  }

  // ---------------------------------------------------------------- a survivor that does not win

  function Waits(routine: RoutineId, id: RunId): Entry {
    Entry(routine, id, 0, Pulse, Some(0), NO_PAYLOAD, None)
  }

  const HOUR := 3_600_000

  function Hourly(routine: RoutineId, id: RunId): Candidate {
    Candidate(routine, [Every(HOUR)], 0, id, "")
  }

  predicate CanWait(routines: map<RoutineId, Routine>, routine: RoutineId) {
    routine in routines && !routines[routine].paused
  }

  lemma OneComesBack(s: State, seen: set<RoutineId>, routine: RoutineId, id: RunId)
    requires CanWait(s.routines, routine) && routine !in seen && !HasRoutine(s.queue, routine)
    ensures RehydrateOne(s, seen, Waits(routine, id), HOUR) == (Enqueue(s, Waits(routine, id), false), seen + {routine})
  {
    hide Enqueue;
  }

  lemma ThreeComeBack(routines: map<RoutineId, Routine>, ticks: map<RoutineId, TickState>)
    requires CanWait(routines, "x") && CanWait(routines, "y") && CanWait(routines, "z")
    ensures var saved := [Waits("x", "1"), Waits("y", "2"), Waits("z", "3")];
            var s := RehydrateQueue(NewSession(routines, ticks, [], saved), HOUR);
            s.queue == saved && s.routines == routines && s.pending.None?
  {
    hide Enqueue;
    var saved := [Waits("x", "1"), Waits("y", "2"), Waits("z", "3")];
    var s := NewSession(routines, ticks, [], saved).(mirror := []);
    var s1 := Enqueue(s, saved[0], false);
    var s2 := Enqueue(s1, saved[1], false);
    EnqueueIsBounded(s, saved[0]);
    EnqueueIsBounded(s1, saved[1]);
    EnqueueIsBounded(s2, saved[2]);
    OneComesBack(s, {}, "x", "1");
    OneComesBack(s1, {"x"}, "y", "2");
    OneComesBack(s2, {"x", "y"}, "z", "3");
    assert {} + {"x"} == {"x"} && {"x"} + {"y"} == {"x", "y"};
    assert RehydrateUpTo(s, saved, 1, HOUR) == (s1, {"x"});
    assert RehydrateUpTo(s, saved, 2, HOUR) == (s2, {"x", "y"});
    assert RehydrateUpTo(s, saved, 3, HOUR).0 == Enqueue(s2, saved[2], false);
  }

  lemma HourlyIsMissed(routine: RoutineId, id: RunId)
    ensures MissedBy(Hourly(routine, id), HOUR) == Some(Slot(0, HOUR))
  {
    assert [Every(HOUR)][..0] == [];
  }

  /** In a full queue an entry is dropped from the front, and the new one goes to the end. */
  lemma FullQueueShifts(s: State, e: Entry)
    requires |s.queue| == MAX_QUEUE_DEPTH && e.deferred.None? && s.queue[0].routine in s.routines
    ensures var t := Enqueue(s, e, false);
            && t.queue == s.queue[1..] + [e] && t.routines == s.routines && t.pending == s.pending
            && t.h.logged == s.h.logged + multiset{s.queue[0].run}
  {
    assert RemoveAt(s.queue, 0) == s.queue[1..];
  }

  /** An input for the failing half: three fires come back, and "a" and "x" have missed an hour. "a" drops the fire
      of "x" that came back; so "x" is no longer queued, is caught up as well, and drops the fire of "y". */
  lemma SurvivorsAreDropped(routines: map<RoutineId, Routine>, ticks: map<RoutineId, TickState>)
    requires CanWait(routines, "a") && CanWait(routines, "x") && CanWait(routines, "y") && CanWait(routines, "z")
    ensures var saved := [Waits("x", "1"), Waits("y", "2"), Waits("z", "3")];
            var a, x := Hourly("a", "4"), Hourly("x", "5");
            var s := RehydrateQueue(NewSession(routines, ticks, [], saved), HOUR);
            var t := CatchUpAll(s, [a, x], HOUR);
            && s.queue == saved && !IsDue(s, x, HOUR)
            && MissedBy(a, HOUR).Some? && MissedBy(x, HOUR).Some?
            && t.queue == [Waits("z", "3"), EntryOf(a, HOUR), EntryOf(x, HOUR)]
            && t.h.logged == s.h.logged + multiset{"1", "2"}
  {
    hide Enqueue, RehydrateQueue, CatchUpOne, MissedBy;
    var saved := [Waits("x", "1"), Waits("y", "2"), Waits("z", "3")];
    var a, x := Hourly("a", "4"), Hourly("x", "5");
    var s := RehydrateQueue(NewSession(routines, ticks, [], saved), HOUR);
    ThreeComeBack(routines, ticks);
    HourlyIsMissed("a", "4");
    HourlyIsMissed("x", "5");
    CatchUpOneIs(s, a, HOUR);
    FullQueueShifts(s, EntryOf(a, HOUR));
    var s1 := CatchUpOne(s, a, HOUR);
    assert s1.queue == [Waits("y", "2"), Waits("z", "3"), EntryOf(a, HOUR)];
    assert s.queue[0].routine == "x";
    CatchUpOneIs(s1, x, HOUR);
    FullQueueShifts(s1, EntryOf(x, HOUR));
    assert [a, x][1..] == [x] && [x][1..] == [];
    assert CatchUpAll(s1, [x], HOUR) == CatchUpAll(CatchUpOne(s1, x, HOUR), [], HOUR);
    assert CatchUpAll(s, [a, x], HOUR) == CatchUpOne(s1, x, HOUR);
  }
}
