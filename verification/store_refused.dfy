// What a load of the store refuses, part by part, and what it drops because there is too much of it.
module StoreRefused {
  import opened Common
  import opened Json
  import opened StoreSanitizer

  predicate LacksText(o: map<Key, Json>, k: Key) {
    k !in o || !o[k].Str?
  }

  /** No number, not finite, or below the least value. */
  predicate LacksNumber(o: map<Key, Json>, k: Key, least: int) {
    k !in o || !o[k].Num? || o[k].n.Infinite? || o[k].n.value < least as real
  }

  predicate LacksWhole(o: map<Key, Json>, k: Key) {
    k !in o || !o[k].Num? || o[k].n.Infinite? || o[k].n.value.Floor as real != o[k].n.value
  }

  /** A cap that is there, but is no whole number from one on. */
  predicate BadCap(o: map<Key, Json>, k: Key) {
    k in o && (LacksWhole(o, k) || LacksNumber(o, k, 1))
  }

  /** Everything a load refuses a routine for. */
  lemma RoutineRefusedIff(h: Host, id: Key, v: Json)
    ensures SanitizeRoutine(h, id, v).None? <==>
              || !v.Obj?
              || LacksText(v.fields, Id) || h.keyOf(v.fields[Id].s) != id
              || LacksText(v.fields, Name) || !h.isRoutineName(v.fields[Name].s)
              || LacksText(v.fields, Prompt) || h.isBlank(v.fields[Prompt].s)
              || ContextKey !in v.fields || v.fields[ContextKey] != Str("session")
              || Quiet !in v.fields || !v.fields[Quiet].Bool?
              || LacksNumber(v.fields, CreatedAt, 0)
              || Triggers !in v.fields || !v.fields[Triggers].Arr? || |v.fields[Triggers].items| == 0 || |v.fields[Triggers].items| > 4
              || (exists i :: 0 <= i < |v.fields[Triggers].items| && SanitizeTrigger(h, v.fields[Triggers].items[i]).None?)
              || BadCap(v.fields, MaxTicks) || BadCap(v.fields, MaxRunsPerDay)
              || (Paused in v.fields && !v.fields[Paused].Bool?)
  {
    hide SanitizeTrigger, BuildRoutine, SanitizeTriggers, LacksWhole, LacksNumber, IsFinite, IsInteger, ValidCap;
    if v.Obj? {
      var o := v.fields;
      CapRefused(o, MaxTicks);
      CapRefused(o, MaxRunsPerDay);
      NumberRefused(o, CreatedAt);
      TriggersRefusedIff(h, Items(Get(o, Triggers)));
    }
  }

  lemma CapRefused(o: map<Key, Json>, k: Key)
    ensures ValidCap(Get(o, k)) <==> !BadCap(o, k)
  {
  }

  lemma NumberRefused(o: map<Key, Json>, k: Key)
    ensures IsFinite(Get(o, k), 0.0) <==> !LacksNumber(o, k, 0)
    ensures IsInteger(Get(o, k)) <==> !LacksWhole(o, k)
  {
  }

  lemma {:induction false} TriggersRefusedIff(h: Host, items: seq<Json>)
    ensures SanitizeTriggers(h, items).None? <==> exists i :: 0 <= i < |items| && SanitizeTrigger(h, items[i]).None?
  {
    hide SanitizeTrigger;
    if items != [] {
      TriggersRefusedIff(h, items[1..]);
      assert forall i :: 1 <= i < |items| ==> items[i] == items[1..][i - 1];
    }
  }

  /** Everything a load drops a logged run for. */
  lemma RunRefusedIff(h: Host, id: Key, v: Json)
    ensures !ValidRun(h, id, v) <==>
              || !v.Obj?
              || LacksText(v.fields, Id) || LacksText(v.fields, RoutineIdKey) || h.keyOf(v.fields[RoutineIdKey].s) != id
              || LacksNumber(v.fields, StartedAt, 0) || LacksNumber(v.fields, EndedAt, 0) || LacksNumber(v.fields, DurationMs, 0)
              || StatusKey !in v.fields || !NamesOneOf(v.fields[StatusKey], {"success", "error", "skipped", "silent"})
              || LacksWhole(v.fields, TriggerIndex)
              || TriggerKind !in v.fields || !NamesOneOf(v.fields[TriggerKind], {"pulse", "cron", "oneoff", "hook", "github", "api", "manual"})
              || LacksText(v.fields, Snippet) || (SkipReason in v.fields && !v.fields[SkipReason].Str?)
  {
    hide NamesOneOf, LacksWhole, LacksNumber, IsFinite, IsInteger;
    if v.Obj? {
      NumberRefused(v.fields, StartedAt);
      NumberRefused(v.fields, EndedAt);
      NumberRefused(v.fields, DurationMs);
      NumberRefused(v.fields, TriggerIndex);
    }
  }

  /** The trigger at the stored index is a hook on the end of a session. */
  predicate IsEndHook(routine: Json, index: int) {
    && routine.Obj? && Triggers in routine.fields && routine.fields[Triggers].Arr? && 0 <= index < |routine.fields[Triggers].items|
    && routine.fields[Triggers].items[index].Obj?
    && var t := routine.fields[Triggers].items[index].fields;
       KindKey in t && t[KindKey] == Str("hook") && EventKey in t && t[EventKey] == Str("session_shutdown")
  }

  /** Everything a load drops a deferred hook for. */
  lemma HookRefusedIff(h: Host, v: Json, routines: map<Key, Json>)
    ensures !ValidDeferredHook(h, v, routines) <==>
              || !v.Obj?
              || LacksText(v.fields, Id) || LacksText(v.fields, RoutineIdKey) || h.keyOf(v.fields[RoutineIdKey].s) !in routines
              || LacksWhole(v.fields, TriggerIndex) || LacksNumber(v.fields, TriggerIndex, 0)
              || !IsEndHook(routines[h.keyOf(v.fields[RoutineIdKey].s)], v.fields[TriggerIndex].n.value.Floor)
              || LacksNumber(v.fields, DeferredAt, 0)
              || LacksText(v.fields, EndedSessionId) || LacksText(v.fields, EndedSessionCwd) || LacksText(v.fields, EndedDateLocal)
              || LacksText(v.fields, EndedTimeLocal) || LacksText(v.fields, Transcript)
  {
    hide LacksWhole, LacksNumber, IsFinite, IsInteger, IsEndHook, IsShutdownTrigger;
    if v.Obj? {
      NumberRefused(v.fields, TriggerIndex);
      NumberRefused(v.fields, DeferredAt);
      WholeIsFinite(v.fields, TriggerIndex);
      if IsInteger(Get(v.fields, TriggerIndex)) && IsStr(Get(v.fields, RoutineIdKey)) && h.keyOf(v.fields[RoutineIdKey].s) in routines {
        EndHookIs(routines[h.keyOf(v.fields[RoutineIdKey].s)], v.fields[TriggerIndex].n.value.Floor);
      }
    }
  }

  lemma WholeIsFinite(o: map<Key, Json>, k: Key)
    ensures IsInteger(Get(o, k)) ==> k in o && o[k].Num? && o[k].n.Finite?
    ensures !LacksWhole(o, k) ==> k in o && o[k].Num? && o[k].n.Finite?
  {
  }

  lemma EndHookIs(routine: Json, index: int)
    ensures IsShutdownTrigger(routine, index) <==> IsEndHook(routine, index)
  {
  }

  predicate BadOrigin(v: Json) {
    || !v.Obj? || LacksWhole(v.fields, Index) || LacksNumber(v.fields, Index, -1)
    || KindKey !in v.fields || !NamesOneOf(v.fields[KindKey], {"pulse", "cron", "oneoff", "hook", "github", "api", "manual"})
  }

  /** Everything a load drops a queued fire for; one that stems from a deferred hook is among it. */
  lemma EntryRefusedIff(h: Host, v: Json, routines: map<Key, Json>)
    ensures !ValidQueueEntry(h, v, routines) <==>
              || !v.Obj?
              || LacksText(v.fields, RoutineIdKey) || h.keyOf(v.fields[RoutineIdKey].s) !in routines
              || LacksText(v.fields, RunIdKey) || DeferredHookId in v.fields
              || Origin !in v.fields || BadOrigin(v.fields[Origin])
              || (QueuedAt in v.fields && LacksNumber(v.fields, QueuedAt, 0))
              || (ApiArgs in v.fields && !v.fields[ApiArgs].Obj?) || (GithubEvent in v.fields && !v.fields[GithubEvent].Obj?)
              || (ContextNote in v.fields && !v.fields[ContextNote].Str?) || (HookOnceKey in v.fields && !v.fields[HookOnceKey].Str?)
              || (HookOnceMode in v.fields && !NamesOneOf(v.fields[HookOnceMode], {"daily", "per_session"}))
  {
    hide NamesOneOf, LacksWhole, LacksNumber, IsFinite, IsInteger, ValidOrigin, BadOrigin;
    if v.Obj? {
      NumberRefused(v.fields, QueuedAt);
      if Origin in v.fields {
        OriginRefused(v.fields[Origin]);
      } else {
        NoOrigin();
      }
    }
  }

  lemma NoOrigin()
    ensures !ValidOrigin(None)
  {
  }

  lemma OriginRefused(v: Json)
    ensures ValidOrigin(Some(v)) <==> !BadOrigin(v)
  {
    hide NamesOneOf;
  }

  // ---------------------------------------------------------------- bounds

  /** A load keeps at most the last twenty runs of a routine, the newest five deferred hooks, and the first three entries. */
  lemma LoadIsBounded(h: Host, id: Key, raw: Option<Json>, routines: map<Key, Json>)
    ensures |DeferredHooksOf(h, raw, routines)| <= 5 && |PendingQueueOf(h, raw, routines)| <= 3
    ensures PendingQueueOf(h, raw, routines) <= ValidEntries(h, Items(raw), routines)
    ensures |ValidEntries(h, Items(raw), routines)| <= 3 ==> PendingQueueOf(h, raw, routines) == ValidEntries(h, Items(raw), routines)
    ensures |ValidEntries(h, Items(raw), routines)| >= 3 ==> |PendingQueueOf(h, raw, routines)| == 3
    ensures var valid := ValidRuns(h, id, Items(raw));
            var kept := Last(valid, MAX_RUN_HISTORY);
            if |valid| <= 20 then kept == valid else kept == valid[|valid| - 20..]
  {
    hide ValidQueueEntry, ValidRun, SanitizeHooks, SortByTime;
  }

  /** What the end of a sorted list leaves out is no newer than what it keeps. */
  lemma EndOfSorted(sorted: seq<Json>, n: nat)
    requires Sorted(sorted)
    ensures var kept := Last(sorted, n);
            && |kept| == Min(|sorted|, n) && Sorted(kept) && (forall d :: d in kept ==> d in sorted)
            && (forall d, k :: d in sorted && d !in kept && k in kept ==> DeferredTime(d) <= DeferredTime(k))
  {
    hide DeferredTime;
    var kept := Last(sorted, n);
    var gone := |sorted| - |kept|;
    assert kept == sorted[gone..];
    assert forall m :: gone <= m < |sorted| ==> sorted[m] == kept[m - gone];
    forall d, k | d in sorted && d !in kept && k in kept
      ensures DeferredTime(d) <= DeferredTime(k)
    {
      var i :| 0 <= i < |sorted| && sorted[i] == d;
      var j :| 0 <= j < |kept| && kept[j] == k;
      assert i < gone;
      assert sorted[gone + j] == k;
    }
  }

  /** Of more than five hooks the newest are kept, oldest first. */
  lemma NewestHooksAreKept(h: Host, raw: Option<Json>, routines: map<Key, Json>)
    ensures var all, kept := ValidHooks(h, Items(raw), routines), Keepers(h, raw, routines);
            && |kept| == Min(|all|, 5) && Sorted(kept) && (forall d :: d in kept ==> d in all)
            && (forall d, k :: d in all && d !in kept && k in kept ==> DeferredTime(d) <= DeferredTime(k))
  {
    hide ValidHooks, Sorted, SortByTime, Last, DeferredTime;
    var all := ValidHooks(h, Items(raw), routines);
    var sorted := SortByTime(all);
    SortFacts(all);
    EndOfSorted(sorted, 5);
  }

  // ---------------------------------------------------------------- faulty members

  /** The members of a tick state that are faulty, or not there, begin anew: counts and times at zero, the date as the empty
      text, the user's own state empty when it is none or larger than two kilobytes; today's budget is forgotten. */
  lemma FaultyMembersBeginAnew(h: Host, id: Key, v: Option<Json>)
    ensures var o := FieldsOf(v);
            var out := SanitizeTickState(h, id, v).fields;
            && Get(out, TickCount) == Some(if LacksWhole(o, TickCount) || LacksNumber(o, TickCount, 0) then Num(Finite(0.0)) else o[TickCount])
            && Get(out, LastFiredAt) == Some(if LacksNumber(o, LastFiredAt, 0) then Num(Finite(0.0)) else o[LastFiredAt])
            && Get(out, LastFiredDateLocal) == Some(if LacksText(o, LastFiredDateLocal) then Str("") else o[LastFiredDateLocal])
            && Get(out, UserState) == Some(if UserState in o && o[UserState].Obj? && h.size(o[UserState]) <= 2048 then o[UserState] else Obj(map[]))
            && Get(out, RunsToday) == (if LacksWhole(o, RunsToday) || LacksNumber(o, RunsToday, 0) then None else Some(o[RunsToday]))
            && Get(out, RunsTodayDate) == (if LacksText(o, RunsTodayDate) then None else Some(o[RunsTodayDate]))
  {
    var o := FieldsOf(v);
    var runs, markers := Last(ValidRuns(h, id, Items(Get(o, RunsKey))), MAX_RUN_HISTORY), TextEntries(h, Get(o, HookOnceDaily), true);
    AbsentTickState(h, id);
    TickStateFields(Count(Get(o, TickCount)), Time(Get(o, LastFiredAt)), Text(Get(o, LastFiredDateLocal)), UserStateOf(h, Get(o, UserState)),
                    runs, IfCount(Get(o, RunsToday)), IfText(Get(o, RunsTodayDate)), markers);
    hide BuildTickState, ValidRuns, TextEntries, IsFinite, IsInteger, LacksNumber, LacksWhole;
    NumberRefused(o, TickCount);
    NumberRefused(o, LastFiredAt);
    NumberRefused(o, RunsToday);
    NoNumber();
  }

  lemma NoNumber()
    ensures !IsInteger(None) && !IsFinite(None, 0.0)
  {
  }

  /** The once-marker a load adds for an older store: for a routine whose only trigger is a daily hook, that has fired on a
      date and has no markers, the hook is marked with that date; in any other case none is added. */
  lemma OldMarkerIff(h: Host, id: Key, routine: Json, tick: map<Key, Json>, trigger: map<Key, Json>)
    requires routine.Obj? && Get(routine.fields, Triggers) == Some(Arr([Obj(trigger)]))
    ensures var m := LegacyMarkers(h, id, routine, tick);
            && (m.Some? <==>
                  && Get(trigger, KindKey) == Some(Str("hook")) && Get(trigger, OnceKey) == Some(Str("daily")) && EventKey in trigger
                  && HookOnceDaily !in tick && LastFiredDateLocal in tick && tick[LastFiredDateLocal].Str? && tick[LastFiredDateLocal].s != "")
            && (m.Some? ==> m == Some(Obj(map[h.hookKey(id, trigger[EventKey]) := tick[LastFiredDateLocal]])))
  {
  }

  lemma NoOldMarker(h: Host, id: Key, routine: Json, tick: map<Key, Json>)
    requires !routine.Obj? || |Items(Get(routine.fields, Triggers))| != 1
    ensures LegacyMarkers(h, id, routine, tick).None?
  {
  }
}
