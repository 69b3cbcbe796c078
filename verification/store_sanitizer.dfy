// Validation of the persisted store: what survives a load, and that loading again changes nothing.
module StoreSanitizer {
  import opened Common
  import opened Json
  import opened TranscriptTrim

  const MAX_RUN_HISTORY := 20
  const MAX_USER_STATE_BYTES := 2048
  const MAX_DEFERRED_HOOKS := 5
  const MAX_QUEUE_DEPTH := 3
  const SCHEMA_VERSION := 3

  const ORIGIN_KINDS: set<string> := {"pulse", "cron", "oneoff", "hook", "github", "api", "manual"}
  const STATUSES: set<string> := {"success", "error", "skipped", "silent"}
  const HOOK_EVENTS: set<string> := {"session_start", "agent_end", "session_shutdown"}
  const GITHUB_EVENTS: set<string> := {"pull_request.opened", "pull_request.closed", "issues.opened", "push"}
  const ONCE_MODES: set<string> := {"daily", "per_session"}

  /** What the store asks of its host: time zone names, blank text, the two name patterns, the size of a
      value as text, and which object key a string is. */
  datatype Host = Host(
    isTimezone: string -> bool,
    isBlank: string -> bool,
    isRoutineName: string -> bool,
    isRepo: string -> bool,
    size: Json -> nat,
    keyOf: string -> Key,
    hookKey: (Key, Json) -> Key)

  // ---------------------------------------------------------------- triggers

  predicate ValidTimezone(h: Host, v: Option<Json>) {
    v.None? || (v.value.Str? && h.isTimezone(v.value.s))
  }

  /** A member kept only when it is a non-empty string. */
  function NonEmpty(k: Key, v: Option<Json>): map<Key, Json> {
    if IsStr(v) && v.value.s != "" then Put(k, v) else map[]
  }

  function OnlyTrue(k: Key, v: Option<Json>): map<Key, Json> {
    if IsTrue(v) then Put(k, v) else map[]
  }

  function SanitizePulse(o: map<Key, Json>): (r: Option<Json>)
    ensures r.Some? ==> r.value.Obj?
  {
    if !IsFinite(Get(o, IntervalMs), 1.0) || !IsStr(Get(o, IntervalHuman)) || Timezone in o then None
    else Some(Obj(map[KindKey := Str("pulse"), IntervalMs := o[IntervalMs], IntervalHuman := o[IntervalHuman]]))
  }

  function SanitizeCron(h: Host, o: map<Key, Json>): (r: Option<Json>)
    ensures r.Some? ==> r.value.Obj?
  {
    if !IsStr(Get(o, Expr)) || !ValidTimezone(h, Get(o, Timezone)) then None
    else Some(Obj(map[KindKey := Str("cron"), Expr := o[Expr]] + NonEmpty(Timezone, Get(o, Timezone))))
  }

  function SanitizeOneOff(h: Host, o: map<Key, Json>): (r: Option<Json>)
    ensures r.Some? ==> r.value.Obj?
  {
    if !IsStr(Get(o, FireAtIso)) || !ValidTimezone(h, Get(o, Timezone)) || (FiredKey in o && !o[FiredKey].Bool?) then None
    else Some(Obj(map[KindKey := Str("oneoff"), FireAtIso := o[FireAtIso]]
                  + NonEmpty(Timezone, Get(o, Timezone)) + OnlyTrue(FiredKey, Get(o, FiredKey))))
  }

  function SanitizeHook(o: map<Key, Json>): (r: Option<Json>)
    ensures r.Some? ==> r.value.Obj?
  {
    if EventKey !in o || !NamesOneOf(o[EventKey], HOOK_EVENTS) || (OnceKey in o && !NamesOneOf(o[OnceKey], ONCE_MODES)) then None
    else Some(Obj(map[KindKey := Str("hook"), EventKey := o[EventKey]] + Put(OnceKey, Get(o, OnceKey))))
  }

  function SanitizeApi(o: map<Key, Json>): (r: Option<Json>)
    ensures r.Some? ==> r.value.Obj?
  {
    if AllowArgs in o && !o[AllowArgs].Bool? then None
    else Some(Obj(map[KindKey := Str("api")] + OnlyTrue(AllowArgs, Get(o, AllowArgs))))
  }

  function Texts(items: seq<Json>): seq<Json> {
    if items == [] then []
    else if items[0].Str? && items[0].s != "" then [items[0]] + Texts(items[1..])
    else Texts(items[1..])
  }

  function NonEmptyList(k: Key, items: seq<Json>): map<Key, Json> {
    if items == [] then map[] else map[k := Arr(items)]
  }

  function SanitizeFilter(v: Option<Json>): Option<Json> {
    if !IsObj(v) then None
    else
      var f := v.value.fields;
      Some(Obj(NonEmptyList(Labels, Texts(Items(Get(f, Labels)))) + NonEmptyList(Branches, Texts(Items(Get(f, Branches))))
               + OnlyTrue(MergedOnly, Get(f, MergedOnly))))
  }

  /** The entries of a dictionary whose value is a string; `keepEmpty`: also under the empty name. */
  function TextEntries(h: Host, v: Option<Json>, keepEmpty: bool): Option<Json> {
    if !IsObj(v) then None
    else
      var kept := map k | k in v.value.fields && v.value.fields[k].Str? && (keepEmpty || k != h.keyOf("")) :: v.value.fields[k];
      if kept == map[] then None else Some(Obj(kept))
  }

  function SanitizeGithub(h: Host, o: map<Key, Json>): (r: Option<Json>)
    ensures r.Some? ==> r.value.Obj?
  {
    if !IsStr(Get(o, Repo)) || !h.isRepo(o[Repo].s)
       || EventKey !in o || !NamesOneOf(o[EventKey], GITHUB_EVENTS)
       || !IsFinite(Get(o, PollIntervalMs), 1.0) then None
    else
      var filter := SanitizeFilter(Get(o, FilterKey));
      if filter.Some? && Branches in filter.value.fields && o[EventKey] != Str("push") then None
      else Some(Obj(map[KindKey := Str("github"), Repo := o[Repo], EventKey := o[EventKey], PollIntervalMs := o[PollIntervalMs]]
                    + Put(FilterKey, filter)
                    + (if IsStr(Get(o, CursorKey)) then Put(CursorKey, Get(o, CursorKey)) else map[])
                    + Put(BranchCursors, TextEntries(h, Get(o, BranchCursors), false))))
  }

  function SanitizeTrigger(h: Host, v: Json): Option<Json> {
    if !v.Obj? || !IsStr(Get(v.fields, KindKey)) then None
    else
      var o := v.fields;
      var kind := o[KindKey].s;
      if kind == "pulse" then SanitizePulse(o)
      else if kind == "cron" then SanitizeCron(h, o)
      else if kind == "oneoff" then SanitizeOneOff(h, o)
      else if kind == "hook" then SanitizeHook(o)
      else if kind == "api" then SanitizeApi(o)
      else if kind == "github" then SanitizeGithub(h, o)
      else None
  }

  lemma {:induction false} TextsIdempotent(items: seq<Json>)
    ensures Texts(Texts(items)) == Texts(items)
  {
    if items != [] {
      TextsIdempotent(items[1..]);
      assert ([items[0]] + Texts(items[1..]))[1..] == Texts(items[1..]);
    }
  }

  lemma FilterIdempotent(v: Option<Json>)
    requires SanitizeFilter(v).Some?
    ensures SanitizeFilter(SanitizeFilter(v)) == SanitizeFilter(v)
  {
    var f := v.value.fields;
    TextsIdempotent(Items(Get(f, Labels)));
    TextsIdempotent(Items(Get(f, Branches)));
  }

  lemma TextEntriesIdempotent(h: Host, v: Option<Json>, keepEmpty: bool)
    requires TextEntries(h, v, keepEmpty).Some?
    ensures TextEntries(h, TextEntries(h, v, keepEmpty), keepEmpty) == TextEntries(h, v, keepEmpty)
  {
    var kept := TextEntries(h, v, keepEmpty).value.fields;
    assert kept == map k | k in kept && kept[k].Str? && (keepEmpty || k != h.keyOf("")) :: kept[k];
  }

  lemma GithubStable(h: Host, o: map<Key, Json>)
    requires SanitizeGithub(h, o).Some?
    ensures SanitizeGithub(h, SanitizeGithub(h, o).value.fields) == SanitizeGithub(h, o)
  {
    hide SanitizeFilter, TextEntries;
    var filter := SanitizeFilter(Get(o, FilterKey));
    var cursors := TextEntries(h, Get(o, BranchCursors), false);
    NothingFromNothing(h);
    if filter.Some? {
      FilterIdempotent(Get(o, FilterKey));
    }
    if cursors.Some? {
      TextEntriesIdempotent(h, Get(o, BranchCursors), false);
    }
    var out := SanitizeGithub(h, o).value.fields;
    assert Get(out, FilterKey) == filter;
    assert Get(out, BranchCursors) == cursors;
    assert Get(out, CursorKey) == (if IsStr(Get(o, CursorKey)) then Get(o, CursorKey) else None);
  }

  lemma NothingFromNothing(h: Host)
    ensures SanitizeFilter(None).None? && TextEntries(h, None, false).None? && TextEntries(h, None, true).None?
  {
  }

  lemma HookTriggerStable(o: map<Key, Json>)
    requires SanitizeHook(o).Some?
    ensures SanitizeHook(SanitizeHook(o).value.fields) == SanitizeHook(o)
  {
    var out := SanitizeHook(o).value.fields;
    assert Get(out, EventKey) == Get(o, EventKey) && Get(out, OnceKey) == Get(o, OnceKey);
  }

  lemma TimeTriggersStable(h: Host, o: map<Key, Json>)
    ensures SanitizePulse(o).Some? ==> SanitizePulse(SanitizePulse(o).value.fields) == SanitizePulse(o)
    ensures SanitizeCron(h, o).Some? ==> SanitizeCron(h, SanitizeCron(h, o).value.fields) == SanitizeCron(h, o)
    ensures SanitizeOneOff(h, o).Some? ==> SanitizeOneOff(h, SanitizeOneOff(h, o).value.fields) == SanitizeOneOff(h, o)
    ensures SanitizeApi(o).Some? ==> SanitizeApi(SanitizeApi(o).value.fields) == SanitizeApi(o)
  {
  }

  /** A sanitised trigger is sanitised to itself. */
  lemma TriggerStable(h: Host, v: Json)
    requires SanitizeTrigger(h, v).Some?
    ensures SanitizeTrigger(h, SanitizeTrigger(h, v).value) == SanitizeTrigger(h, v)
  {
    var o := v.fields;
    TimeTriggersStable(h, o);
    if o[KindKey].s == "github" {
      GithubKind(h, o);
      GithubStable(h, o);
    }
    if SanitizeHook(o).Some? {
      HookTriggerStable(o);
    }
    KindIsKept(h, o);
    hide SanitizePulse, SanitizeCron, SanitizeOneOff, SanitizeHook, SanitizeApi, SanitizeGithub;
  }

  lemma KindIsKept(h: Host, o: map<Key, Json>)
    ensures SanitizePulse(o).Some? ==> Get(SanitizePulse(o).value.fields, KindKey) == Some(Str("pulse"))
    ensures SanitizeCron(h, o).Some? ==> Get(SanitizeCron(h, o).value.fields, KindKey) == Some(Str("cron"))
    ensures SanitizeOneOff(h, o).Some? ==> Get(SanitizeOneOff(h, o).value.fields, KindKey) == Some(Str("oneoff"))
    ensures SanitizeHook(o).Some? ==> Get(SanitizeHook(o).value.fields, KindKey) == Some(Str("hook"))
    ensures SanitizeApi(o).Some? ==> Get(SanitizeApi(o).value.fields, KindKey) == Some(Str("api"))
  {
    hide NamesOneOf, ValidTimezone;
  }

  lemma GithubKind(h: Host, o: map<Key, Json>)
    requires SanitizeGithub(h, o).Some?
    ensures SanitizeGithub(h, o).value.Obj? && Get(SanitizeGithub(h, o).value.fields, KindKey) == Some(Str("github"))
  {
  }

  // ---------------------------------------------------------------- routines

  /** All of them, or nothing when one is refused. */
  function SanitizeTriggers(h: Host, items: seq<Json>): (r: Option<seq<Json>>)
    ensures r.Some? ==> |r.value| == |items|
  {
    if items == [] then Some([])
    else
      var first := SanitizeTrigger(h, items[0]);
      var rest := SanitizeTriggers(h, items[1..]);
      if first.None? || rest.None? then None else Some([first.value] + rest.value)
  }

  predicate ValidCap(v: Option<Json>) {
    v.None? || (IsInteger(v) && IsFinite(v, 1.0))
  }

  const ROUTINE_KEYS: set<Key> :=
    {Id, Name, Prompt, Triggers, ContextKey, Quiet, CreatedAt, MaxTicks, MaxRunsPerDay, Paused}

  /** The members of a sanitised routine. */
  function RoutineMember(o: map<Key, Json>, triggers: seq<Json>, k: Key): Option<Json> {
    match k
    case Triggers => Some(Arr(triggers))
    case Paused => if IsTrue(Get(o, Paused)) then Get(o, Paused) else None
    case _ => if k in ROUTINE_KEYS then Get(o, k) else None
  }

  function BuildRoutine(o: map<Key, Json>, triggers: seq<Json>): map<Key, Json> {
    ObjectOf(k => RoutineMember(o, triggers, k), ROUTINE_KEYS)
  }

  lemma RoutineFields(o: map<Key, Json>, triggers: seq<Json>)
    ensures forall k :: Get(BuildRoutine(o, triggers), k) == RoutineMember(o, triggers, k)
  {
    hide Get, IsTrue;
    assert forall k :: RoutineMember(o, triggers, k).Some? ==> k in ROUTINE_KEYS;
    assert forall k :: Get(BuildRoutine(o, triggers), k) == RoutineMember(o, triggers, k) by {
      ObjectGets(k => RoutineMember(o, triggers, k), ROUTINE_KEYS);
    }
  }

  function SanitizeRoutine(h: Host, id: Key, v: Json): Option<Json> {
    if !v.Obj? then None
    else
      var o := v.fields;
      if !IsStr(Get(o, Id)) || h.keyOf(o[Id].s) != id
         || !IsStr(Get(o, Name)) || !h.isRoutineName(o[Name].s)
         || !IsStr(Get(o, Prompt)) || h.isBlank(o[Prompt].s)
         || Get(o, ContextKey) != Some(Str("session")) || !IsBool(Get(o, Quiet)) || !IsFinite(Get(o, CreatedAt), 0.0) then None
      else if !(1 <= |Items(Get(o, Triggers))| <= 4) then None
      else
        var triggers := SanitizeTriggers(h, Items(Get(o, Triggers)));
        if triggers.None? || !ValidCap(Get(o, MaxTicks)) || !ValidCap(Get(o, MaxRunsPerDay))
           || (Paused in o && !o[Paused].Bool?) then None
        else
          Some(Obj(BuildRoutine(o, triggers.value)))
  }

  lemma {:induction false} TriggersStable(h: Host, items: seq<Json>)
    requires SanitizeTriggers(h, items).Some?
    ensures SanitizeTriggers(h, SanitizeTriggers(h, items).value) == SanitizeTriggers(h, items)
  {
    hide SanitizeTrigger;
    if items != [] {
      var out := SanitizeTriggers(h, items).value;
      TriggerStable(h, items[0]);
      TriggersStable(h, items[1..]);
      assert out[1..] == SanitizeTriggers(h, items[1..]).value;
    }
  }

  /** A sanitised routine is sanitised to itself. */
  lemma RoutineStable(h: Host, id: Key, v: Json)
    requires SanitizeRoutine(h, id, v).Some?
    ensures SanitizeRoutine(h, id, SanitizeRoutine(h, id, v).value) == SanitizeRoutine(h, id, v)
  {
    var o, out := v.fields, SanitizeRoutine(h, id, v).value.fields;
    var triggers := SanitizeTriggers(h, Items(Get(o, Triggers))).value;
    hide SanitizeTriggers, BuildRoutine, ValidCap;
    TriggersStable(h, Items(Get(o, Triggers)));
    RoutineGets(o, triggers);
    BuildRoutineAgain(o, triggers);
  }

  lemma RoutineGets(o: map<Key, Json>, triggers: seq<Json>)
    ensures var out := BuildRoutine(o, triggers);
            && Get(out, Id) == Get(o, Id) && Get(out, Name) == Get(o, Name) && Get(out, Prompt) == Get(o, Prompt)
            && Get(out, Triggers) == Some(Arr(triggers)) && Get(out, ContextKey) == Get(o, ContextKey)
            && Get(out, Quiet) == Get(o, Quiet) && Get(out, CreatedAt) == Get(o, CreatedAt)
            && Get(out, MaxTicks) == Get(o, MaxTicks) && Get(out, MaxRunsPerDay) == Get(o, MaxRunsPerDay)
            && (Get(out, Paused).Some? ==> Get(out, Paused) == Some(Bool(true)))
  {
    hide BuildRoutine, Get;
    RoutineFields(o, triggers);
  }

  lemma BuildRoutineAgain(o: map<Key, Json>, triggers: seq<Json>)
    ensures BuildRoutine(BuildRoutine(o, triggers), triggers) == BuildRoutine(o, triggers)
  {
    RoutineFields(o, triggers);
    var out := BuildRoutine(o, triggers);
    hide BuildRoutine, IsTrue, Get;
    forall k
      ensures RoutineMember(out, triggers, k) == RoutineMember(o, triggers, k)
    {
    }
    SameMembers(k => RoutineMember(out, triggers, k), k => RoutineMember(o, triggers, k), ROUTINE_KEYS);
    assert BuildRoutine(out, triggers) == BuildRoutine(o, triggers) by {
      BuildRoutineIs(out, triggers);
      BuildRoutineIs(o, triggers);
    }
  }

  lemma BuildRoutineIs(o: map<Key, Json>, triggers: seq<Json>)
    ensures BuildRoutine(o, triggers) == ObjectOf(k => RoutineMember(o, triggers, k), ROUTINE_KEYS)
  {
  }

  // ---------------------------------------------------------------- tick state

  predicate ValidRun(h: Host, id: Key, v: Json) {
    v.Obj? &&
    var o := v.fields;
    && IsStr(Get(o, Id))
    && IsStr(Get(o, RoutineIdKey)) && h.keyOf(o[RoutineIdKey].s) == id
    && IsFinite(Get(o, StartedAt), 0.0) && IsFinite(Get(o, EndedAt), 0.0) && IsFinite(Get(o, DurationMs), 0.0)
    && StatusKey in o && NamesOneOf(o[StatusKey], STATUSES)
    && IsInteger(Get(o, TriggerIndex))
    && TriggerKind in o && NamesOneOf(o[TriggerKind], ORIGIN_KINDS)
    && IsStr(Get(o, Snippet)) && OptionalStr(Get(o, SkipReason))
  }

  function ValidRuns(h: Host, id: Key, items: seq<Json>): seq<Json> {
    if items == [] then []
    else if ValidRun(h, id, items[0]) then [items[0]] + ValidRuns(h, id, items[1..])
    else ValidRuns(h, id, items[1..])
  }

  function Last(items: seq<Json>, n: nat): seq<Json> {
    if |items| <= n then items else items[|items| - n..]
  }

  function First(items: seq<Json>, n: nat): seq<Json> {
    if |items| <= n then items else items[..n]
  }

  function Count(v: Option<Json>): Json {
    if IsInteger(v) && IsFinite(v, 0.0) then v.value else Num(Finite(0.0))
  }

  function UserStateOf(h: Host, v: Option<Json>): Json {
    if IsObj(v) && h.size(v.value) <= MAX_USER_STATE_BYTES then v.value else Obj(map[])
  }

  function TickBase(tickCount: Json, lastFiredAt: Json, lastFiredDate: Json, userState: Json): map<Key, Json> {
    map[TickCount := tickCount, LastFiredAt := lastFiredAt, LastFiredDateLocal := lastFiredDate, UserState := userState]
  }

  lemma TickBaseFields(tickCount: Json, lastFiredAt: Json, lastFiredDate: Json, userState: Json)
    ensures var o := TickBase(tickCount, lastFiredAt, lastFiredDate, userState);
            && Get(o, TickCount) == Some(tickCount) && Get(o, LastFiredAt) == Some(lastFiredAt)
            && Get(o, LastFiredDateLocal) == Some(lastFiredDate) && Get(o, UserState) == Some(userState)
            && Get(o, RunsKey).None? && Get(o, RunsToday).None? && Get(o, RunsTodayDate).None? && Get(o, HookOnceDaily).None?
  {
  }

  function BuildTickState(tickCount: Json, lastFiredAt: Json, lastFiredDate: Json, userState: Json, runs: seq<Json>,
                          runsToday: Option<Json>, runsTodayDate: Option<Json>, markers: Option<Json>): map<Key, Json>
  {
    With(With(With(With(TickBase(tickCount, lastFiredAt, lastFiredDate, userState), RunsKey, if runs == [] then None else Some(Arr(runs))), RunsToday, runsToday), RunsTodayDate, runsTodayDate), HookOnceDaily, markers)
  }

  lemma TickStateFields(tickCount: Json, lastFiredAt: Json, lastFiredDate: Json, userState: Json, runs: seq<Json>,
                        runsToday: Option<Json>, runsTodayDate: Option<Json>, markers: Option<Json>)
    ensures var o := BuildTickState(tickCount, lastFiredAt, lastFiredDate, userState, runs, runsToday, runsTodayDate, markers);
            && Get(o, TickCount) == Some(tickCount) && Get(o, LastFiredAt) == Some(lastFiredAt)
            && Get(o, LastFiredDateLocal) == Some(lastFiredDate) && Get(o, UserState) == Some(userState)
            && Items(Get(o, RunsKey)) == runs && Get(o, RunsToday) == runsToday && Get(o, RunsTodayDate) == runsTodayDate
            && Get(o, HookOnceDaily) == markers
  {
    var b := TickBase(tickCount, lastFiredAt, lastFiredDate, userState);
    TickBaseFields(tickCount, lastFiredAt, lastFiredDate, userState);
    var list := if runs == [] then None else Some(Arr(runs));
    hide With, TickBase, Get;
    WithGets(b, RunsKey, list);
    WithGets(With(b, RunsKey, list), RunsToday, runsToday);
    WithGets(With(With(b, RunsKey, list), RunsToday, runsToday), RunsTodayDate, runsTodayDate);
    WithGets(With(With(With(b, RunsKey, list), RunsToday, runsToday), RunsTodayDate, runsTodayDate), HookOnceDaily, markers);
  }

  lemma MarkersAdded(tickCount: Json, lastFiredAt: Json, lastFiredDate: Json, userState: Json, runs: seq<Json>,
                     runsToday: Option<Json>, runsTodayDate: Option<Json>, markers: Option<Json>)
    ensures With(BuildTickState(tickCount, lastFiredAt, lastFiredDate, userState, runs, runsToday, runsTodayDate, None), HookOnceDaily, markers)
         == BuildTickState(tickCount, lastFiredAt, lastFiredDate, userState, runs, runsToday, runsTodayDate, markers)
  {
  }

  function IfCount(v: Option<Json>): Option<Json> {
    if IsInteger(v) && IsFinite(v, 0.0) then v else None
  }

  function IfText(v: Option<Json>): Option<Json> {
    if IsStr(v) then v else None
  }

  function Time(v: Option<Json>): Json {
    if IsFinite(v, 0.0) then v.value else Num(Finite(0.0))
  }

  function Text(v: Option<Json>): Json {
    if IsStr(v) then v.value else Str("")
  }

  function SanitizeTickState(h: Host, id: Key, v: Option<Json>): (r: Json)
    ensures r.Obj?
  {
    if !IsObj(v) then
      Obj(BuildTickState(Num(Finite(0.0)), Num(Finite(0.0)), Str(""), Obj(map[]), [], None, None, None))
    else
      var o := v.value.fields;
      Obj(BuildTickState(Count(Get(o, TickCount)), Time(Get(o, LastFiredAt)), Text(Get(o, LastFiredDateLocal)),
                         UserStateOf(h, Get(o, UserState)), Last(ValidRuns(h, id, Items(Get(o, RunsKey))), MAX_RUN_HISTORY),
                         IfCount(Get(o, RunsToday)), IfText(Get(o, RunsTodayDate)), TextEntries(h, Get(o, HookOnceDaily), true)))
  }

  lemma {:induction false} ValidRunsFixed(h: Host, id: Key, items: seq<Json>)
    requires forall i :: 0 <= i < |items| ==> ValidRun(h, id, items[i])
    ensures ValidRuns(h, id, items) == items
  {
    hide ValidRun;
    if items != [] {
      ValidRunsFixed(h, id, items[1..]);
    }
  }

  lemma {:induction false} ValidRunsAreValid(h: Host, id: Key, items: seq<Json>)
    ensures forall i :: 0 <= i < |ValidRuns(h, id, items)| ==> ValidRun(h, id, ValidRuns(h, id, items)[i])
  {
    hide ValidRun;
    if items != [] {
      ValidRunsAreValid(h, id, items[1..]);
    }
  }

  lemma StoredRunsStable(h: Host, id: Key, items: seq<Json>)
    ensures var kept := Last(ValidRuns(h, id, items), MAX_RUN_HISTORY); Last(ValidRuns(h, id, kept), MAX_RUN_HISTORY) == kept
  {
    hide ValidRun;
    ValidRunsAreValid(h, id, items);
    ValidRunsFixed(h, id, Last(ValidRuns(h, id, items), MAX_RUN_HISTORY));
  }

  lemma ScalarsStable(h: Host, v: Option<Json>)
    requires h.size(Obj(map[])) <= MAX_USER_STATE_BYTES
    ensures Count(Some(Count(v))) == Count(v) && Time(Some(Time(v))) == Time(v) && Text(Some(Text(v))) == Text(v)
    ensures IfCount(IfCount(v)) == IfCount(v) && IfText(IfText(v)) == IfText(v)
    ensures UserStateOf(h, Some(UserStateOf(h, v))) == UserStateOf(h, v)
  {
  }

  lemma MarkersStable(h: Host, v: Option<Json>)
    ensures TextEntries(h, TextEntries(h, v, true), true) == TextEntries(h, v, true)
  {
    if TextEntries(h, v, true).Some? {
      TextEntriesIdempotent(h, v, true);
    }
  }

  /** The same holds of a tick state to which the once-markers of an older store were added. */
  lemma TickStateStable(h: Host, id: Key, v: Option<Json>, markers: Option<Json>)
    requires h.size(Obj(map[])) <= MAX_USER_STATE_BYTES
    requires markers.Some? ==> HookOnceDaily !in SanitizeTickState(h, id, v).fields && TextEntries(h, markers, true) == markers
    ensures var out := Obj(With(SanitizeTickState(h, id, v).fields, HookOnceDaily, markers));
            SanitizeTickState(h, id, Some(out)) == out
  {
    var o := FieldsOf(v);
    var count, time, text, user := Count(Get(o, TickCount)), Time(Get(o, LastFiredAt)), Text(Get(o, LastFiredDateLocal)), UserStateOf(h, Get(o, UserState));
    var runs := Last(ValidRuns(h, id, Items(Get(o, RunsKey))), MAX_RUN_HISTORY);
    var today, date, own := IfCount(Get(o, RunsToday)), IfText(Get(o, RunsTodayDate)), TextEntries(h, Get(o, HookOnceDaily), true);
    var all := if markers.Some? then markers else own;
    AbsentTickState(h, id);
    assert SanitizeTickState(h, id, v) == Obj(BuildTickState(count, time, text, user, runs, today, date, own));
    hide ValidRuns, TextEntries, Count, Time, Text, UserStateOf, IfCount, IfText;
    TickStateFields(count, time, text, user, runs, today, date, own);
    TickStateFields(count, time, text, user, runs, today, date, all);
    if markers.Some? {
      MarkersAdded(count, time, text, user, runs, today, date, markers);
    }
    ScalarsStable(h, Get(o, TickCount));
    ScalarsStable(h, Get(o, LastFiredAt));
    ScalarsStable(h, Get(o, LastFiredDateLocal));
    ScalarsStable(h, Get(o, UserState));
    ScalarsStable(h, Get(o, RunsToday));
    ScalarsStable(h, Get(o, RunsTodayDate));
    StoredRunsStable(h, id, Items(Get(o, RunsKey)));
    MarkersStable(h, Get(o, HookOnceDaily));
    hide BuildTickState;
  }

  lemma AbsentTickState(h: Host, id: Key)
    ensures SanitizeTickState(h, id, None) == SanitizeTickState(h, id, Some(Obj(map[])))
    ensures ValidRuns(h, id, []) == [] && TextEntries(h, None, true).None?
  {
  }

  // ---------------------------------------------------------------- deferred hooks and queued fires

  predicate IsShutdownTrigger(routine: Json, index: int) {
    && routine.Obj?
    && 0 <= index < |Items(Get(routine.fields, Triggers))|
    && var t := Items(Get(routine.fields, Triggers))[index];
       t.Obj? && Get(t.fields, KindKey) == Some(Str("hook")) && Get(t.fields, EventKey) == Some(Str("session_shutdown"))
  }

  predicate ValidDeferredHook(h: Host, v: Json, routines: map<Key, Json>) {
    v.Obj? &&
    var o := v.fields;
    && IsStr(Get(o, RoutineIdKey)) && h.keyOf(o[RoutineIdKey].s) in routines
    && IsStr(Get(o, Id))
    && IsInteger(Get(o, TriggerIndex)) && IsFinite(Get(o, TriggerIndex), 0.0)
    && IsShutdownTrigger(routines[h.keyOf(o[RoutineIdKey].s)], o[TriggerIndex].n.value.Floor)
    && IsStr(Get(o, EndedSessionId)) && IsFinite(Get(o, DeferredAt), 0.0) && IsStr(Get(o, EndedSessionCwd))
    && IsStr(Get(o, EndedDateLocal)) && IsStr(Get(o, EndedTimeLocal)) && IsStr(Get(o, Transcript))
  }

  function HookBase(id: Json, routine: Json, index: Json, session: Json, at: Json, cwd: Json, date: Json, time: Json,
                    text: string): map<Key, Json>
  {
    map[Id := id, RoutineIdKey := routine, TriggerIndex := index, EndedSessionId := session, DeferredAt := at,
        EndedSessionCwd := cwd, EndedDateLocal := date, EndedTimeLocal := time, Transcript := Str(text)]
  }

  lemma HookBaseFields(id: Json, routine: Json, index: Json, session: Json, at: Json, cwd: Json, date: Json, time: Json,
                       text: string)
    ensures var o := HookBase(id, routine, index, session, at, cwd, date, time, text);
            && Get(o, Id) == Some(id) && Get(o, RoutineIdKey) == Some(routine) && Get(o, TriggerIndex) == Some(index)
            && Get(o, EndedSessionId) == Some(session) && Get(o, DeferredAt) == Some(at) && Get(o, EndedSessionCwd) == Some(cwd)
            && Get(o, EndedDateLocal) == Some(date) && Get(o, EndedTimeLocal) == Some(time) && Get(o, Transcript) == Some(Str(text))
            && Get(o, TranscriptTruncated).None?
  {
  }

  function BuildHook(id: Json, routine: Json, index: Json, session: Json, at: Json, cwd: Json, date: Json, time: Json,
                     text: string, truncated: bool): map<Key, Json>
  {
    With(HookBase(id, routine, index, session, at, cwd, date, time, text), TranscriptTruncated, if truncated then Some(Bool(true)) else None)
  }

  lemma HookFields(id: Json, routine: Json, index: Json, session: Json, at: Json, cwd: Json, date: Json, time: Json,
                   text: string, truncated: bool)
    ensures var o := BuildHook(id, routine, index, session, at, cwd, date, time, text, truncated);
            && Get(o, Id) == Some(id) && Get(o, RoutineIdKey) == Some(routine) && Get(o, TriggerIndex) == Some(index)
            && Get(o, EndedSessionId) == Some(session) && Get(o, DeferredAt) == Some(at) && Get(o, EndedSessionCwd) == Some(cwd)
            && Get(o, EndedDateLocal) == Some(date) && Get(o, EndedTimeLocal) == Some(time) && Get(o, Transcript) == Some(Str(text))
            && IsTrue(Get(o, TranscriptTruncated)) == truncated
  {
    hide With, HookBase;
    HookBaseFields(id, routine, index, session, at, cwd, date, time, text);
    WithGets(HookBase(id, routine, index, session, at, cwd, date, time, text), TranscriptTruncated,
             if truncated then Some(Bool(true)) else None);
  }

  function SanitizeDeferredHook(h: Host, v: Json, routines: map<Key, Json>): Json
    requires ValidDeferredHook(h, v, routines)
  {
    var o := v.fields;
    var (text, truncated) := TrimEnd(o[Transcript].s, MAX_DEFERRED_TRANSCRIPT_BYTES);
    Obj(BuildHook(o[Id], o[RoutineIdKey], o[TriggerIndex], o[EndedSessionId], o[DeferredAt], o[EndedSessionCwd],
                  o[EndedDateLocal], o[EndedTimeLocal], text, truncated || IsTrue(Get(o, TranscriptTruncated))))
  }

  function TranscriptOf(v: Json): string {
    if v.Obj? && IsStr(Get(v.fields, Transcript)) then v.fields[Transcript].s else ""
  }

  function DeferredTime(v: Json): real {
    if v.Obj? && IsFinite(Get(v.fields, DeferredAt), 0.0) then v.fields[DeferredAt].n.value else 0.0
  }

  lemma DeferredHookKept(h: Host, v: Json, routines: map<Key, Json>)
    requires ValidDeferredHook(h, v, routines)
    ensures ValidDeferredHook(h, SanitizeDeferredHook(h, v, routines), routines)
    ensures DeferredTime(SanitizeDeferredHook(h, v, routines)) == DeferredTime(v)
  {
    hide TrimEnd, IsShutdownTrigger, BuildHook;
    var o := v.fields;
    var (text, cut) := TrimEnd(o[Transcript].s, MAX_DEFERRED_TRANSCRIPT_BYTES);
    HookFields(o[Id], o[RoutineIdKey], o[TriggerIndex], o[EndedSessionId], o[DeferredAt], o[EndedSessionCwd],
               o[EndedDateLocal], o[EndedTimeLocal], text, cut || IsTrue(Get(o, TranscriptTruncated)));
  }

  lemma TruncationFlagStays(text: string, max: nat)
    ensures !TrimEnd(text, max).1 ==> TrimEnd(TrimEnd(text, max).0, max) == TrimEnd(text, max)
  {
  }

  /** Sanitising a deferred hook again changes nothing exactly when its transcript is not cut three bytes
      before the end of a four-byte character. */
  lemma DeferredHookStableIff(h: Host, v: Json, routines: map<Key, Json>)
    requires ValidDeferredHook(h, v, routines)
    ensures ValidDeferredHook(h, SanitizeDeferredHook(h, v, routines), routines)
    ensures SanitizeDeferredHook(h, SanitizeDeferredHook(h, v, routines), routines) == SanitizeDeferredHook(h, v, routines)
            <==> Orphans(TranscriptOf(v), MAX_DEFERRED_TRANSCRIPT_BYTES) != 3
  {
    DeferredHookKept(h, v, routines);
    TrimIdempotentIff(TranscriptOf(v), MAX_DEFERRED_TRANSCRIPT_BYTES);
    TruncationFlagStays(TranscriptOf(v), MAX_DEFERRED_TRANSCRIPT_BYTES);
    hide TrimEnd, Orphans, IsShutdownTrigger, BuildHook;
    var o := v.fields;
    var (text, cut) := TrimEnd(TranscriptOf(v), MAX_DEFERRED_TRANSCRIPT_BYTES);
    var (text2, cut2) := TrimEnd(text, MAX_DEFERRED_TRANSCRIPT_BYTES);
    var flag := cut || IsTrue(Get(o, TranscriptTruncated));
    HookFields(o[Id], o[RoutineIdKey], o[TriggerIndex], o[EndedSessionId], o[DeferredAt], o[EndedSessionCwd],
               o[EndedDateLocal], o[EndedTimeLocal], text, flag);
    HookFields(o[Id], o[RoutineIdKey], o[TriggerIndex], o[EndedSessionId], o[DeferredAt], o[EndedSessionCwd],
               o[EndedDateLocal], o[EndedTimeLocal], text2, flag);
    assert cut2 ==> cut;
  }

  predicate ValidOrigin(v: Option<Json>) {
    && IsObj(v)
    && IsInteger(Get(v.value.fields, Index)) && IsFinite(Get(v.value.fields, Index), -1.0)
    && KindKey in v.value.fields && NamesOneOf(v.value.fields[KindKey], ORIGIN_KINDS)
  }

  predicate ValidQueueEntry(h: Host, v: Json, routines: map<Key, Json>) {
    v.Obj? &&
    var o := v.fields;
    && IsStr(Get(o, RoutineIdKey)) && h.keyOf(o[RoutineIdKey].s) in routines
    && IsStr(Get(o, RunIdKey)) && DeferredHookId !in o
    && ValidOrigin(Get(o, Origin))
    && (QueuedAt in o ==> IsFinite(Get(o, QueuedAt), 0.0))
    && (ApiArgs in o ==> o[ApiArgs].Obj?) && (GithubEvent in o ==> o[GithubEvent].Obj?)
    && OptionalStr(Get(o, ContextNote)) && OptionalStr(Get(o, HookOnceKey))
    && (HookOnceMode in o ==> NamesOneOf(o[HookOnceMode], ONCE_MODES))
  }

  // ---------------------------------------------------------------- the whole store

  function ValidHooks(h: Host, items: seq<Json>, routines: map<Key, Json>): seq<Json> {
    if items == [] then []
    else if ValidDeferredHook(h, items[0], routines) then [items[0]] + ValidHooks(h, items[1..], routines)
    else ValidHooks(h, items[1..], routines)
  }

  function ValidEntries(h: Host, items: seq<Json>, routines: map<Key, Json>): seq<Json> {
    if items == [] then []
    else if ValidQueueEntry(h, items[0], routines) then [items[0]] + ValidEntries(h, items[1..], routines)
    else ValidEntries(h, items[1..], routines)
  }

  function SanitizeHooks(h: Host, items: seq<Json>, routines: map<Key, Json>): seq<Json> {
    if items == [] then []
    else if ValidDeferredHook(h, items[0], routines) then [SanitizeDeferredHook(h, items[0], routines)] + SanitizeHooks(h, items[1..], routines)
    else SanitizeHooks(h, items[1..], routines)
  }

  /** Stable insertion: after every hook that is not younger. */
  function InsertByTime(v: Json, sorted: seq<Json>): seq<Json> {
    if sorted == [] || DeferredTime(v) < DeferredTime(sorted[0]) then [v] + sorted
    else [sorted[0]] + InsertByTime(v, sorted[1..])
  }

  function SortByTime(items: seq<Json>): seq<Json> {
    if items == [] then [] else InsertByTime(items[|items| - 1], SortByTime(items[..|items| - 1]))
  }

  function DeferredHooksOf(h: Host, raw: Option<Json>, routines: map<Key, Json>): seq<Json> {
    Last(SortByTime(SanitizeHooks(h, Items(raw), routines)), MAX_DEFERRED_HOOKS)
  }

  function PendingQueueOf(h: Host, raw: Option<Json>, routines: map<Key, Json>): seq<Json> {
    First(ValidEntries(h, Items(raw), routines), MAX_QUEUE_DEPTH)
  }

  function FieldsOf(v: Option<Json>): map<Key, Json> {
    if IsObj(v) then v.value.fields else map[]
  }

  function RoutinesOf(h: Host, raw: Option<Json>): map<Key, Json> {
    var from := FieldsOf(raw);
    map id | id in from && SanitizeRoutine(h, id, from[id]).Some? :: SanitizeRoutine(h, id, from[id]).value
  }

  /** The once-marker an older store kept as the date of the last fire. */
  function LegacyMarkers(h: Host, id: Key, routine: Json, tick: map<Key, Json>): Option<Json> {
    if !routine.Obj? || |Items(Get(routine.fields, Triggers))| != 1 then None
    else
      var t := Items(Get(routine.fields, Triggers))[0];
      if t.Obj? && Get(t.fields, KindKey) == Some(Str("hook")) && Get(t.fields, OnceKey) == Some(Str("daily")) && EventKey in t.fields
         && IsStr(Get(tick, LastFiredDateLocal)) && tick[LastFiredDateLocal].s != "" && HookOnceDaily !in tick then
        Some(Obj(map[h.hookKey(id, t.fields[EventKey]) := tick[LastFiredDateLocal]]))
      else None
  }

  function TickStateOf(h: Host, id: Key, routine: Json, raw: Option<Json>, migrate: bool): Json {
    var tick := SanitizeTickState(h, id, raw).fields;
    Obj(With(tick, HookOnceDaily, if migrate then LegacyMarkers(h, id, routine, tick) else None))
  }

  function TickStatesOf(h: Host, routines: map<Key, Json>, raw: Option<Json>, migrate: bool): map<Key, Json> {
    map id | id in routines :: TickStateOf(h, id, routines[id], Get(FieldsOf(raw), id), migrate)
  }

  function Store(routines: map<Key, Json>, ticks: map<Key, Json>, hooks: seq<Json>, queue: seq<Json>): Json {
    Obj(map[SchemaVersion := Num(Finite(SCHEMA_VERSION as real)), RoutinesKey := Obj(routines), TickStateKey := Obj(ticks),
            DeferredHooksKey := Arr(hooks), PendingQueueKey := Arr(queue)])
  }

  function SanitizeStore(h: Host, raw: Json, migrate: bool): Json {
    if !raw.Obj? then Store(map[], map[], [], [])
    else
      var o := raw.fields;
      var routines := RoutinesOf(h, Get(o, RoutinesKey));
      Store(routines, TickStatesOf(h, routines, Get(o, TickStateKey), migrate),
            DeferredHooksOf(h, Get(o, DeferredHooksKey), routines), PendingQueueOf(h, Get(o, PendingQueueKey), routines))
  }

  // ---------------------------------------------------------------- loading what was loaded

  lemma RoutinesStable(h: Host, raw: Option<Json>)
    ensures RoutinesOf(h, Some(Obj(RoutinesOf(h, raw)))) == RoutinesOf(h, raw)
  {
    hide SanitizeRoutine;
    var from, out := FieldsOf(raw), RoutinesOf(h, raw);
    forall id | id in out
      ensures SanitizeRoutine(h, id, out[id]) == Some(out[id])
    {
      RoutineStable(h, id, from[id]);
    }
  }

  lemma LegacyMarkersAreText(h: Host, id: Key, routine: Json, tick: map<Key, Json>)
    ensures var m := LegacyMarkers(h, id, routine, tick);
            m.Some? ==> HookOnceDaily !in tick && TextEntries(h, m, true) == m
  {
    var m := LegacyMarkers(h, id, routine, tick);
    if m.Some? {
      var kept := m.value.fields;
      assert kept == map k | k in kept && kept[k].Str? && (true || k != h.keyOf("")) :: kept[k];
      assert kept.Keys != {} by {
        var t := Items(Get(routine.fields, Triggers))[0];
        assert h.hookKey(id, t.fields[EventKey]) in kept;
      }
    }
  }

  lemma TickStatesStable(h: Host, routines: map<Key, Json>, raw: Option<Json>, migrate: bool)
    requires h.size(Obj(map[])) <= MAX_USER_STATE_BYTES
    ensures TickStatesOf(h, routines, Some(Obj(TickStatesOf(h, routines, raw, migrate))), false) == TickStatesOf(h, routines, raw, migrate)
  {
    hide SanitizeTickState, LegacyMarkers;
    var ticks := TickStatesOf(h, routines, raw, migrate);
    forall id | id in routines
      ensures TickStateOf(h, id, routines[id], Some(ticks[id]), false) == ticks[id]
    {
      var v := Get(FieldsOf(raw), id);
      var tick := SanitizeTickState(h, id, v).fields;
      LegacyMarkersAreText(h, id, routines[id], tick);
      TickStateStable(h, id, v, if migrate then LegacyMarkers(h, id, routines[id], tick) else None);
    }
  }

  lemma {:induction false} ValidEntriesFixed(h: Host, items: seq<Json>, routines: map<Key, Json>)
    requires forall i :: 0 <= i < |items| ==> ValidQueueEntry(h, items[i], routines)
    ensures ValidEntries(h, items, routines) == items
  {
    hide ValidQueueEntry;
    if items != [] {
      ValidEntriesFixed(h, items[1..], routines);
    }
  }

  lemma {:induction false} ValidEntriesAreValid(h: Host, items: seq<Json>, routines: map<Key, Json>)
    ensures forall i :: 0 <= i < |ValidEntries(h, items, routines)| ==> ValidQueueEntry(h, ValidEntries(h, items, routines)[i], routines)
  {
    hide ValidQueueEntry;
    if items != [] {
      ValidEntriesAreValid(h, items[1..], routines);
    }
  }

  lemma PendingQueueStable(h: Host, raw: Option<Json>, routines: map<Key, Json>)
    ensures var kept := PendingQueueOf(h, raw, routines); PendingQueueOf(h, Some(Arr(kept)), routines) == kept
  {
    hide ValidQueueEntry;
    ValidEntriesAreValid(h, Items(raw), routines);
    ValidEntriesFixed(h, PendingQueueOf(h, raw, routines), routines);
  }

  // Deferred hooks are sorted by time; sanitising does not touch the time, so it may as well come last.

  ghost predicate Sorted(items: seq<Json>) {
    forall i, j :: 0 <= i < j < |items| ==> DeferredTime(items[i]) <= DeferredTime(items[j])
  }

  /** Sanitise each of a list of valid hooks. */
  function Clean(h: Host, items: seq<Json>, routines: map<Key, Json>): (r: seq<Json>)
    requires forall i :: 0 <= i < |items| ==> ValidDeferredHook(h, items[i], routines)
    ensures |r| == |items|
    ensures forall i :: 0 <= i < |items| ==> r[i] == SanitizeDeferredHook(h, items[i], routines)
  {
    seq(|items|, i requires 0 <= i < |items| => SanitizeDeferredHook(h, items[i], routines))
  }

  lemma {:induction false} InsertFacts(v: Json, sorted: seq<Json>)
    ensures |InsertByTime(v, sorted)| == |sorted| + 1
    ensures forall x :: x in InsertByTime(v, sorted) <==> x == v || x in sorted
    ensures Sorted(sorted) ==> Sorted(InsertByTime(v, sorted))
  {
    if !(sorted == [] || DeferredTime(v) < DeferredTime(sorted[0])) {
      InsertFacts(v, sorted[1..]);
      var r := InsertByTime(v, sorted[1..]);
      assert forall i :: 0 <= i < |r| ==> r[i] in r;
    }
  }

  lemma {:induction false} SortFacts(items: seq<Json>)
    ensures |SortByTime(items)| == |items| && Sorted(SortByTime(items))
    ensures forall x :: x in SortByTime(items) <==> x in items
  {
    if items != [] {
      var n := |items| - 1;
      SortFacts(items[..n]);
      InsertFacts(items[n], SortByTime(items[..n]));
      assert items == items[..n] + [items[n]];
    }
  }

  lemma {:induction false} InsertLast(v: Json, sorted: seq<Json>)
    requires forall i :: 0 <= i < |sorted| ==> DeferredTime(sorted[i]) <= DeferredTime(v)
    ensures InsertByTime(v, sorted) == sorted + [v]
  {
    if sorted != [] {
      InsertLast(v, sorted[1..]);
    }
  }

  lemma {:induction false} SortFixed(items: seq<Json>)
    requires Sorted(items)
    ensures SortByTime(items) == items
  {
    if items != [] {
      var n := |items| - 1;
      SortFixed(items[..n]);
      InsertLast(items[n], items[..n]);
    }
  }

  ghost predicate AllValid(h: Host, items: seq<Json>, routines: map<Key, Json>) {
    forall i :: 0 <= i < |items| ==> ValidDeferredHook(h, items[i], routines)
  }

  lemma InsertKeepsValid(h: Host, v: Json, sorted: seq<Json>, routines: map<Key, Json>)
    requires ValidDeferredHook(h, v, routines) && AllValid(h, sorted, routines)
    ensures AllValid(h, InsertByTime(v, sorted), routines)
  {
    hide ValidDeferredHook, InsertByTime;
    InsertFacts(v, sorted);
    var r := InsertByTime(v, sorted);
    assert forall i :: 0 <= i < |r| ==> r[i] in r;
  }

  lemma {:induction false} InsertCleaned(h: Host, v: Json, sorted: seq<Json>, routines: map<Key, Json>)
    requires ValidDeferredHook(h, v, routines) && AllValid(h, sorted, routines)
    ensures AllValid(h, InsertByTime(v, sorted), routines)
    ensures InsertByTime(SanitizeDeferredHook(h, v, routines), Clean(h, sorted, routines)) == Clean(h, InsertByTime(v, sorted), routines)
  {
    hide ValidDeferredHook, SanitizeDeferredHook, DeferredTime;
    DeferredHookKept(h, v, routines);
    InsertKeepsValid(h, v, sorted, routines);
    if sorted != [] {
      DeferredHookKept(h, sorted[0], routines);
      if !(DeferredTime(v) < DeferredTime(sorted[0])) {
        InsertCleaned(h, v, sorted[1..], routines);
        assert Clean(h, sorted, routines)[1..] == Clean(h, sorted[1..], routines);
      }
    }
  }

  lemma {:induction false} SortCleaned(h: Host, items: seq<Json>, routines: map<Key, Json>)
    requires AllValid(h, items, routines)
    ensures AllValid(h, SortByTime(items), routines)
    ensures SortByTime(Clean(h, items, routines)) == Clean(h, SortByTime(items), routines)
  {
    hide ValidDeferredHook, SanitizeDeferredHook;
    if items != [] {
      var n := |items| - 1;
      SortCleaned(h, items[..n], routines);
      InsertCleaned(h, items[n], SortByTime(items[..n]), routines);
      assert Clean(h, items, routines)[..n] == Clean(h, items[..n], routines);
    }
  }

  lemma {:induction false} SanitizeHooksIsClean(h: Host, items: seq<Json>, routines: map<Key, Json>)
    ensures AllValid(h, ValidHooks(h, items, routines), routines)
    ensures SanitizeHooks(h, items, routines) == Clean(h, ValidHooks(h, items, routines), routines)
  {
    hide ValidDeferredHook, SanitizeDeferredHook;
    if items != [] {
      SanitizeHooksIsClean(h, items[1..], routines);
    }
  }

  /** The stored hooks that a load keeps: the valid ones, oldest first, the last five. */
  function Keepers(h: Host, raw: Option<Json>, routines: map<Key, Json>): seq<Json> {
    Last(SortByTime(ValidHooks(h, Items(raw), routines)), MAX_DEFERRED_HOOKS)
  }

  lemma HooksAreCleanKeepers(h: Host, raw: Option<Json>, routines: map<Key, Json>)
    ensures AllValid(h, Keepers(h, raw, routines), routines) && Sorted(Keepers(h, raw, routines))
    ensures DeferredHooksOf(h, raw, routines) == Clean(h, Keepers(h, raw, routines), routines)
  {
    hide ValidDeferredHook, SanitizeDeferredHook;
    SanitizeHooksIsClean(h, Items(raw), routines);
    SortCleaned(h, ValidHooks(h, Items(raw), routines), routines);
    SortFacts(ValidHooks(h, Items(raw), routines));
  }

  lemma {:induction false} ValidHooksFixed(h: Host, items: seq<Json>, routines: map<Key, Json>)
    requires AllValid(h, items, routines)
    ensures ValidHooks(h, items, routines) == items
  {
    hide ValidDeferredHook;
    if items != [] {
      ValidHooksFixed(h, items[1..], routines);
    }
  }

  /** No kept transcript is cut three bytes before the end of a four-byte character. */
  ghost predicate TranscriptsCutWell(items: seq<Json>) {
    forall i :: 0 <= i < |items| ==> Orphans(TranscriptOf(items[i]), MAX_DEFERRED_TRANSCRIPT_BYTES) != 3
  }

  lemma CleanIsKept(h: Host, kept: seq<Json>, routines: map<Key, Json>)
    requires AllValid(h, kept, routines) && Sorted(kept)
    ensures AllValid(h, Clean(h, kept, routines), routines) && Sorted(Clean(h, kept, routines))
  {
    hide ValidDeferredHook, SanitizeDeferredHook, DeferredTime;
    forall i | 0 <= i < |kept|
      ensures ValidDeferredHook(h, Clean(h, kept, routines)[i], routines)
      ensures DeferredTime(Clean(h, kept, routines)[i]) == DeferredTime(kept[i])
    {
      DeferredHookKept(h, kept[i], routines);
    }
  }

  lemma CleanTwiceIff(h: Host, kept: seq<Json>, routines: map<Key, Json>)
    requires AllValid(h, kept, routines) && AllValid(h, Clean(h, kept, routines), routines)
    ensures Clean(h, Clean(h, kept, routines), routines) == Clean(h, kept, routines) <==> TranscriptsCutWell(kept)
  {
    hide ValidDeferredHook, SanitizeDeferredHook, TranscriptOf, Orphans;
    var once := Clean(h, kept, routines);
    var twice := Clean(h, once, routines);
    forall i | 0 <= i < |kept|
      ensures twice[i] == once[i] <==> Orphans(TranscriptOf(kept[i]), MAX_DEFERRED_TRANSCRIPT_BYTES) != 3
    {
      DeferredHookStableIff(h, kept[i], routines);
    }
    if TranscriptsCutWell(kept) {
      assert twice == once;
    }
  }

  lemma HooksStableIff(h: Host, raw: Option<Json>, routines: map<Key, Json>)
    ensures var once := DeferredHooksOf(h, raw, routines);
            DeferredHooksOf(h, Some(Arr(once)), routines) == once <==> TranscriptsCutWell(Keepers(h, raw, routines))
  {
    hide ValidDeferredHook, SanitizeDeferredHook, TranscriptsCutWell, DeferredTime;
    var kept := Keepers(h, raw, routines);
    HooksAreCleanKeepers(h, raw, routines);
    var once := DeferredHooksOf(h, raw, routines);
    CleanIsKept(h, kept, routines);
    ValidHooksFixed(h, once, routines);
    SortFixed(once);
    HooksAreCleanKeepers(h, Some(Arr(once)), routines);
    assert Keepers(h, Some(Arr(once)), routines) == once;
    CleanTwiceIff(h, kept, routines);
  }

  /** Loading a loaded store changes nothing, exactly when the transcripts it keeps are cut well. */
  lemma StoreStableIff(h: Host, raw: Json, migrate: bool)
    requires h.size(Obj(map[])) <= MAX_USER_STATE_BYTES
    ensures var once := SanitizeStore(h, raw, migrate);
            var routines := if raw.Obj? then RoutinesOf(h, Get(raw.fields, RoutinesKey)) else map[];
            var hooks := if raw.Obj? then Get(raw.fields, DeferredHooksKey) else None;
            SanitizeStore(h, once, false) == once <==> TranscriptsCutWell(Keepers(h, hooks, routines))
  {
    hide RoutinesOf, TickStatesOf, DeferredHooksOf, PendingQueueOf, Keepers, TranscriptsCutWell;
    var o := if raw.Obj? then raw.fields else map[];
    var routines := if raw.Obj? then RoutinesOf(h, Get(o, RoutinesKey)) else map[];
    var hooks := Get(o, DeferredHooksKey);
    EmptyStoreParts(h, migrate);
    RoutinesStable(h, Get(o, RoutinesKey));
    TickStatesStable(h, routines, Get(o, TickStateKey), migrate);
    HooksStableIff(h, hooks, routines);
    PendingQueueStable(h, Get(o, PendingQueueKey), routines);
    var once := SanitizeStore(h, raw, migrate);
    var twice := SanitizeStore(h, once, false);
    assert Get(once.fields, RoutinesKey) == Some(Obj(routines));
    assert twice == Store(routines, TickStatesOf(h, routines, Get(once.fields, TickStateKey), false),
                          DeferredHooksOf(h, Get(once.fields, DeferredHooksKey), routines),
                          PendingQueueOf(h, Get(once.fields, PendingQueueKey), routines));
    assert Get(twice.fields, DeferredHooksKey) == Some(Arr(DeferredHooksOf(h, Get(once.fields, DeferredHooksKey), routines)));
  }

  lemma EmptyStoreParts(h: Host, migrate: bool)
    ensures RoutinesOf(h, None) == map[] && TickStatesOf(h, map[], None, migrate) == map[]
    ensures DeferredHooksOf(h, None, map[]) == [] && PendingQueueOf(h, None, map[]) == []
    ensures TranscriptsCutWell(Keepers(h, None, map[]))
  {
  }
}
