// What the extension writes into its store file, and that a load gives it back member for member.
module StoreWritten {
  import opened Common
  import opened Json
  import opened TranscriptTrim
  import opened StoreSanitizer

  // ---------------------------------------------------------------- triggers

  datatype Filter = Filter(labels: seq<string>, branches: seq<string>, mergedOnly: bool)

  /** A trigger with all its members; a cursor of a branch stands under the key of its name. */
  datatype Trigger =
    | PulseTrigger(intervalMs: real, human: string)
    | CronTrigger(expr: string, zone: Option<string>)
    | OneOffTrigger(at: string, zone: Option<string>, fired: bool)
    | HookTrigger(event: string, once: Option<string>)
    | ApiTrigger(allowArgs: bool)
    | GithubTrigger(repo: string, event: string, pollMs: real, filter: Option<Filter>, cursor: Option<string>, branchCursors: map<Key, string>)

  function TextOf(v: Option<string>): Option<Json> {
    if v.Some? then Some(Str(v.value)) else None
  }

  /** A flag that is only written when it is set. */
  function FlagOf(b: bool): Option<Json> {
    if b then Some(Bool(true)) else None
  }

  function NamesOf(names: seq<string>): (r: seq<Json>)
    ensures |r| == |names| && forall i :: 0 <= i < |r| ==> r[i] == Str(names[i])
  {
    seq(|names|, i requires 0 <= i < |names| => Str(names[i]))
  }

  /** A list that is only written when it is not empty. */
  function ListOf(names: seq<string>): Option<Json> {
    if names == [] then None else Some(Arr(NamesOf(names)))
  }

  function WrittenFilter(f: Filter): Json {
    Obj(Put(Labels, ListOf(f.labels)) + Put(Branches, ListOf(f.branches)) + Put(MergedOnly, FlagOf(f.mergedOnly)))
  }

  function CursorsOf(cursors: map<Key, string>): Option<Json> {
    if cursors == map[] then None else Some(Obj(map k | k in cursors :: Str(cursors[k])))
  }

  function Written(t: Trigger): (v: Json)
    ensures v.Obj?
  {
    match t
    case PulseTrigger(ms, human) => Obj(map[KindKey := Str("pulse"), IntervalMs := Num(Finite(ms)), IntervalHuman := Str(human)])
    case CronTrigger(expr, zone) => Obj(map[KindKey := Str("cron"), Expr := Str(expr)] + Put(Timezone, TextOf(zone)))
    case OneOffTrigger(at, zone, fired) =>
      Obj(map[KindKey := Str("oneoff"), FireAtIso := Str(at)] + Put(Timezone, TextOf(zone)) + Put(FiredKey, FlagOf(fired)))
    case HookTrigger(event, once) => Obj(map[KindKey := Str("hook"), EventKey := Str(event)] + Put(OnceKey, TextOf(once)))
    case ApiTrigger(allowArgs) => Obj(map[KindKey := Str("api")] + Put(AllowArgs, FlagOf(allowArgs)))
    case GithubTrigger(repo, event, pollMs, filter, cursor, cursors) =>
      Obj(map[KindKey := Str("github"), Repo := Str(repo), EventKey := Str(event), PollIntervalMs := Num(Finite(pollMs))]
          + Put(FilterKey, if filter.Some? then Some(WrittenFilter(filter.value)) else None)
          + Put(CursorKey, TextOf(cursor)) + Put(BranchCursors, CursorsOf(cursors)))
  }

  predicate NoEmpty(names: seq<string>) {
    forall i :: 0 <= i < |names| ==> names[i] != ""
  }

  predicate IsZone(h: Host, zone: Option<string>) {
    zone.Some? ==> zone.value != "" && h.isTimezone(zone.value)
  }

  /** What the extension lets in: known names, positive intervals, time zones of the host, branches on pushes only. */
  predicate IsSound(h: Host, t: Trigger) {
    match t
    case PulseTrigger(ms, _) => ms >= 1.0
    case CronTrigger(_, zone) => IsZone(h, zone)
    case OneOffTrigger(_, zone, _) => IsZone(h, zone)
    case HookTrigger(event, once) =>
      && (event == "session_start" || event == "agent_end" || event == "session_shutdown")
      && (once.Some? ==> once.value == "daily" || once.value == "per_session")
    case ApiTrigger(_) => true
    case GithubTrigger(repo, event, pollMs, filter, _, cursors) =>
      && h.isRepo(repo) && pollMs >= 1.0
      && (event == "pull_request.opened" || event == "pull_request.closed" || event == "issues.opened" || event == "push")
      && (filter.Some? ==> NoEmpty(filter.value.labels) && NoEmpty(filter.value.branches) && (filter.value.branches != [] ==> event == "push"))
      && h.keyOf("") !in cursors
  }

  lemma {:induction false} NamesAreKept(items: seq<Json>)
    requires forall i :: 0 <= i < |items| ==> items[i].Str? && items[i].s != ""
    ensures Texts(items) == items
  {
    if items != [] {
      NamesAreKept(items[1..]);
    }
  }

  lemma FilterIsKept(f: Filter)
    requires NoEmpty(f.labels) && NoEmpty(f.branches)
    ensures SanitizeFilter(Some(WrittenFilter(f))) == Some(WrittenFilter(f))
    ensures Branches in WrittenFilter(f).fields <==> f.branches != []
  {
    var o := WrittenFilter(f).fields;
    NamesAreKept(NamesOf(f.labels));
    NamesAreKept(NamesOf(f.branches));
    assert Get(o, Labels) == ListOf(f.labels) && Get(o, Branches) == ListOf(f.branches) && Get(o, MergedOnly) == FlagOf(f.mergedOnly);
    assert Texts(Items(Get(o, Labels))) == NamesOf(f.labels) && Texts(Items(Get(o, Branches))) == NamesOf(f.branches);
  }

  lemma CursorsAreKept(h: Host, cursors: map<Key, string>)
    requires h.keyOf("") !in cursors
    ensures TextEntries(h, CursorsOf(cursors), false) == CursorsOf(cursors)
  {
    if cursors != map[] {
      var o := CursorsOf(cursors).value.fields;
      var kept := map k | k in o && o[k].Str? && (false || k != h.keyOf("")) :: o[k];
      assert kept == o;
      var k :| k in cursors;
      assert k in o;
    }
  }

  lemma GithubGets(t: Trigger)
    requires t.GithubTrigger?
    ensures var o := Written(t).fields;
            && Get(o, KindKey) == Some(Str("github"))
            && Get(o, Repo) == Some(Str(t.repo)) && Get(o, EventKey) == Some(Str(t.event)) && Get(o, PollIntervalMs) == Some(Num(Finite(t.pollMs)))
            && Get(o, FilterKey) == (if t.filter.Some? then Some(WrittenFilter(t.filter.value)) else None)
            && Get(o, CursorKey) == TextOf(t.cursor) && Get(o, BranchCursors) == CursorsOf(t.branchCursors)
  {
    hide WrittenFilter, CursorsOf;
  }

  lemma GithubIsKept(h: Host, t: Trigger)
    requires t.GithubTrigger? && IsSound(h, t)
    ensures SanitizeGithub(h, Written(t).fields) == Some(Written(t))
  {
    var o := Written(t).fields;
    if t.filter.Some? {
      FilterIsKept(t.filter.value);
    }
    CursorsAreKept(h, t.branchCursors);
    NothingFromNothing(h);
    GithubGets(t);
    hide SanitizeFilter, TextEntries, WrittenFilter, CursorsOf, Put, NoEmpty;
    assert IsStr(Get(o, Repo)) && o[Repo] == Str(t.repo) && o[EventKey] == Str(t.event) && o[PollIntervalMs] == Num(Finite(t.pollMs));
    assert NamesOneOf(o[EventKey], GITHUB_EVENTS);
    var filter := SanitizeFilter(Get(o, FilterKey));
    assert filter == Get(o, FilterKey);
    assert !(filter.Some? && Branches in filter.value.fields && o[EventKey] != Str("push"));
    CursorPut(t.cursor);
  }

  lemma CursorPut(cursor: Option<string>)
    ensures (if IsStr(TextOf(cursor)) then Put(CursorKey, TextOf(cursor)) else map[]) == Put(CursorKey, TextOf(cursor))
  {
  }

  lemma TimesAreKept(h: Host, t: Trigger)
    requires IsSound(h, t) && (t.PulseTrigger? || t.CronTrigger? || t.OneOffTrigger?)
    ensures SanitizeTrigger(h, Written(t)) == Some(Written(t))
  {
    hide SanitizeGithub, SanitizeHook, SanitizeApi;
    match t
    case PulseTrigger(_, _) => assert SanitizePulse(Written(t).fields) == Some(Written(t));
    case CronTrigger(_, _) => assert SanitizeCron(h, Written(t).fields) == Some(Written(t));
    case OneOffTrigger(_, _, _) => assert SanitizeOneOff(h, Written(t).fields) == Some(Written(t));
  }

  lemma CallsAreKept(h: Host, t: Trigger)
    requires IsSound(h, t) && (t.HookTrigger? || t.ApiTrigger?)
    ensures SanitizeTrigger(h, Written(t)) == Some(Written(t))
  {
    hide SanitizeGithub, SanitizePulse, SanitizeCron, SanitizeOneOff;
    match t
    case HookTrigger(event, _) =>
      var o := Written(t).fields;
      assert Get(o, KindKey) == Some(Str("hook")) && Get(o, EventKey) == Some(Str(event));
      assert SanitizeHook(o) == Some(Written(t));
    case ApiTrigger(_) => assert SanitizeApi(Written(t).fields) == Some(Written(t));
  }

  /** A trigger as it is written, whichever of the six kinds and with whatever members, comes back as it was. */
  lemma TriggerIsKept(h: Host, t: Trigger)
    requires IsSound(h, t)
    ensures SanitizeTrigger(h, Written(t)) == Some(Written(t))
  {
    if t.GithubTrigger? {
      hide SanitizeGithub, SanitizePulse, SanitizeCron, SanitizeOneOff, SanitizeHook, SanitizeApi, IsSound, Written;
      GithubIsKept(h, t);
      GithubGets(t);
    } else if t.HookTrigger? || t.ApiTrigger? {
      CallsAreKept(h, t);
    } else {
      TimesAreKept(h, t);
    }
  }

  // ---------------------------------------------------------------- routines

  datatype Routine = Routine(
    id: string,
    name: string,
    prompt: string,
    triggers: seq<Trigger>,
    quiet: bool,
    createdAt: real,
    maxTicks: Option<int>,
    maxRunsPerDay: Option<int>,
    paused: bool)

  function AllWritten(ts: seq<Trigger>): (r: seq<Json>)
    ensures |r| == |ts| && forall i :: 0 <= i < |r| ==> r[i] == Written(ts[i])
  {
    seq(|ts|, i requires 0 <= i < |ts| => Written(ts[i]))
  }

  function CapOf(cap: Option<int>): Option<Json> {
    if cap.Some? then Some(WholeNumber(cap.value)) else None
  }

  function MemberOf(r: Routine, k: Key): Option<Json> {
    match k
    case Id => Some(Str(r.id))
    case Name => Some(Str(r.name))
    case Prompt => Some(Str(r.prompt))
    case Triggers => Some(Arr(AllWritten(r.triggers)))
    case ContextKey => Some(Str("session"))
    case Quiet => Some(Bool(r.quiet))
    case CreatedAt => Some(Num(Finite(r.createdAt)))
    case MaxTicks => CapOf(r.maxTicks)
    case MaxRunsPerDay => CapOf(r.maxRunsPerDay)
    case Paused => FlagOf(r.paused)
    case _ => None
  }

  const MEMBERS: set<Key> := {Id, Name, Prompt, Triggers, ContextKey, Quiet, CreatedAt, MaxTicks, MaxRunsPerDay, Paused}

  function WrittenRoutine(r: Routine): (v: Json)
    ensures v.Obj?
  {
    Obj(ObjectOf(k => MemberOf(r, k), MEMBERS))
  }

  predicate IsSoundRoutine(h: Host, r: Routine) {
    && h.isRoutineName(r.name) && !h.isBlank(r.prompt) && r.createdAt >= 0.0
    && 1 <= |r.triggers| <= 4 && (forall i :: 0 <= i < |r.triggers| ==> IsSound(h, r.triggers[i]))
    && (r.maxTicks.Some? ==> r.maxTicks.value >= 1) && (r.maxRunsPerDay.Some? ==> r.maxRunsPerDay.value >= 1)
  }

  lemma MemberIs(r: Routine, k: Key)
    ensures Get(WrittenRoutine(r).fields, k) == MemberOf(r, k)
  {
    hide CapOf, FlagOf, AllWritten;
    ObjectGets(k => MemberOf(r, k), MEMBERS);
    assert MemberOf(r, k).Some? ==> k in MEMBERS;
  }

  lemma {:induction false} TriggersAreKept(h: Host, ts: seq<Trigger>)
    requires forall i :: 0 <= i < |ts| ==> IsSound(h, ts[i])
    ensures SanitizeTriggers(h, AllWritten(ts)) == Some(AllWritten(ts))
  {
    hide IsSound, Written, SanitizeTrigger;
    if ts != [] {
      TriggerIsKept(h, ts[0]);
      TriggersAreKept(h, ts[1..]);
      assert AllWritten(ts)[1..] == AllWritten(ts[1..]);
      assert [Written(ts[0])] + AllWritten(ts[1..]) == AllWritten(ts);
    }
  }

  lemma CapIsValid(cap: Option<int>)
    requires cap.Some? ==> cap.value >= 1
    ensures ValidCap(CapOf(cap))
  {
    if cap.Some? {
      WholeNumberFacts(cap.value);
    }
  }

  /** A routine as it is written comes back as it was: caps, the paused flag and every trigger. */
  lemma RoutineIsKept(h: Host, r: Routine)
    requires IsSoundRoutine(h, r)
    ensures SanitizeRoutine(h, h.keyOf(r.id), WrittenRoutine(r)) == Some(WrittenRoutine(r))
  {
    var o := WrittenRoutine(r).fields;
    RoutineMembers(r);
    TriggersAreKept(h, r.triggers);
    CapIsValid(r.maxTicks);
    CapIsValid(r.maxRunsPerDay);
    hide IsSound, Written, SanitizeTriggers, ValidCap, BuildRoutine, WrittenRoutine, AllWritten, CapOf;
    BuiltAsWritten(r);
    FlagIsBool(r.paused);
  }

  lemma FlagIsBool(b: bool)
    ensures FlagOf(b).Some? ==> FlagOf(b).value.Bool?
  {
  }

  lemma RoutineMembers(r: Routine)
    ensures var o := WrittenRoutine(r).fields;
            && Get(o, Id) == Some(Str(r.id)) && Get(o, Name) == Some(Str(r.name)) && Get(o, Prompt) == Some(Str(r.prompt))
            && Get(o, Triggers) == Some(Arr(AllWritten(r.triggers))) && Get(o, ContextKey) == Some(Str("session"))
            && Get(o, Quiet) == Some(Bool(r.quiet)) && Get(o, CreatedAt) == Some(Num(Finite(r.createdAt)))
            && Get(o, MaxTicks) == CapOf(r.maxTicks) && Get(o, MaxRunsPerDay) == CapOf(r.maxRunsPerDay) && Get(o, Paused) == FlagOf(r.paused)
  {
    hide WrittenRoutine, CapOf, FlagOf, AllWritten, Get;
    MemberIs(r, Id);
    MemberIs(r, Name);
    MemberIs(r, Prompt);
    MemberIs(r, Triggers);
    MemberIs(r, ContextKey);
    MemberIs(r, Quiet);
    MemberIs(r, CreatedAt);
    MemberIs(r, MaxTicks);
    MemberIs(r, MaxRunsPerDay);
    MemberIs(r, Paused);
  }

  lemma BuiltAsWritten(r: Routine)
    ensures BuildRoutine(WrittenRoutine(r).fields, AllWritten(r.triggers)) == WrittenRoutine(r).fields
  {
    var o, ts := WrittenRoutine(r).fields, AllWritten(r.triggers);
    assert ROUTINE_KEYS == MEMBERS;
    BuildRoutineIs(o, ts);
    hide BuildRoutine, Get, AllWritten, CapOf;
    forall k
      ensures RoutineMember(o, ts, k) == MemberOf(r, k)
    {
      MemberIs(r, k);
    }
    SameMembers(k => RoutineMember(o, ts, k), k => MemberOf(r, k), MEMBERS);
  }

  /** Whatever is accepted comes back with its own name, prompt, caps and flags; paused exactly when the file says true. */
  lemma AcceptedRoutineMeans(h: Host, id: Key, v: Json)
    requires SanitizeRoutine(h, id, v).Some?
    ensures v.Obj? && SanitizeRoutine(h, id, v).value.Obj?
    ensures var o, out := v.fields, SanitizeRoutine(h, id, v).value.fields;
            && (Get(out, Paused) == Some(Bool(true)) <==> Get(o, Paused) == Some(Bool(true)))
            && (Get(out, Paused) != Some(Bool(true)) ==> Get(out, Paused).None?)
            && Get(out, Id) == Get(o, Id) && Get(out, Name) == Get(o, Name) && Get(out, Prompt) == Get(o, Prompt)
            && Get(out, ContextKey) == Get(o, ContextKey) && Get(out, Quiet) == Get(o, Quiet) && Get(out, CreatedAt) == Get(o, CreatedAt)
            && Get(out, MaxTicks) == Get(o, MaxTicks) && Get(out, MaxRunsPerDay) == Get(o, MaxRunsPerDay)
            && |Items(Get(out, Triggers))| == |Items(Get(o, Triggers))|
            && forall i :: 0 <= i < |Items(Get(o, Triggers))| ==>
                 SanitizeTrigger(h, Items(Get(o, Triggers))[i]) == Some(Items(Get(out, Triggers))[i])
  {
    var o := v.fields;
    var ts := SanitizeTriggers(h, Items(Get(o, Triggers)));
    hide BuildRoutine, SanitizeTrigger, SanitizeTriggers, ValidCap;
    RoutineFields(o, ts.value);
    RoutineGets(o, ts.value);
    EachTrigger(h, Items(Get(o, Triggers)));
  }

  lemma {:induction false} EachTrigger(h: Host, items: seq<Json>)
    requires SanitizeTriggers(h, items).Some?
    ensures forall i :: 0 <= i < |items| ==> SanitizeTrigger(h, items[i]) == Some(SanitizeTriggers(h, items).value[i])
  {
    hide SanitizeTrigger;
    if items != [] {
      EachTrigger(h, items[1..]);
    }
  }

  // ---------------------------------------------------------------- tick states

  /** `runs`: rows as the recorder writes them; `markers`: the once-markers of hooks, by their keys. */
  datatype Ticks = Ticks(
    count: nat,
    firedAt: real,
    firedOn: string,
    userState: map<Key, Json>,
    runs: seq<Json>,
    runsToday: Option<nat>,
    runsTodayDate: Option<string>,
    markers: map<Key, string>)

  function WrittenTicks(t: Ticks): (v: Json)
    ensures v.Obj?
  {
    Obj(map[TickCount := WholeNumber(t.count), LastFiredAt := Num(Finite(t.firedAt)), LastFiredDateLocal := Str(t.firedOn), UserState := Obj(t.userState)]
        + Put(RunsKey, if t.runs == [] then None else Some(Arr(t.runs)))
        + Put(RunsToday, if t.runsToday.Some? then Some(WholeNumber(t.runsToday.value)) else None)
        + Put(RunsTodayDate, TextOf(t.runsTodayDate))
        + Put(HookOnceDaily, CursorsOf(t.markers)))
  }

  predicate IsSoundTicks(h: Host, id: Key, t: Ticks) {
    && t.firedAt >= 0.0 && h.size(Obj(t.userState)) <= 2048
    && |t.runs| <= 20 && forall i :: 0 <= i < |t.runs| ==> ValidRun(h, id, t.runs[i])
  }

  lemma WithIsPut(o: map<Key, Json>, k: Key, v: Option<Json>)
    ensures With(o, k, v) == o + Put(k, v)
  {
  }

  lemma TicksBuilt(t: Ticks)
    ensures WrittenTicks(t).fields ==
            BuildTickState(WholeNumber(t.count), Num(Finite(t.firedAt)), Str(t.firedOn), Obj(t.userState), t.runs,
                           if t.runsToday.Some? then Some(WholeNumber(t.runsToday.value)) else None, TextOf(t.runsTodayDate), CursorsOf(t.markers))
  {
    hide CursorsOf, Put, With, TextOf, WholeNumber;
    var today, date, markers := if t.runsToday.Some? then Some(WholeNumber(t.runsToday.value)) else None, TextOf(t.runsTodayDate), CursorsOf(t.markers);
    var base := TickBase(WholeNumber(t.count), Num(Finite(t.firedAt)), Str(t.firedOn), Obj(t.userState));
    var list := if t.runs == [] then None else Some(Arr(t.runs));
    WithIsPut(base, RunsKey, list);
    WithIsPut(base + Put(RunsKey, list), RunsToday, today);
    WithIsPut(base + Put(RunsKey, list) + Put(RunsToday, today), RunsTodayDate, date);
    WithIsPut(base + Put(RunsKey, list) + Put(RunsToday, today) + Put(RunsTodayDate, date), HookOnceDaily, markers);
  }

  lemma MarkersAreKept(h: Host, markers: map<Key, string>)
    ensures TextEntries(h, CursorsOf(markers), true) == CursorsOf(markers)
  {
    if markers != map[] {
      var o := CursorsOf(markers).value.fields;
      var kept := map k | k in o && o[k].Str? && (true || k != h.keyOf("")) :: o[k];
      assert kept == o;
      var k :| k in markers;
      assert k in o;
    }
  }

  /** A tick state as it is written comes back as it was: counts, times, the user's own state, runs and markers. */
  lemma TicksAreKept(h: Host, id: Key, t: Ticks)
    requires IsSoundTicks(h, id, t)
    ensures SanitizeTickState(h, id, Some(WrittenTicks(t))) == WrittenTicks(t)
  {
    hide ValidRun, CursorsOf, TextEntries, BuildTickState, WrittenTicks, WholeNumber, IsInteger;
    var today, date, markers := if t.runsToday.Some? then Some(WholeNumber(t.runsToday.value)) else None, TextOf(t.runsTodayDate), CursorsOf(t.markers);
    TicksBuilt(t);
    TickStateFields(WholeNumber(t.count), Num(Finite(t.firedAt)), Str(t.firedOn), Obj(t.userState), t.runs, today, date, markers);
    MarkersAreKept(h, t.markers);
    ValidRunsFixed(h, id, t.runs);
    WholeNumberFacts(t.count);
    WholeNumberFacts(if t.runsToday.Some? then t.runsToday.value else 0);
  }

  // ---------------------------------------------------------------- deferred hooks

  datatype Hook = Hook(
    id: string,
    routine: string,
    index: nat,
    session: string,
    at: real,
    cwd: string,
    date: string,
    time: string,
    transcript: string,
    truncated: bool)

  function WrittenHook(d: Hook): (v: Json)
    ensures v.Obj?
  {
    Obj(map[Id := Str(d.id), RoutineIdKey := Str(d.routine), TriggerIndex := WholeNumber(d.index), EndedSessionId := Str(d.session),
            DeferredAt := Num(Finite(d.at)), EndedSessionCwd := Str(d.cwd), EndedDateLocal := Str(d.date), EndedTimeLocal := Str(d.time),
            Transcript := Str(d.transcript)] + Put(TranscriptTruncated, FlagOf(d.truncated)))
  }

  /** Its routine is stored with a shutdown hook at that index, and its transcript fits. */
  predicate IsSoundHook(h: Host, d: Hook, routines: map<Key, Json>) {
    && h.keyOf(d.routine) in routines && IsShutdownTrigger(routines[h.keyOf(d.routine)], d.index)
    && d.at >= 0.0 && |Encode(d.transcript)| <= 8192
  }

  lemma HookGets(d: Hook)
    ensures var o := WrittenHook(d).fields;
            && Get(o, Id) == Some(Str(d.id)) && Get(o, RoutineIdKey) == Some(Str(d.routine)) && Get(o, TriggerIndex) == Some(WholeNumber(d.index))
            && Get(o, EndedSessionId) == Some(Str(d.session)) && Get(o, DeferredAt) == Some(Num(Finite(d.at)))
            && Get(o, EndedSessionCwd) == Some(Str(d.cwd)) && Get(o, EndedDateLocal) == Some(Str(d.date))
            && Get(o, EndedTimeLocal) == Some(Str(d.time)) && Get(o, Transcript) == Some(Str(d.transcript))
            && Get(o, TranscriptTruncated) == FlagOf(d.truncated)
  {
    hide FlagOf, WholeNumber;
  }

  /** A deferred hook as it is written comes back as it was. */
  lemma HookIsKept(h: Host, d: Hook, routines: map<Key, Json>)
    requires IsSoundHook(h, d, routines)
    ensures ValidDeferredHook(h, WrittenHook(d), routines)
    ensures SanitizeDeferredHook(h, WrittenHook(d), routines) == WrittenHook(d)
  {
    hide IsShutdownTrigger, Put, With, WholeNumber, IsInteger, TrimEnd;
    HookGets(d);
    WholeNumberFacts(d.index);
    TrimFitted(d.transcript, 8192);
    WithIsPut(HookBase(Str(d.id), Str(d.routine), WholeNumber(d.index), Str(d.session), Num(Finite(d.at)), Str(d.cwd), Str(d.date), Str(d.time), d.transcript),
              TranscriptTruncated, FlagOf(d.truncated));
    FlagIsTrue(d.truncated);
  }

  lemma FlagIsTrue(b: bool)
    ensures IsTrue(FlagOf(b)) <==> b
    ensures (if b then Some(Bool(true)) else None) == FlagOf(b)
  {
  }

  // ---------------------------------------------------------------- a whole store

  /** `queue`: entries as they are saved. */
  datatype File = File(routines: map<Key, Routine>, ticks: map<Key, Ticks>, hooks: seq<Hook>, queue: seq<Json>)

  function RoutinesWritten(f: File): (o: map<Key, Json>)
    ensures o.Keys == f.routines.Keys && forall id :: id in o ==> o[id] == WrittenRoutine(f.routines[id])
  {
    map id | id in f.routines :: WrittenRoutine(f.routines[id])
  }

  function TicksWritten(f: File): (o: map<Key, Json>)
    ensures o.Keys == f.ticks.Keys && forall id :: id in o ==> o[id] == WrittenTicks(f.ticks[id])
  {
    map id | id in f.ticks :: WrittenTicks(f.ticks[id])
  }

  function HooksWritten(hooks: seq<Hook>): (r: seq<Json>)
    ensures |r| == |hooks| && forall i :: 0 <= i < |r| ==> r[i] == WrittenHook(hooks[i])
  {
    seq(|hooks|, i requires 0 <= i < |hooks| => WrittenHook(hooks[i]))
  }

  function WrittenFile(f: File): Json {
    Obj(map[SchemaVersion := Num(Finite(3.0)), RoutinesKey := Obj(RoutinesWritten(f)), TickStateKey := Obj(TicksWritten(f)),
            DeferredHooksKey := Arr(HooksWritten(f.hooks)), PendingQueueKey := Arr(f.queue)])
  }

  /** A routine and a tick state under each id; at most five hooks, oldest first, and three entries, of stored routines. */
  ghost predicate IsSoundFile(h: Host, f: File) {
    && (forall id :: id in f.routines ==> IsSoundRoutine(h, f.routines[id]) && h.keyOf(f.routines[id].id) == id)
    && f.ticks.Keys == f.routines.Keys && (forall id :: id in f.ticks ==> IsSoundTicks(h, id, f.ticks[id]))
    && |f.hooks| <= 5 && (forall i :: 0 <= i < |f.hooks| ==> IsSoundHook(h, f.hooks[i], RoutinesWritten(f)))
    && (forall i, j :: 0 <= i < j < |f.hooks| ==> f.hooks[i].at <= f.hooks[j].at)
    && |f.queue| <= 3 && (forall i :: 0 <= i < |f.queue| ==> ValidQueueEntry(h, f.queue[i], RoutinesWritten(f)))
  }

  lemma RoutinesAreKept(h: Host, f: File)
    requires IsSoundFile(h, f)
    ensures RoutinesOf(h, Some(Obj(RoutinesWritten(f)))) == RoutinesWritten(f)
  {
    hide IsSoundHook, IsSoundTicks, IsSoundRoutine, WrittenRoutine, SanitizeRoutine;
    var o := RoutinesWritten(f);
    forall id | id in o
      ensures SanitizeRoutine(h, id, o[id]) == Some(o[id])
    {
      RoutineIsKept(h, f.routines[id]);
    }
  }

  lemma AllTicksAreKept(h: Host, f: File)
    requires IsSoundFile(h, f)
    ensures TickStatesOf(h, RoutinesWritten(f), Some(Obj(TicksWritten(f))), false) == TicksWritten(f)
  {
    hide IsSoundHook, IsSoundRoutine, IsSoundTicks, WrittenTicks, WrittenRoutine, SanitizeTickState;
    var o, routines := TicksWritten(f), RoutinesWritten(f);
    forall id | id in routines
      ensures TickStateOf(h, id, routines[id], Get(o, id), false) == o[id]
    {
      TicksAreKept(h, id, f.ticks[id]);
    }
  }

  lemma WrittenTime(d: Hook)
    requires d.at >= 0.0
    ensures DeferredTime(WrittenHook(d)) == d.at
  {
    hide Put;
    HookGets(d);
  }

  lemma HooksAreKept(h: Host, f: File)
    requires IsSoundFile(h, f)
    ensures DeferredHooksOf(h, Some(Arr(HooksWritten(f.hooks))), RoutinesWritten(f)) == HooksWritten(f.hooks)
  {
    hide IsSoundRoutine, IsSoundTicks, WrittenHook, ValidDeferredHook, SanitizeDeferredHook, DeferredTime;
    var routines, items := RoutinesWritten(f), HooksWritten(f.hooks);
    forall i | 0 <= i < |items|
      ensures ValidDeferredHook(h, items[i], routines) && SanitizeDeferredHook(h, items[i], routines) == items[i]
      ensures DeferredTime(items[i]) == f.hooks[i].at
    {
      HookIsKept(h, f.hooks[i], routines);
      WrittenTime(f.hooks[i]);
    }
    SanitizeHooksIsClean(h, items, routines);
    ValidHooksFixed(h, items, routines);
    assert Clean(h, items, routines) == items;
    SortFixed(items);
  }

  /** A store file as the extension writes it is loaded unchanged: no routine, flag, cap, cursor, counter, hook or entry
      is lost. */
  lemma FileIsKept(h: Host, f: File)
    requires IsSoundFile(h, f)
    ensures SanitizeStore(h, WrittenFile(f), false) == WrittenFile(f)
  {
    RoutinesAreKept(h, f);
    AllTicksAreKept(h, f);
    HooksAreKept(h, f);
    ValidEntriesFixed(h, f.queue, RoutinesWritten(f));
    hide IsSoundRoutine, IsSoundTicks, IsSoundHook, ValidQueueEntry, SanitizeStore, RoutinesOf, TickStatesOf, DeferredHooksOf;
    PartsMakeTheStore(h, RoutinesWritten(f), TicksWritten(f), HooksWritten(f.hooks), f.queue);
  }

  lemma PartsMakeTheStore(h: Host, routines: map<Key, Json>, ticks: map<Key, Json>, hooks: seq<Json>, queue: seq<Json>)
    requires RoutinesOf(h, Some(Obj(routines))) == routines && TickStatesOf(h, routines, Some(Obj(ticks)), false) == ticks
    requires DeferredHooksOf(h, Some(Arr(hooks)), routines) == hooks && ValidEntries(h, queue, routines) == queue && |queue| <= 3
    ensures var raw := Obj(map[SchemaVersion := Num(Finite(3.0)), RoutinesKey := Obj(routines), TickStateKey := Obj(ticks),
                               DeferredHooksKey := Arr(hooks), PendingQueueKey := Arr(queue)]);
            SanitizeStore(h, raw, false) == raw
  {
    hide RoutinesOf, TickStatesOf, DeferredHooksOf, ValidEntries;
  }

  // ---------------------------------------------------------------- what is refused

  /** Everything a load refuses a trigger for. */
  predicate IsRefused(h: Host, v: Json) {
    || !v.Obj? || !IsStr(Get(v.fields, KindKey))
    || (var o, kind := v.fields, v.fields[KindKey].s;
        var badZone := Timezone in o && !(o[Timezone].Str? && h.isTimezone(o[Timezone].s));
        if kind == "pulse" then
          Timezone in o || !IsStr(Get(o, IntervalHuman)) || !IsFinite(Get(o, IntervalMs), 1.0)
        else if kind == "cron" then badZone || !IsStr(Get(o, Expr))
        else if kind == "oneoff" then badZone || !IsStr(Get(o, FireAtIso)) || (FiredKey in o && !o[FiredKey].Bool?)
        else if kind == "hook" then
          || !(EventKey in o && NamesOneOf(o[EventKey], {"session_start", "agent_end", "session_shutdown"}))
          || (OnceKey in o && !NamesOneOf(o[OnceKey], {"daily", "per_session"}))
        else if kind == "api" then AllowArgs in o && !o[AllowArgs].Bool?
        else if kind == "github" then
          || !IsStr(Get(o, Repo)) || !h.isRepo(o[Repo].s) || !IsFinite(Get(o, PollIntervalMs), 1.0)
          || !(EventKey in o && NamesOneOf(o[EventKey], {"pull_request.opened", "pull_request.closed", "issues.opened", "push"}))
          || (o[EventKey] != Str("push") && IsObj(Get(o, FilterKey)) && HasName(Get(o[FilterKey].fields, Branches)))
        else true)
  }

  /** A list with a name in it that is not empty. */
  predicate HasName(v: Option<Json>) {
    v.Some? && v.value.Arr? && exists i :: 0 <= i < |v.value.items| && v.value.items[i].Str? && v.value.items[i].s != ""
  }

  lemma {:induction false} TextsMeans(items: seq<Json>)
    ensures Texts(items) != [] <==> exists i :: 0 <= i < |items| && items[i].Str? && items[i].s != ""
  {
    if items != [] {
      TextsMeans(items[1..]);
      assert forall i :: 1 <= i < |items| ==> items[i] == items[1..][i - 1];
    }
  }

  lemma FilterBranches(v: Option<Json>)
    requires IsObj(v)
    ensures Branches in SanitizeFilter(v).value.fields <==> HasName(Get(v.value.fields, Branches))
  {
    TextsMeans(Items(Get(v.value.fields, Branches)));
  }

  lemma TriggerRefusedIff(h: Host, v: Json)
    ensures SanitizeTrigger(h, v).None? <==> IsRefused(h, v)
  {
    hide SanitizeFilter, TextEntries, HasName, NamesOneOf;
    if v.Obj? && IsObj(Get(v.fields, FilterKey)) {
      FilterBranches(Get(v.fields, FilterKey));
    }
    NothingFromNothing(h);
    assert v.Obj? ==> (SanitizeFilter(Get(v.fields, FilterKey)).Some? <==> IsObj(Get(v.fields, FilterKey))) by {
      FilterIsObject(if v.Obj? then Get(v.fields, FilterKey) else None);
    }
  }

  lemma FilterIsObject(v: Option<Json>)
    ensures SanitizeFilter(v).Some? <==> IsObj(v)
  {
  }
}
