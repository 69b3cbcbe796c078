// The tick state of a routine on disk: what saving it and loading it again keeps.
module TickStore {
  import opened Common
  import opened FireBudget
  import J = Json
  import S = StoreSanitizer

  /** What a stored run says besides its id, its status and whether it opens with the silent token. `skipReason` is
      written on skipped runs only. */
  datatype Detail = Detail(startedAt: real, endedAt: real, duration: real, index: int, kind: string, snippet: string, skipReason: string)

  /** How the host writes dates and runs: dates as text and back, the silent token, the other members of a run. */
  datatype Format = Format(
    dateText: Date -> string,
    dateOf: string -> Date,
    opensQuiet: string -> bool,
    detail: RunRecord -> Detail)

  ghost predicate Faithful(f: Format) {
    && (forall d :: f.dateOf(f.dateText(d)) == d)
    && (forall r :: DetailSound(r, f.detail(r), f.opensQuiet))
  }

  ghost predicate DetailSound(r: RunRecord, d: Detail, opensQuiet: string -> bool) {
    && d.startedAt >= 0.0 && d.endedAt >= 0.0 && d.duration >= 0.0
    && d.kind in S.ORIGIN_KINDS && opensQuiet(d.snippet) == r.quiet
  }

  function Time(x: real): J.Json {
    J.Num(J.Finite(x))
  }

  function StatusName(s: Status): string {
    match s
    case Success => "success"
    case Silent => "silent"
    case Failure => "error"
    case Skipped => "skipped"
  }

  function StatusNamed(s: string): Status {
    if s == "success" then Success else if s == "silent" then Silent else if s == "error" then Failure else Skipped
  }

  // ---------------------------------------------------------------- one run

  const RUN_KEYS: set<J.Key> :=
    {J.Id, J.RoutineIdKey, J.StartedAt, J.EndedAt, J.DurationMs, J.StatusKey, J.TriggerIndex, J.TriggerKind, J.Snippet, J.SkipReason}

  function RunMember(routine: RoutineId, r: RunRecord, d: Detail, k: J.Key): Option<J.Json> {
    match k
    case Id => Some(J.Str(r.id))
    case RoutineIdKey => Some(J.Str(routine))
    case StartedAt => Some(Time(d.startedAt))
    case EndedAt => Some(Time(d.endedAt))
    case DurationMs => Some(Time(d.duration))
    case StatusKey => Some(J.Str(StatusName(r.status)))
    case TriggerIndex => Some(J.WholeNumber(d.index))
    case TriggerKind => Some(J.Str(d.kind))
    case Snippet => Some(J.Str(d.snippet))
    case SkipReason => if r.status == Skipped then Some(J.Str(d.skipReason)) else None
    case _ => None
  }

  function EncodeRun(routine: RoutineId, r: RunRecord, d: Detail): (v: J.Json)
    ensures v.Obj?
  {
    J.Obj(J.ObjectOf(k => RunMember(routine, r, d, k), RUN_KEYS))
  }

  function TextAt(o: map<J.Key, J.Json>, k: J.Key): string {
    if J.IsStr(J.Get(o, k)) then o[k].s else ""
  }

  function DecodeRun(f: Format, v: J.Json): RunRecord {
    var o := if v.Obj? then v.fields else map[];
    RunRecord(TextAt(o, J.Id), StatusNamed(TextAt(o, J.StatusKey)), f.opensQuiet(TextAt(o, J.Snippet)))
  }

  lemma RunGets(routine: RoutineId, r: RunRecord, d: Detail)
    ensures var o := EncodeRun(routine, r, d).fields;
            && J.Get(o, J.Id) == Some(J.Str(r.id)) && J.Get(o, J.RoutineIdKey) == Some(J.Str(routine))
            && J.Get(o, J.StartedAt) == Some(Time(d.startedAt)) && J.Get(o, J.EndedAt) == Some(Time(d.endedAt))
            && J.Get(o, J.DurationMs) == Some(Time(d.duration)) && J.Get(o, J.StatusKey) == Some(J.Str(StatusName(r.status)))
            && J.Get(o, J.TriggerIndex) == Some(J.WholeNumber(d.index)) && J.Get(o, J.TriggerKind) == Some(J.Str(d.kind))
            && J.Get(o, J.Snippet) == Some(J.Str(d.snippet)) && J.OptionalStr(J.Get(o, J.SkipReason))
  {
    hide Time, J.WholeNumber, StatusName, J.Get, J.ObjectOf, RUN_KEYS, EncodeRun;
    RunGet(routine, r, d, J.Id);
    RunGet(routine, r, d, J.RoutineIdKey);
    RunGet(routine, r, d, J.StartedAt);
    RunGet(routine, r, d, J.EndedAt);
    RunGet(routine, r, d, J.DurationMs);
    RunGet(routine, r, d, J.StatusKey);
    RunGet(routine, r, d, J.TriggerIndex);
    RunGet(routine, r, d, J.TriggerKind);
    RunGet(routine, r, d, J.Snippet);
    RunGet(routine, r, d, J.SkipReason);
  }

  lemma RunGet(routine: RoutineId, r: RunRecord, d: Detail, k: J.Key)
    ensures J.Get(EncodeRun(routine, r, d).fields, k) == RunMember(routine, r, d, k)
  {
    hide Time, J.WholeNumber, StatusName;
    assert RunMember(routine, r, d, k).Some? ==> k in RUN_KEYS;
  }

  lemma StatusRoundTrip(s: Status)
    ensures StatusNamed(StatusName(s)) == s && StatusName(s) in S.STATUSES
  {
  }

  /** A run the recorder wrote is valid, and reads back as it was. */
  lemma RunRoundTrip(h: S.Host, f: Format, routine: RoutineId, r: RunRecord)
    requires Faithful(f)
    ensures var v := EncodeRun(routine, r, f.detail(r));
            S.ValidRun(h, h.keyOf(routine), v) && DecodeRun(f, v) == r
  {
    hide EncodeRun, StatusName, StatusNamed, J.WholeNumber, J.IsInteger;
    var d := f.detail(r);
    assert DetailSound(r, d, f.opensQuiet);
    RunGets(routine, r, d);
    J.WholeNumberFacts(d.index);
    StatusRoundTrip(r.status);
  }

  // ---------------------------------------------------------------- the tick state

  function EncodeRuns(f: Format, routine: RoutineId, runs: seq<RunRecord>): (vs: seq<J.Json>)
    ensures |vs| == |runs| && forall i :: 0 <= i < |vs| ==> vs[i] == EncodeRun(routine, runs[i], f.detail(runs[i]))
  {
    seq(|runs|, i requires 0 <= i < |runs| => EncodeRun(routine, runs[i], f.detail(runs[i])))
  }

  function DecodeRuns(f: Format, vs: seq<J.Json>): (runs: seq<RunRecord>)
    ensures |runs| == |vs| && forall i :: 0 <= i < |runs| ==> runs[i] == DecodeRun(f, vs[i])
  {
    seq(|vs|, i requires 0 <= i < |vs| => DecodeRun(f, vs[i]))
  }

  const TICK_KEYS: set<J.Key> :=
    {J.TickCount, J.RunsKey, J.RunsToday, J.RunsTodayDate, J.Other("consecutiveSilentTicks"), J.Other("consecutiveErrorTicks")}

  function TickMember(f: Format, routine: RoutineId, t: TickState, k: J.Key): Option<J.Json> {
    match k
    case TickCount => Some(J.WholeNumber(t.tickCount))
    case RunsKey => Some(J.Arr(EncodeRuns(f, routine, t.runs)))
    case RunsToday => if t.runsToday.Some? then Some(J.WholeNumber(t.runsToday.value)) else None
    case RunsTodayDate => if t.runsTodayDate.Some? then Some(J.Str(f.dateText(t.runsTodayDate.value))) else None
    case Other(name) => Some(J.WholeNumber(if name == "consecutiveSilentTicks" then t.silentTicks else t.errorTicks))
    case _ => None
  }

  function EncodeTick(f: Format, routine: RoutineId, t: TickState): (v: J.Json)
    ensures v.Obj?
  {
    J.Obj(J.ObjectOf(k => TickMember(f, routine, t, k), TICK_KEYS))
  }

  function CountAt(o: map<J.Key, J.Json>, k: J.Key): nat {
    if J.IsFinite(J.Get(o, k), 0.0) then o[k].n.value.Floor else 0
  }

  function DecodeTick(f: Format, v: J.Json): TickState {
    var o := if v.Obj? then v.fields else map[];
    TickState(CountAt(o, J.TickCount), DecodeRuns(f, J.Items(J.Get(o, J.RunsKey))),
              if J.Get(o, J.RunsToday).Some? then Some(CountAt(o, J.RunsToday)) else None,
              if J.Get(o, J.RunsTodayDate).Some? then Some(f.dateOf(TextAt(o, J.RunsTodayDate))) else None,
              CountAt(o, J.Other("consecutiveSilentTicks")), CountAt(o, J.Other("consecutiveErrorTicks")))
  }

  lemma TickGets(f: Format, routine: RoutineId, t: TickState)
    ensures var o := EncodeTick(f, routine, t).fields;
            && J.Get(o, J.TickCount) == Some(J.WholeNumber(t.tickCount))
            && J.Get(o, J.RunsKey) == Some(J.Arr(EncodeRuns(f, routine, t.runs)))
            && J.Get(o, J.RunsToday) == (if t.runsToday.Some? then Some(J.WholeNumber(t.runsToday.value)) else None)
            && J.Get(o, J.RunsTodayDate) == (if t.runsTodayDate.Some? then Some(J.Str(f.dateText(t.runsTodayDate.value))) else None)
  {
    hide J.WholeNumber, EncodeRuns, J.Get, J.ObjectOf, TICK_KEYS, EncodeTick;
    TickGet(f, routine, t, J.TickCount);
    TickGet(f, routine, t, J.RunsKey);
    TickGet(f, routine, t, J.RunsToday);
    TickGet(f, routine, t, J.RunsTodayDate);
  }

  lemma TickGet(f: Format, routine: RoutineId, t: TickState, k: J.Key)
    requires !k.Other?
    ensures J.Get(EncodeTick(f, routine, t).fields, k) == TickMember(f, routine, t, k)
  {
    hide J.WholeNumber, EncodeRuns;
    assert TickMember(f, routine, t, k).Some? ==> k in TICK_KEYS;
  }

  lemma {:induction false} RunsSurvive(h: S.Host, f: Format, routine: RoutineId, runs: seq<RunRecord>)
    requires Faithful(f)
    ensures S.ValidRuns(h, h.keyOf(routine), EncodeRuns(f, routine, runs)) == EncodeRuns(f, routine, runs)
    ensures DecodeRuns(f, EncodeRuns(f, routine, runs)) == runs
  {
    hide S.ValidRun, EncodeRun, DecodeRun;
    var vs := EncodeRuns(f, routine, runs);
    forall i | 0 <= i < |runs|
      ensures S.ValidRun(h, h.keyOf(routine), vs[i]) && DecodeRun(f, vs[i]) == runs[i]
    {
      RunRoundTrip(h, f, routine, runs[i]);
    }
    S.ValidRunsFixed(h, h.keyOf(routine), vs);
  }

  lemma WithOthers(o: map<J.Key, J.Json>, k: J.Key, v: Option<J.Json>)
    requires !k.Other? && forall name :: J.Get(o, J.Other(name)).None?
    ensures forall name :: J.Get(J.With(o, k, v), J.Other(name)).None?
  {
  }

  /** What a built tick state answers. The streak counters have no place in it. */
  lemma BuiltGets(count: J.Json, runs: seq<J.Json>, today: Option<J.Json>, date: Option<J.Json>, at: J.Json, on: J.Json,
                  user: J.Json, markers: Option<J.Json>)
    ensures var o := S.BuildTickState(count, at, on, user, runs, today, date, markers);
            && J.Get(o, J.TickCount) == Some(count) && J.Items(J.Get(o, J.RunsKey)) == runs
            && J.Get(o, J.RunsToday) == today && J.Get(o, J.RunsTodayDate) == date
            && forall name :: J.Get(o, J.Other(name)).None?
  {
    S.TickStateFields(count, at, on, user, runs, today, date, markers);
    var list := if runs == [] then None else Some(J.Arr(runs));
    var base := S.TickBase(count, at, on, user);
    WithOthers(base, J.RunsKey, list);
    WithOthers(J.With(base, J.RunsKey, list), J.RunsToday, today);
    WithOthers(J.With(J.With(base, J.RunsKey, list), J.RunsToday, today), J.RunsTodayDate, date);
    WithOthers(J.With(J.With(J.With(base, J.RunsKey, list), J.RunsToday, today), J.RunsTodayDate, date), J.HookOnceDaily, markers);
  }

  /** Saving a tick state and loading it again keeps the counts, the date and the runs, and forgets the streaks:
      the load is exactly the reload of the caps' own model. */
  lemma LoadIsReload(h: S.Host, f: Format, routine: RoutineId, t: TickState)
    requires Faithful(f) && |t.runs| <= MAX_RUN_HISTORY
    ensures DecodeTick(f, S.SanitizeTickState(h, h.keyOf(routine), Some(EncodeTick(f, routine, t)))) == Reloaded(t)
  {
    hide EncodeTick, J.WholeNumber, S.ValidRuns, S.TextEntries, S.UserStateOf, S.BuildTickState, J.IsInteger, DecodeRun, EncodeRun, S.Time, S.Text;
    var o := EncodeTick(f, routine, t).fields;
    TickGets(f, routine, t);
    RunsSurvive(h, f, routine, t.runs);
    J.WholeNumberFacts(t.tickCount);
    J.WholeNumberFacts(if t.runsToday.Some? then t.runsToday.value else 0);
    assert S.Last(EncodeRuns(f, routine, t.runs), S.MAX_RUN_HISTORY) == EncodeRuns(f, routine, t.runs);
    BuiltGets(J.WholeNumber(t.tickCount), EncodeRuns(f, routine, t.runs), J.Get(o, J.RunsToday), J.Get(o, J.RunsTodayDate),
              S.Time(J.Get(o, J.LastFiredAt)), S.Text(J.Get(o, J.LastFiredDateLocal)), S.UserStateOf(h, J.Get(o, J.UserState)),
              S.TextEntries(h, J.Get(o, J.HookOnceDaily), true));
    var r := DecodeTick(f, S.SanitizeTickState(h, h.keyOf(routine), Some(EncodeTick(f, routine, t))));
    if t.runsTodayDate.Some? {
      var date := t.runsTodayDate.value;
      assert f.dateOf(f.dateText(date)) == date;
      assert S.IfText(J.Get(o, J.RunsTodayDate)) == Some(J.Str(f.dateText(date)));
    }
    assert r.runs == t.runs;
  }
}
