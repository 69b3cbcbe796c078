// What one fire of a routine does to its persisted tick state: the lifetime and daily caps, the run log.
module FireBudget {
  import opened Common

  type RoutineId = string
  type RunId = string

  /** A local calendar date; the source compares ISO dates, which order as the dates do. */
  type Date = int

  const MAX_RUN_HISTORY := 20
  const BACKOFF_THRESHOLD := 2
  const BACKOFF_FACTOR := 2
  const BACKOFF_MAX_MULTIPLIER := 32
  const BACKOFF_MAX_INTERVAL_MS := 600_000

  datatype Status = Success | Silent | Failure | Skipped

  /** `quiet`: the snippet opens with the silent token. */
  datatype RunRecord = RunRecord(id: RunId, status: Status, quiet: bool)

  datatype Limits = Limits(maxTicks: Option<int>, maxRunsPerDay: Option<int>)

  datatype TickState = TickState(
    tickCount: nat,
    runs: seq<RunRecord>,
    runsToday: Option<nat>,
    runsTodayDate: Option<Date>,
    silentTicks: nat,
    errorTicks: nat)

  /** `exempt`: a manual or a deferred fire. `sends`: building and sending the prompt succeeds.
      The date is read once at the cap and again after sending. */
  datatype Request = Request(id: RunId, exempt: bool, checked: Date, sends: bool, sent: Date)

  datatype FireResult =
    | Deleted
    | Capped(tick: TickState)
    | Failed(tick: TickState)
    | Started(tick: TickState)

  const FRESH := TickState(0, [], None, None, 0, 0)

  function LastRuns(log: seq<RunRecord>): seq<RunRecord> {
    if |log| <= MAX_RUN_HISTORY then log else log[|log| - MAX_RUN_HISTORY..]
  }

  function SilentCounter(before: nat, run: RunRecord): nat {
    match run.status
    case Silent => before + 1
    case Success => if run.quiet then before + 1 else 0
    case _ => before
  }

  function ErrorCounter(before: nat, run: RunRecord): nat {
    match run.status
    case Failure => before + 1
    case Skipped => before
    case _ => 0
  }

  function OrFresh(tick: Option<TickState>): TickState {
    if tick.Some? then tick.value else FRESH
  }

  function RecordRun(tick: Option<TickState>, run: RunRecord): TickState {
    var t := OrFresh(tick);
    t.(runs := LastRuns(t.runs + [run]),
       silentTicks := SilentCounter(t.silentTicks, run),
       errorTicks := ErrorCounter(t.errorTicks, run))
  }

  function UsedOn(t: TickState, date: Date): nat {
    if t.runsTodayDate == Some(date) && t.runsToday.Some? then t.runsToday.value else 0
  }

  function Fire(limits: Limits, tick: Option<TickState>, q: Request): FireResult {
    var t := OrFresh(tick);
    if limits.maxTicks.Some? && t.tickCount >= limits.maxTicks.value then Deleted
    else if limits.maxRunsPerDay.Some? && !q.exempt && UsedOn(t, q.checked) >= limits.maxRunsPerDay.value then
      Capped(RecordRun(tick, RunRecord(q.id, Skipped, false)))
    else if !q.sends then Failed(RecordRun(tick, RunRecord(q.id, Failure, false)))
    else
      var carried := UsedOn(t, q.sent);
      // The counters of silent and failed runs are not carried over.
      Started(TickState(t.tickCount + 1, t.runs, Some(if q.exempt then carried else carried + 1), Some(q.sent), 0, 0))
  }

  // ---------------------------------------------------------------- one routine's life

  datatype Happening =
    | Attempt(q: Request)
    | Finish(run: RunRecord)     // the turn that is open ends
    | Skip(id: RunId)            // a fire refused before the caps are looked at
    | Remove                     // the user deletes the routine
    | Reload                     // the process ends, in whatever way, and the store is loaded again

  datatype Start = Start(on: Date, automatic: bool)

  /** `open`: a turn of this routine is in flight. `log` and `starts` are the full histories. */
  datatype Life = Life(tick: Option<TickState>, gone: bool, open: bool, starts: seq<Start>, log: seq<RunRecord>)

  const BORN := Life(Some(FRESH), false, false, [], [])

  /** The single-turn guard: no attempt while a turn is open, no finish without one. */
  ghost predicate Allowed(life: Life, h: Happening) {
    match h
    case Attempt(_) => !life.gone && !life.open
    case Finish(run) => life.open && run.status != Skipped
    case Skip(_) => !life.gone
    case Remove => !life.gone
    case Reload => !life.gone
  }

  /** What a load keeps of a stored tick state: all but the two streak counters, which are not in the file's schema. */
  function Reloaded(t: TickState): TickState {
    t.(silentTicks := 0, errorTicks := 0)
  }

  function Logged(life: Life, run: RunRecord): Life {
    life.(tick := Some(RecordRun(life.tick, run)), log := life.log + [run])
  }

  function After(limits: Limits, life: Life, h: Happening): Life {
    match h
    case Finish(run) => Logged(life, run).(open := false)
    case Skip(id) => Logged(life, RunRecord(id, Skipped, false))
    case Remove => life.(tick := None, gone := true)
    case Reload => life.(tick := if life.tick.Some? then Some(Reloaded(life.tick.value)) else None, open := false)
    case Attempt(q) =>
      match Fire(limits, life.tick, q)
      case Deleted => life.(tick := None, gone := true)
      case Capped(t) => life.(tick := Some(t), log := life.log + [RunRecord(q.id, Skipped, false)])
      case Failed(t) => life.(tick := Some(t), log := life.log + [RunRecord(q.id, Failure, false)])
      case Started(t) => life.(tick := Some(t), open := true, starts := life.starts + [Start(q.sent, !q.exempt)])
  }

  ghost predicate Lives(limits: Limits, life: Life, hs: seq<Happening>, last: Life)
    decreases |hs|
  {
    if hs == [] then life == last
    else Allowed(life, hs[0]) && Lives(limits, After(limits, life, hs[0]), hs[1..], last)
  }

  /** The two times an attempt reads the date. */
  datatype Reading = Reading(checked: Date, sent: Date)

  function Readings(hs: seq<Happening>): seq<Reading> {
    if hs == [] then []
    else Readings(hs[..|hs| - 1])
         + (if hs[|hs| - 1].Attempt? then [Reading(hs[|hs| - 1].q.checked, hs[|hs| - 1].q.sent)] else [])
  }

  /** Dates are read in order and never go back. */
  ghost predicate NeverBack(rs: seq<Reading>) {
    && (forall i :: 0 <= i < |rs| ==> rs[i].checked <= rs[i].sent)
    && (forall i, j :: 0 <= i < j < |rs| ==> rs[i].sent <= rs[j].checked)
  }

  /** Between two starts on one date no other date is read. */
  ghost predicate Steady(rs: seq<Reading>) {
    && (forall i, j :: 0 <= i < j < |rs| && rs[i].sent == rs[j].sent ==> rs[j].checked == rs[j].sent)
    && (forall i, k, j :: 0 <= i < k < j < |rs| && rs[i].sent == rs[j].sent ==> rs[k].sent == rs[i].sent)
  }

  lemma NeverBackIsSteady(rs: seq<Reading>)
    requires NeverBack(rs)
    ensures Steady(rs)
  {
    forall i, k, j | 0 <= i < k < j < |rs| && rs[i].sent == rs[j].sent
      ensures rs[k].sent == rs[i].sent
    {
      assert rs[i].sent <= rs[k].checked <= rs[k].sent <= rs[j].checked <= rs[j].sent;
    }
  }

  function AutomaticOn(starts: seq<Start>, date: Date): nat {
    if starts == [] then 0
    else AutomaticOn(starts[..|starts| - 1], date)
         + (if starts[|starts| - 1] == Start(date, true) then 1 else 0)
  }

  /** Lifetime count, run log and the two streak counters; these need no assumption on the dates. */
  ghost predicate Counted(limits: Limits, life: Life) {
    && (limits.maxTicks.Some? ==> |life.starts| <= Max(limits.maxTicks.value, 0))
    && (life.tick.Some? && !life.gone ==>
          && life.tick.value.tickCount == |life.starts|
          && life.tick.value.runs == LastRuns(life.log)
          && life.tick.value.silentTicks <= (if life.open then 0 else 1))
    && (!life.gone ==> life.tick.Some?)
  }

  lemma LastRunsOfSnoc(log: seq<RunRecord>, run: RunRecord)
    ensures LastRuns(LastRuns(log) + [run]) == LastRuns(log + [run])
  {
    if |log| > MAX_RUN_HISTORY {
      assert (log + [run])[|log| + 1 - MAX_RUN_HISTORY..] == log[|log| + 1 - MAX_RUN_HISTORY..] + [run];
      assert (LastRuns(log) + [run])[1..] == log[|log| + 1 - MAX_RUN_HISTORY..] + [run];
    }
  }

  lemma AfterKeepsCounted(limits: Limits, life: Life, h: Happening)
    requires Counted(limits, life) && Allowed(life, h)
    ensures Counted(limits, After(limits, life, h))
  {
    match h
    case Finish(run) => LastRunsOfSnoc(life.log, run);
    case Skip(id) => LastRunsOfSnoc(life.log, RunRecord(id, Skipped, false));
    case Remove =>
    case Reload =>
    case Attempt(q) =>
      LastRunsOfSnoc(life.log, RunRecord(q.id, Skipped, false));
      LastRunsOfSnoc(life.log, RunRecord(q.id, Failure, false));
  }

  /** At most `maxTicks` starts ever; the stored runs are the last twenty of the full log. */
  lemma {:induction false} LifeKeepsCounted(limits: Limits, life: Life, hs: seq<Happening>, last: Life)
    requires Counted(limits, life) && Lives(limits, life, hs, last)
    ensures Counted(limits, last)
    decreases |hs|
  {
    if hs != [] {
      AfterKeepsCounted(limits, life, hs[0]);
      LifeKeepsCounted(limits, After(limits, life, hs[0]), hs[1..], last);
    }
  }

  lemma StartsNeverExceedMaxTicks(limits: Limits, hs: seq<Happening>, last: Life)
    requires Lives(limits, BORN, hs, last) && limits.maxTicks.Some?
    ensures |last.starts| <= Max(limits.maxTicks.value, 0)
  {
    LifeKeepsCounted(limits, BORN, hs, last);
  }

  lemma StoredRunsAreTheLast(limits: Limits, hs: seq<Happening>, last: Life)
    requires Lives(limits, BORN, hs, last) && !last.gone
    ensures last.tick.Some? && last.tick.value.runs == LastRuns(last.log)
    ensures |last.tick.value.runs| == Min(|last.log|, MAX_RUN_HISTORY)
  {
    LifeKeepsCounted(limits, BORN, hs, last);
  }

  // ---------------------------------------------------------------- the daily budget

  /** `date` is among the dates of the starts so far, and another date came after it. */
  ghost predicate LeftBehind(rs: seq<Reading>, date: Date) {
    exists i, j :: 0 <= i < j < |rs| && rs[i].sent == date != rs[j].sent
  }

  ghost predicate WasSent(rs: seq<Reading>, date: Date) {
    exists i :: 0 <= i < |rs| && rs[i].sent == date
  }

  /** The stored counter is the true number of automatic starts on its date, and every other date with one is past. */
  ghost predicate CounterIsTrue(t: TickState, starts: seq<Start>, rs: seq<Reading>) {
    && (t.runsTodayDate.Some? ==> t.runsToday.Some? && WasSent(rs, t.runsTodayDate.value)
                                  && AutomaticOn(starts, t.runsTodayDate.value) == t.runsToday.value)
    && (forall d :: t.runsTodayDate != Some(d) && AutomaticOn(starts, d) > 0 ==> LeftBehind(rs, d))
  }

  ghost predicate Budgeted(limits: Limits, life: Life, rs: seq<Reading>) {
    && (forall d :: limits.maxRunsPerDay.Some? ==> AutomaticOn(life.starts, d) <= Max(limits.maxRunsPerDay.value, 0))
    && (life.tick.Some? && !life.gone ==> CounterIsTrue(life.tick.value, life.starts, rs))
  }

  lemma SnocStart(starts: seq<Start>, s: Start)
    ensures forall d :: AutomaticOn(starts + [s], d) == AutomaticOn(starts, d) + (if s == Start(d, true) then 1 else 0)
  {
    assert (starts + [s])[..|starts|] == starts;
  }

  lemma StaysBehind(rs: seq<Reading>, r: Reading)
    ensures forall d :: LeftBehind(rs, d) ==> LeftBehind(rs + [r], d)
    ensures forall d :: WasSent(rs, d) ==> WasSent(rs + [r], d)
    ensures forall d :: WasSent(rs, d) && d != r.sent ==> LeftBehind(rs + [r], d)
    ensures WasSent(rs + [r], r.sent)
  {
    var all := rs + [r];
    assert all[|rs|] == r;
    forall d | WasSent(rs, d)
      ensures WasSent(all, d) && (d != r.sent ==> LeftBehind(all, d))
    {
      var i :| 0 <= i < |rs| && rs[i].sent == d;
      assert all[i].sent == d;
    }
    forall d | LeftBehind(rs, d)
      ensures LeftBehind(all, d)
    {
      var i, j :| 0 <= i < j < |rs| && rs[i].sent == d != rs[j].sent;
      assert all[i] == rs[i] && all[j] == rs[j];
    }
  }

  /** A steady clock does not read a date that it left behind, and reads the date of the last start twice over. */
  lemma SteadyMeans(rs: seq<Reading>, r: Reading)
    requires Steady(rs + [r])
    ensures !LeftBehind(rs, r.sent)
    ensures WasSent(rs, r.sent) ==> r.checked == r.sent
  {
    var all := rs + [r];
    assert all[|rs|] == r;
    forall i, j | 0 <= i < j < |rs| && rs[i].sent == r.sent
      ensures rs[j].sent == r.sent
    {
      assert all[i] == rs[i] && all[j] == rs[j];
    }
    if WasSent(rs, r.sent) {
      var i :| 0 <= i < |rs| && rs[i].sent == r.sent;
      assert all[i] == rs[i];
    }
  }

  lemma SteadyPrefix(rs: seq<Reading>, r: Reading)
    requires Steady(rs + [r])
    ensures Steady(rs)
  {
    var all := rs + [r];
    assert forall i :: 0 <= i < |rs| ==> all[i] == rs[i];
  }

  lemma AttemptKeepsBudget(limits: Limits, life: Life, q: Request, rs: seq<Reading>)
    requires Budgeted(limits, life, rs) && Counted(limits, life) && Allowed(life, Attempt(q))
    requires Steady(rs + [Reading(q.checked, q.sent)])
    ensures Budgeted(limits, After(limits, life, Attempt(q)), rs + [Reading(q.checked, q.sent)])
  {
    hide Steady, LeftBehind, WasSent, Counted, AutomaticOn;
    KnownUntilGone(limits, life);
    var r, t := Reading(q.checked, q.sent), life.tick.value;
    StaysBehind(rs, r);
    SteadyMeans(rs, r);
    if Fire(limits, life.tick, q).Started? {
      SnocStart(life.starts, Start(q.sent, !q.exempt));
      assert UsedOn(t, q.sent) == AutomaticOn(life.starts, q.sent);
    }
  }

  lemma KnownUntilGone(limits: Limits, life: Life)
    requires Counted(limits, life) && !life.gone
    ensures life.tick.Some?
  {
  }

  lemma AfterKeepsBudget(limits: Limits, life: Life, h: Happening, rs: seq<Reading>)
    requires Budgeted(limits, life, rs) && Counted(limits, life) && Allowed(life, h)
    requires h.Attempt? ==> Steady(rs + [Reading(h.q.checked, h.q.sent)])
    ensures Budgeted(limits, After(limits, life, h), if h.Attempt? then rs + [Reading(h.q.checked, h.q.sent)] else rs)
  {
    hide Steady, LeftBehind, WasSent, AutomaticOn;
    if h.Attempt? {
      AttemptKeepsBudget(limits, life, h.q, rs);
    }
  }

  lemma ReadingsOfSnoc(hs: seq<Happening>, h: Happening)
    ensures Readings(hs + [h]) == Readings(hs) + (if h.Attempt? then [Reading(h.q.checked, h.q.sent)] else [])
  {
    assert (hs + [h])[..|hs|] == hs;
  }

  lemma {:induction false} SplitLives(limits: Limits, life: Life, hs: seq<Happening>, h: Happening, last: Life) returns (before: Life)
    requires Lives(limits, life, hs + [h], last)
    ensures Lives(limits, life, hs, before) && Allowed(before, h) && last == After(limits, before, h)
    decreases |hs|
  {
    if hs == [] {
      before := life;
      assert ([] + [h])[1..] == [];
    } else {
      assert (hs + [h])[1..] == hs[1..] + [h];
      before := SplitLives(limits, After(limits, life, hs[0]), hs[1..], h, last);
    }
  }

  /** With a steady clock, automatic starts on one date stay within the daily cap and the counter is true. */
  lemma {:induction false} LifeKeepsBudget(limits: Limits, hs: seq<Happening>, last: Life)
    requires Lives(limits, BORN, hs, last) && Steady(Readings(hs))
    ensures Budgeted(limits, last, Readings(hs)) && Counted(limits, last)
    decreases |hs|
  {
    hide Steady, Readings, Budgeted, Counted;
    EveryLifeIsCounted(limits, hs, last);
    if hs == [] {
      BornIsBudgeted(limits);
    } else {
      var front, h := hs[..|hs| - 1], hs[|hs| - 1];
      assert hs == front + [h];
      ReadingsOfSnoc(front, h);
      var before := SplitLives(limits, BORN, front, h, last);
      if h.Attempt? {
        SteadyPrefix(Readings(front), Reading(h.q.checked, h.q.sent));
      } else {
        assert Readings(front) + [] == Readings(front);
      }
      LifeKeepsBudget(limits, front, before);
      AfterKeepsBudget(limits, before, h, Readings(front));
    }
  }

  lemma EveryLifeIsCounted(limits: Limits, hs: seq<Happening>, last: Life)
    requires Lives(limits, BORN, hs, last)
    ensures Counted(limits, last)
  {
    LifeKeepsCounted(limits, BORN, hs, last);
  }

  lemma BornIsBudgeted(limits: Limits)
    ensures Budgeted(limits, BORN, Readings([]))
  {
  }

  /** Restarts included: while the clock does not go back, automatic starts on one date never exceed the cap. */
  lemma DailyCapHolds(limits: Limits, hs: seq<Happening>, last: Life, date: Date)
    requires Lives(limits, BORN, hs, last) && NeverBack(Readings(hs)) && limits.maxRunsPerDay.Some?
    ensures AutomaticOn(last.starts, date) <= Max(limits.maxRunsPerDay.value, 0)
  {
    NeverBackIsSteady(Readings(hs));
    LifeKeepsBudget(limits, hs, last);
  }

  /** The stored counter counts automatic starts only: manual and deferred ones neither use nor reset it. Asked
      for any date the clock may read next. */
  lemma CounterCountsAutomaticStarts(limits: Limits, hs: seq<Happening>, last: Life, date: Date)
    requires Lives(limits, BORN, hs, last) && Steady(Readings(hs) + [Reading(date, date)]) && !last.gone
    ensures last.tick.Some? && UsedOn(last.tick.value, date) == AutomaticOn(last.starts, date)
  {
    hide Steady, Readings, LeftBehind, WasSent, AutomaticOn;
    SteadyPrefix(Readings(hs), Reading(date, date));
    SteadyMeans(Readings(hs), Reading(date, date));
    LifeKeepsBudget(limits, hs, last);
  }

  // ---------------------------------------------------------------- any clock

  ghost predicate WithinCap(limits: Limits, starts: seq<Start>) {
    forall date :: limits.maxRunsPerDay.Some? ==> AutomaticOn(starts, date) <= Max(limits.maxRunsPerDay.value, 0)
  }

  ghost predicate CapAlwaysHolds(rs: seq<Reading>) {
    forall limits, hs, last :: Lives(limits, BORN, hs, last) && Readings(hs) == rs ==> WithinCap(limits, last.starts)
  }

  lemma {:induction false} LivesSnoc(limits: Limits, life: Life, hs: seq<Happening>, last: Life, h: Happening)
    requires Lives(limits, life, hs, last) && Allowed(last, h)
    ensures Lives(limits, life, hs + [h], After(limits, last, h))
    decreases |hs|
  {
    if hs == [] {
      assert ([] + [h])[1..] == [];
    } else {
      assert (hs + [h])[1..] == hs[1..] + [h];
      LivesSnoc(limits, After(limits, life, hs[0]), hs[1..], last, h);
    }
  }

  /** What an attempt is to be: refused by the sender, an automatic start, or a manual one. */
  datatype Role = Idle | Automatic | Manually

  const ONE_A_DAY := Limits(None, Some(1))

  /** The counter and its date, between two turns. */
  ghost predicate Between(life: Life, used: nat, date: Option<Date>) {
    && !life.gone && !life.open && life.tick.Some?
    && life.tick.value.runsTodayDate == date && (date.Some? ==> life.tick.value.runsToday == Some(used))
  }

  /** One more attempt, with a turn that ends at once when it starts. */
  lemma PlayOne(hs: seq<Happening>, life: Life, r: Reading, role: Role, used: nat, date: Option<Date>) returns (more: seq<Happening>, after: Life)
    requires Lives(ONE_A_DAY, BORN, hs, life) && Between(life, used, date)
    requires role.Automatic? ==> date != Some(r.checked) || used == 0
    ensures Lives(ONE_A_DAY, BORN, more, after) && Readings(more) == Readings(hs) + [r]
    ensures role.Idle? ==> Between(after, used, date) && after.starts == life.starts
    ensures !role.Idle? ==> after.starts == life.starts + [Start(r.sent, role.Automatic?)]
    ensures !role.Idle? ==> Between(after, (if date == Some(r.sent) then used else 0) + (if role.Automatic? then 1 else 0), Some(r.sent))
  {
    hide Readings, Lives;
    var attempt := Attempt(Request("", role.Manually?, r.checked, !role.Idle?, r.sent));
    LivesSnoc(ONE_A_DAY, BORN, hs, life, attempt);
    ReadingsOfSnoc(hs, attempt);
    more, after := hs + [attempt], After(ONE_A_DAY, life, attempt);
    if !role.Idle? {
      var finish := Finish(RunRecord("", Success, false));
      LivesSnoc(ONE_A_DAY, BORN, more, after, finish);
      ReadingsOfSnoc(more, finish);
      assert Readings(more) + [] == Readings(more);
      more, after := more + [finish], After(ONE_A_DAY, after, finish);
    }
  }

  /** Readings at which nothing starts. */
  lemma {:induction false} PlayIdle(hs: seq<Happening>, life: Life, rs: seq<Reading>, used: nat, date: Option<Date>) returns (more: seq<Happening>, after: Life)
    requires Lives(ONE_A_DAY, BORN, hs, life) && Between(life, used, date)
    ensures Lives(ONE_A_DAY, BORN, more, after) && Readings(more) == Readings(hs) + rs
    ensures Between(after, used, date) && after.starts == life.starts
    decreases |rs|
  {
    hide Readings, Lives, Between;
    if rs == [] {
      more, after := hs, life;
      assert Readings(hs) + rs == Readings(hs);
    } else {
      var next, one := PlayOne(hs, life, rs[0], Idle, used, date);
      more, after := PlayIdle(next, one, rs[1..], used, date);
      assert Readings(hs) + [rs[0]] + rs[1..] == Readings(hs) + rs;
    }
  }

  /** A reading between two starts on one date that checks another date lets the second start through. */
  lemma CheckElsewhereBreaksTheCap(rs: seq<Reading>, i: nat, j: nat)
    requires i < j < |rs| && rs[i].sent == rs[j].sent != rs[j].checked
    ensures !CapAlwaysHolds(rs)
  {
    hide Lives, Readings, Between;
    var d := rs[i].sent;
    BornIsBetween();
    var h1, l1 := PlayIdle([], BORN, rs[..i], 0, None);
    var h2, l2 := PlayOne(h1, l1, rs[i], Automatic, 0, None);
    var h3, l3 := PlayIdle(h2, l2, rs[i + 1..j], 1, Some(d));
    var h4, l4 := PlayOne(h3, l3, rs[j], Automatic, 1, Some(d));
    var h5, l5 := PlayIdle(h4, l4, rs[j + 1..], 2, Some(d));
    assert rs == rs[..i] + [rs[i]] + rs[i + 1..j] + [rs[j]] + rs[j + 1..];
    assert Readings(h5) == rs;
    TwoStarts(l1.starts, Start(d, true), Start(d, true), d);
    assert l5.starts == l1.starts + [Start(d, true)] + [Start(d, true)];
    assert !WithinCap(ONE_A_DAY, l5.starts);
  }

  lemma BornIsBetween()
    ensures Lives(ONE_A_DAY, BORN, [], BORN) && Between(BORN, 0, None) && Readings([]) == []
  {
  }

  lemma TwoStarts(starts: seq<Start>, a: Start, b: Start, d: Date)
    ensures AutomaticOn(starts + [a] + [b], d) == AutomaticOn(starts, d) + (if a == Start(d, true) then 1 else 0) + (if b == Start(d, true) then 1 else 0)
  {
    SnocStart(starts, a);
    SnocStart(starts + [a], b);
  }

  /** A start on another date between two starts on one date resets the counter, whoever made it. */
  lemma StartElsewhereBreaksTheCap(rs: seq<Reading>, i: nat, k: nat, j: nat)
    requires i < k < j < |rs| && rs[i].sent == rs[j].sent != rs[k].sent
    ensures !CapAlwaysHolds(rs)
  {
    hide Lives, Readings, Between;
    var d := rs[i].sent;
    BornIsBetween();
    var h1, l1 := PlayIdle([], BORN, rs[..i], 0, None);
    var h2, l2 := PlayOne(h1, l1, rs[i], Automatic, 0, None);
    var h3, l3 := PlayIdle(h2, l2, rs[i + 1..k], 1, Some(d));
    var h4, l4 := PlayOne(h3, l3, rs[k], Manually, 1, Some(d));
    var h5, l5 := PlayIdle(h4, l4, rs[k + 1..j], 0, Some(rs[k].sent));
    var h6, l6 := PlayOne(h5, l5, rs[j], Automatic, 0, Some(rs[k].sent));
    var h7, l7 := PlayIdle(h6, l6, rs[j + 1..], 1, Some(d));
    assert rs == rs[..i] + [rs[i]] + rs[i + 1..k] + [rs[k]] + rs[k + 1..j] + [rs[j]] + rs[j + 1..];
    assert Readings(h7) == rs;
    TwoStarts(l1.starts, Start(d, true), Start(rs[k].sent, false), d);
    SnocStart(l1.starts + [Start(d, true)] + [Start(rs[k].sent, false)], Start(d, true));
    assert l7.starts == l1.starts + [Start(d, true)] + [Start(rs[k].sent, false)] + [Start(d, true)];
    assert !WithinCap(ONE_A_DAY, l7.starts);
  }

  /** The clocks that keep every cap, whatever happens at their readings, are exactly the steady ones. */
  lemma CapHoldsIffSteady(rs: seq<Reading>)
    ensures CapAlwaysHolds(rs) <==> Steady(rs)
  {
    if Steady(rs) {
      forall limits, hs, last | Lives(limits, BORN, hs, last) && Readings(hs) == rs
        ensures WithinCap(limits, last.starts)
      {
        LifeKeepsBudget(limits, hs, last);
      }
    } else if i, j :| 0 <= i < j < |rs| && rs[i].sent == rs[j].sent != rs[j].checked {
      CheckElsewhereBreaksTheCap(rs, i, j);
    } else {
      var i, k, j :| 0 <= i < k < j < |rs| && rs[i].sent == rs[j].sent != rs[k].sent;
      StartElsewhereBreaksTheCap(rs, i, k, j);
    }
  }

  // ---------------------------------------------------------------- back-off

  function Power(n: nat): nat {
    if n == 0 then 1 else BACKOFF_FACTOR * Power(n - 1)
  }

  function PulseDelay(interval: int, silent: nat, errored: nat): int {
    var streak := Max(silent, errored);
    if streak < BACKOFF_THRESHOLD then interval
    else Min(interval * Min(BACKOFF_MAX_MULTIPLIER, Power(streak - BACKOFF_THRESHOLD + 1)), BACKOFF_MAX_INTERVAL_MS)
  }

  lemma {:induction false} PowerAtLeastTwo(n: nat)
    requires n >= 1
    ensures Power(n) >= 2
  {
    if n > 1 {
      PowerAtLeastTwo(n - 1);
    }
  }

  /** The promise that quiet ticks lengthen the interval is not kept: each start forgets the count, so a
      streak of silent runs never reaches the threshold and the delay depends on failed runs alone. */
  lemma SilentRunsNeverBackOff(limits: Limits, hs: seq<Happening>, last: Life, interval: int)
    requires Lives(limits, BORN, hs, last) && !last.gone
    ensures last.tick.Some? && last.tick.value.silentTicks < BACKOFF_THRESHOLD
    ensures PulseDelay(interval, last.tick.value.silentTicks, last.tick.value.errorTicks) == PulseDelay(interval, 0, last.tick.value.errorTicks)
  {
    LifeKeepsCounted(limits, BORN, hs, last);
  }

  /** Back-off lengthens the delay unless the interval is already above the ceiling; then it shortens it. */
  lemma BackoffShortensIff(interval: int, silent: nat, errored: nat)
    requires interval > 0
    ensures PulseDelay(interval, silent, errored) < interval <==>
            Max(silent, errored) >= BACKOFF_THRESHOLD && interval > BACKOFF_MAX_INTERVAL_MS
  {
    var streak := Max(silent, errored);
    if streak >= BACKOFF_THRESHOLD {
      PowerAtLeastTwo(streak - BACKOFF_THRESHOLD + 1);
      var factor := Min(BACKOFF_MAX_MULTIPLIER, Power(streak - BACKOFF_THRESHOLD + 1));
      assert factor >= 2;
      assert interval * factor >= interval * 2;
    }
  }
}
