// What a restart brings back of the queue that a teardown left on disk.
module Rehydrate {
  import opened Common
  import opened FireBudget
  import opened FireState
  import opened FireInvariants
  import opened FireActions
  import opened FireDeferred
  import opened FireTeardown
  import J = Json
  import S = StoreSanitizer

  const MAX_QUEUED_FIRE_AGE_MS := 24 * 60 * 60_000

  // ---------------------------------------------------------------- one entry on disk

  function KindName(k: Kind): string {
    match k
    case Pulse => "pulse"
    case Cron => "cron"
    case OneOff => "oneoff"
    case Hook => "hook"
    case Github => "github"
    case Api => "api"
    case Manual => "manual"
  }

  function KindNamed(s: string): Kind {
    if s == "pulse" then Pulse else if s == "cron" then Cron else if s == "oneoff" then OneOff
    else if s == "hook" then Hook else if s == "github" then Github else if s == "api" then Api else Manual
  }

  function OnceName(o: Once): string {
    if o == Daily then "daily" else "per_session"
  }

  function TextOf(v: Option<string>): Option<J.Json> {
    if v.Some? then Some(J.Str(v.value)) else None
  }

  function EncodeOrigin(e: Entry): J.Json {
    J.Obj(map[J.Index := J.WholeNumber(e.index), J.KindKey := J.Str(KindName(e.kind))])
  }

  /** What each member of a saved entry is. */
  function Member(e: Entry, k: J.Key): Option<J.Json> {
    match k
    case RoutineIdKey => Some(J.Str(e.routine))
    case RunIdKey => Some(J.Str(e.run))
    case Origin => Some(EncodeOrigin(e))
    case QueuedAt => if e.queuedAt.Some? then Some(J.WholeNumber(e.queuedAt.value)) else None
    case DeferredHookId => TextOf(e.deferred)
    case ApiArgs => e.payload.apiArgs
    case GithubEvent => e.payload.githubEvent
    case ContextNote => TextOf(e.payload.contextNote)
    case HookOnceKey => TextOf(e.payload.onceKey)
    case HookOnceMode => if e.payload.once.Some? then Some(J.Str(OnceName(e.payload.once.value))) else None
    case _ => None
  }

  /** An entry as the saved store holds it; members that are absent are not written. */
  function Encode(e: Entry): (v: J.Json)
    ensures v.Obj?
  {
    J.Obj(J.ObjectOf(k => Member(e, k), ENTRY_KEYS))
  }

  const ENTRY_KEYS: set<J.Key> :=
    {J.RoutineIdKey, J.RunIdKey, J.Origin, J.QueuedAt, J.DeferredHookId, J.ApiArgs, J.GithubEvent, J.ContextNote, J.HookOnceKey, J.HookOnceMode}

  function NumberAt(o: map<J.Key, J.Json>, k: J.Key): Option<int> {
    match J.Get(o, k)
    case Some(Num(Finite(x))) => Some(x.Floor)
    case _ => None
  }

  function TextAt(o: map<J.Key, J.Json>, k: J.Key): Option<string> {
    match J.Get(o, k)
    case Some(Str(s)) => Some(s)
    case _ => None
  }

  function Or<T>(v: Option<T>, default: T): T {
    if v.Some? then v.value else default
  }

  /** Reading an accepted entry back. */
  function Decode(v: J.Json): Entry {
    var o := if v.Obj? then v.fields else map[];
    var origin := if J.IsObj(J.Get(o, J.Origin)) then o[J.Origin].fields else map[];
    var once := TextAt(o, J.HookOnceMode);
    Entry(Or(TextAt(o, J.RoutineIdKey), ""), Or(TextAt(o, J.RunIdKey), ""), Or(NumberAt(origin, J.Index), 0),
          KindNamed(Or(TextAt(origin, J.KindKey), "")), NumberAt(o, J.QueuedAt),
          Payload(J.Get(o, J.ApiArgs), J.Get(o, J.GithubEvent), TextAt(o, J.ContextNote), TextAt(o, J.HookOnceKey),
                  if once.None? then None else Some(if once.value == "daily" then Daily else PerSession)),
          TextAt(o, J.DeferredHookId))
  }

  /** What the callers put into an entry: an index or -1, a time, object payloads. */
  predicate WellFormed(e: Entry) {
    && e.index >= -1
    && (e.queuedAt.Some? ==> e.queuedAt.value >= 0)
    && (e.payload.apiArgs.Some? ==> e.payload.apiArgs.value.Obj?)
    && (e.payload.githubEvent.Some? ==> e.payload.githubEvent.value.Obj?)
  }

  lemma EncodeMember(e: Entry, k: J.Key)
    ensures J.Get(Encode(e).fields, k) == Member(e, k)
  {
    hide TextOf, J.WholeNumber, OnceName, EncodeOrigin;
    assert Member(e, k).Some? ==> k in ENTRY_KEYS;
  }

  /** Every member of an encoded entry reads back as what was written. */
  lemma EncodeGets(e: Entry)
    ensures var o := Encode(e).fields;
            && J.Get(o, J.RoutineIdKey) == Some(J.Str(e.routine)) && J.Get(o, J.RunIdKey) == Some(J.Str(e.run))
            && J.Get(o, J.Origin) == Some(EncodeOrigin(e))
            && J.Get(o, J.QueuedAt) == (if e.queuedAt.Some? then Some(J.WholeNumber(e.queuedAt.value)) else None)
            && J.Get(o, J.DeferredHookId) == TextOf(e.deferred)
  {
    hide J.Get, J.ObjectOf, ENTRY_KEYS, TextOf, J.WholeNumber, OnceName, EncodeOrigin, Encode;
    EncodeMember(e, J.RoutineIdKey);
    EncodeMember(e, J.RunIdKey);
    EncodeMember(e, J.Origin);
    EncodeMember(e, J.QueuedAt);
    EncodeMember(e, J.DeferredHookId);
  }

  lemma EncodePayloadGets(e: Entry)
    ensures var o := Encode(e).fields;
            && J.Get(o, J.ApiArgs) == e.payload.apiArgs && J.Get(o, J.GithubEvent) == e.payload.githubEvent
            && J.Get(o, J.ContextNote) == TextOf(e.payload.contextNote) && J.Get(o, J.HookOnceKey) == TextOf(e.payload.onceKey)
            && J.Get(o, J.HookOnceMode) == (if e.payload.once.Some? then Some(J.Str(OnceName(e.payload.once.value))) else None)
  {
    hide J.Get, J.ObjectOf, ENTRY_KEYS, TextOf, J.WholeNumber, OnceName, EncodeOrigin, Encode;
    EncodeMember(e, J.ApiArgs);
    EncodeMember(e, J.GithubEvent);
    EncodeMember(e, J.ContextNote);
    EncodeMember(e, J.HookOnceKey);
    EncodeMember(e, J.HookOnceMode);
  }

  lemma NamesRoundTrip(e: Entry)
    ensures KindNamed(KindName(e.kind)) == e.kind
    ensures KindName(e.kind) in S.ORIGIN_KINDS
    ensures forall o: Once :: OnceName(o) in S.ONCE_MODES && (OnceName(o) == "daily" <==> o == Daily)
  {
  }

  lemma OriginGets(e: Entry)
    ensures EncodeOrigin(e).Obj?
    ensures var o := EncodeOrigin(e).fields;
            J.Get(o, J.Index) == Some(J.WholeNumber(e.index)) && J.Get(o, J.KindKey) == Some(J.Str(KindName(e.kind)))
  {
  }

  /** Saving and reading back loses nothing: routine, run id, origin, time, payloads, once-marker. */
  lemma DecodeEncode(e: Entry)
    ensures Decode(Encode(e)) == e
  {
    hide Encode, EncodeOrigin, KindName, KindNamed, OnceName, J.WholeNumber, Member;
    EncodeGets(e);
    EncodePayloadGets(e);
    OriginGets(e);
    NamesRoundTrip(e);
    J.WholeNumberFacts(e.index);
    J.WholeNumberFacts(if e.queuedAt.Some? then e.queuedAt.value else 0);
  }

  /** The load accepts a well-formed entry exactly when its routine is still there and it is not a deferred one. */
  lemma AcceptedIff(h: S.Host, e: Entry, routines: map<J.Key, J.Json>)
    requires WellFormed(e)
    ensures S.ValidQueueEntry(h, Encode(e), routines) <==> h.keyOf(e.routine) in routines && e.deferred.None?
  {
    hide Encode, EncodeOrigin, KindName, OnceName, J.WholeNumber, Member, J.IsInteger, J.IsFinite;
    EncodeGets(e);
    EncodePayloadGets(e);
    OriginGets(e);
    NamesRoundTrip(e);
    J.WholeNumberFacts(e.index);
    J.WholeNumberFacts(if e.queuedAt.Some? then e.queuedAt.value else 0);
    assert S.ValidOrigin(Some(EncodeOrigin(e)));
  }

  function EncodeAll(es: seq<Entry>): (r: seq<J.Json>)
    ensures |r| == |es| && forall i :: 0 <= i < |es| ==> r[i] == Encode(es[i])
  {
    seq(|es|, i requires 0 <= i < |es| => Encode(es[i]))
  }

  function DecodeAll(vs: seq<J.Json>): (r: seq<Entry>)
    ensures |r| == |vs| && forall i :: 0 <= i < |vs| ==> r[i] == Decode(vs[i])
  {
    seq(|vs|, i requires 0 <= i < |vs| => Decode(vs[i]))
  }

  /** The entries whose routine is still known. */
  function Alive(es: seq<Entry>, known: set<RoutineId>): seq<Entry> {
    if es == [] then []
    else if es[0].routine in known then [es[0]] + Alive(es[1..], known)
    else Alive(es[1..], known)
  }

  lemma {:induction false} LoadKeepsAlive(h: S.Host, es: seq<Entry>, routines: map<J.Key, J.Json>, known: set<RoutineId>)
    requires forall i :: 0 <= i < |es| ==> WellFormed(es[i]) && es[i].deferred.None?
    requires forall i :: 0 <= i < |es| ==> (es[i].routine in known <==> h.keyOf(es[i].routine) in routines)
    ensures S.ValidEntries(h, EncodeAll(es), routines) == EncodeAll(Alive(es, known))
  {
    hide S.ValidQueueEntry, Encode, WellFormed;
    if es == [] {
      assert EncodeAll(es) == [];
    } else {
      LoadKeepsAlive(h, es[1..], routines, known);
      assert EncodeAll(es)[1..] == EncodeAll(es[1..]);
      AcceptedIff(h, es[0], routines);
      assert EncodeAll([es[0]] + Alive(es[1..], known)) == [Encode(es[0])] + EncodeAll(Alive(es[1..], known));
    }
  }

  lemma {:induction false} AliveIsShort(es: seq<Entry>, known: set<RoutineId>)
    ensures |Alive(es, known)| <= |es|
  {
    if es != [] {
      AliveIsShort(es[1..], known);
    }
  }

  /** What a load finds of a saved queue: the entries of known routines, in order. */
  lemma LoadedQueue(h: S.Host, es: seq<Entry>, routines: map<J.Key, J.Json>, known: set<RoutineId>)
    requires |es| <= MAX_QUEUE_DEPTH
    requires forall i :: 0 <= i < |es| ==> WellFormed(es[i]) && es[i].deferred.None?
    requires forall i :: 0 <= i < |es| ==> (es[i].routine in known <==> h.keyOf(es[i].routine) in routines)
    ensures DecodeAll(S.PendingQueueOf(h, Some(J.Arr(EncodeAll(es))), routines)) == Alive(es, known)
  {
    hide S.ValidEntries, Encode, Decode, WellFormed;
    LoadKeepsAlive(h, es, routines, known);
    AliveIsShort(es, known);
    forall i | 0 <= i < |Alive(es, known)|
      ensures Decode(Encode(Alive(es, known)[i])) == Alive(es, known)[i]
    {
      DecodeEncode(Alive(es, known)[i]);
    }
  }

  // ---------------------------------------------------------------- rehydration

  datatype Fate = Unknown | Superseded | PausedOut | Expired | Duplicate | Kept

  /** API and GitHub fires may stack; every other origin fires once a routine at a time. */
  predicate Stacks(k: Kind) {
    k == Api || k == Github
  }

  function QueuedTime(e: Entry, now: int): int {
    if e.queuedAt.Some? then e.queuedAt.value else now
  }

  function FateOf(routines: map<RoutineId, Routine>, queue: seq<Entry>, seen: set<RoutineId>, e: Entry, now: int): Fate {
    if e.routine !in routines then Unknown
    else
      var r := routines[e.routine];
      if e.kind == Hook && 0 <= e.index < |r.triggers| && r.triggers[e.index] == Trigger(Hook, SessionStart) then Superseded
      else if r.paused then PausedOut
      else if now - QueuedTime(e, now) > MAX_QUEUED_FIRE_AGE_MS then Expired
      else if !Stacks(e.kind) && (e.routine in seen || HasRoutine(queue, e.routine)) then Duplicate
      else Kept
  }

  function Refreshed(e: Entry, now: int): Entry {
    e.(queuedAt := Some(QueuedTime(e, now)), deferred := None)
  }

  function RehydrateOne(s: State, seen: set<RoutineId>, e: Entry, now: int): (State, set<RoutineId>) {
    match FateOf(s.routines, s.queue, seen, e, now)
    case Unknown => (s, seen)
    case Kept => (Enqueue(s, Refreshed(e, now), false), seen + {e.routine})
    case _ => (Audit(s, e.routine, e.run), seen)
  }

  /** After the first `n` persisted entries. */
  function RehydrateUpTo(s: State, es: seq<Entry>, n: nat, now: int): (State, set<RoutineId>)
    requires n <= |es|
  {
    if n == 0 then (s, {})
    else
      var (t, seen) := RehydrateUpTo(s, es, n - 1, now);
      RehydrateOne(t, seen, es[n - 1], now)
  }

  function RehydrateQueue(s: State, now: int): State {
    if s.mirror == [] then s else RehydrateUpTo(s.(mirror := []), s.mirror, |s.mirror|, now).0
  }

  // ---------------------------------------------------------------- the reference: who survives

  /** Everything but the duplicate test: its routine is known and not paused, it is at most a day old, and it is not a
      session-start hook, which this session picks afresh. */
  predicate Passes(routines: map<RoutineId, Routine>, e: Entry, now: int) {
    && e.routine in routines && !routines[e.routine].paused
    && (e.queuedAt.Some? ==> now <= e.queuedAt.value + 86_400_000)
    && !(e.kind == Hook && 0 <= e.index < |routines[e.routine].triggers|
         && routines[e.routine].triggers[e.index].kind == Hook && routines[e.routine].triggers[e.index].event == SessionStart)
  }

  /** Entry `i` survives if it passes and, unless it may stack, no earlier entry of its routine survives. */
  predicate Survives(routines: map<RoutineId, Routine>, es: seq<Entry>, i: nat, now: int)
    requires i < |es|
    decreases i
  {
    && Passes(routines, es[i], now)
    && (es[i].kind == Api || es[i].kind == Github || forall j :: 0 <= j < i && es[j].routine == es[i].routine ==> !Survives(routines, es, j, now))
  }

  /** As it was saved; a fire without a time counts as queued now. */
  function ComesBack(e: Entry, now: int): Entry {
    Entry(e.routine, e.run, e.index, e.kind, Some(if e.queuedAt.Some? then e.queuedAt.value else now), e.payload, None)
  }

  function Survivors(routines: map<RoutineId, Routine>, es: seq<Entry>, n: nat, now: int): seq<Entry>
    requires n <= |es|
  {
    if n == 0 then []
    else Survivors(routines, es, n - 1, now) + (if Survives(routines, es, n - 1, now) then [ComesBack(es[n - 1], now)] else [])
  }

  /** The run ids of the known entries among the first `n` that do not survive. */
  function Refused(routines: map<RoutineId, Routine>, es: seq<Entry>, n: nat, now: int): multiset<RunId>
    requires n <= |es|
  {
    if n == 0 then multiset{}
    else Refused(routines, es, n - 1, now)
         + (if es[n - 1].routine in routines && !Survives(routines, es, n - 1, now) then multiset{es[n - 1].run} else multiset{})
  }

  lemma {:induction false} SurvivorsOfRoutine(routines: map<RoutineId, Routine>, es: seq<Entry>, n: nat, now: int, r: RoutineId)
    requires n <= |es|
    ensures HasRoutine(Survivors(routines, es, n, now), r) <==> exists j :: 0 <= j < n && es[j].routine == r && Survives(routines, es, j, now)
  {
    hide Passes;
    if n > 0 {
      SurvivorsOfRoutine(routines, es, n - 1, now, r);
      var before := Survivors(routines, es, n - 1, now);
      var after := Survivors(routines, es, n, now);
      assert forall i :: 0 <= i < |before| ==> after[i] == before[i];
      if Survives(routines, es, n - 1, now) {
        assert after[|before|] == Refreshed(es[n - 1], now);
      }
    }
  }

  lemma {:induction false} SurvivorsAreFew(routines: map<RoutineId, Routine>, es: seq<Entry>, n: nat, now: int)
    requires n <= |es|
    ensures |Survivors(routines, es, n, now)| <= n
  {
    if n > 0 {
      SurvivorsAreFew(routines, es, n - 1, now);
    }
  }

  /** With an empty queue at the start the duplicate test of the code is the one of the reference. */
  lemma FateIsSurvival(routines: map<RoutineId, Routine>, es: seq<Entry>, n: nat, now: int, seen: set<RoutineId>)
    requires n < |es|
    requires forall r :: r in seen <==> HasRoutine(Survivors(routines, es, n, now), r)
    ensures FateOf(routines, Survivors(routines, es, n, now), seen, es[n], now).Kept? <==> Survives(routines, es, n, now)
    ensures FateOf(routines, Survivors(routines, es, n, now), seen, es[n], now).Unknown? <==> es[n].routine !in routines
  {
    SurvivorsOfRoutine(routines, es, n, now, es[n].routine);
    var queue := Survivors(routines, es, n, now);
    var fate := FateOf(routines, queue, seen, es[n], now);
    assert Passes(routines, es[n], now) <==> fate.Kept? || fate.Duplicate?;
  }

  ghost predicate Progress(s: State, t: State, seen: set<RoutineId>, es: seq<Entry>, n: nat, now: int)
    requires n <= |es|
  {
    && t.queue == Survivors(s.routines, es, n, now) && t.routines == s.routines
    && (forall r :: r in seen <==> HasRoutine(t.queue, r))
    && t.h.audited == s.h.audited + Refused(s.routines, es, n, now)
    && t.h.issued == s.h.issued + Ids(t.queue)
  }

  /** An entry of a routine that waits in the queue, or came back before it in the list, does not come back, unless its kind stacks. */
  lemma WaitingRoutineIsNotQueuedAgain(s: State, seen: set<RoutineId>, e: Entry, now: int)
    requires e.kind != Api && e.kind != Github && (HasRoutine(s.queue, e.routine) || e.routine in seen)
    ensures RehydrateOne(s, seen, e, now).0.queue == s.queue && RehydrateOne(s, seen, e, now).1 == seen
  {
    AuditIs(s, e.routine, e.run);
  }

  lemma EnqueueIsAppend(s: State, e: Entry)
    requires |s.queue| < MAX_QUEUE_DEPTH
    ensures var t := Enqueue(s, e, false);
            && t.queue == s.queue + [e] && t.routines == s.routines
            && t.h.audited == s.h.audited && t.h.issued == s.h.issued + multiset{e.run}
  {
  }

  lemma ProgressStep(s: State, t: State, seen: set<RoutineId>, es: seq<Entry>, n: nat, now: int)
    requires n < |es| <= MAX_QUEUE_DEPTH && Progress(s, t, seen, es, n, now)
    ensures var (t2, seen2) := RehydrateOne(t, seen, es[n], now); Progress(s, t2, seen2, es, n + 1, now)
  {
    hide Enqueue, Survives, FateOf, Ids;
    hide Refused, Survivors, HasRoutine, Audit;
    var e := Refreshed(es[n], now);
    SurvivorsStep(s.routines, es, n, now);
    AuditIs(t, es[n].routine, es[n].run);
    SurvivorsAreFew(s.routines, es, n, now);
    FateIsSurvival(s.routines, es, n, now, seen);
    EnqueueIsAppend(t, e);
    IdsOfConcat(t.queue, [e]);
    IdsOfOne(e);
    HasRoutineOfSnoc(t.queue, e);
  }

  lemma SurvivorsStep(routines: map<RoutineId, Routine>, es: seq<Entry>, n: nat, now: int)
    requires n < |es|
    ensures Survivors(routines, es, n + 1, now) ==
            Survivors(routines, es, n, now) + (if Survives(routines, es, n, now) then [Refreshed(es[n], now)] else [])
    ensures Refused(routines, es, n + 1, now) ==
            Refused(routines, es, n, now)
            + (if es[n].routine in routines && !Survives(routines, es, n, now) then multiset{es[n].run} else multiset{})
  {
  }

  lemma AuditIs(s: State, routine: RoutineId, id: RunId)
    ensures var t := Audit(s, routine, id);
            && t.queue == s.queue && t.routines == s.routines
            && t.h.audited == s.h.audited + multiset{id} && t.h.issued == s.h.issued
  {
  }

  lemma IdsOfOne(e: Entry)
    ensures Ids([e]) == multiset{e.run}
  {
    assert [e][1..] == [];
  }

  lemma HasRoutineOfSnoc(queue: seq<Entry>, e: Entry)
    ensures forall r :: HasRoutine(queue + [e], r) <==> HasRoutine(queue, r) || r == e.routine
  {
    var all := queue + [e];
    assert all[|queue|] == e;
    forall r | HasRoutine(queue, r)
      ensures HasRoutine(all, r)
    {
      var i :| 0 <= i < |queue| && queue[i].routine == r;
      assert all[i].routine == r;
    }
  }

  lemma {:induction false} RehydrateProgress(s: State, es: seq<Entry>, n: nat, now: int)
    requires s.queue == [] && n <= |es| <= MAX_QUEUE_DEPTH
    ensures var (t, seen) := RehydrateUpTo(s, es, n, now); Progress(s, t, seen, es, n, now)
  {
    hide RehydrateOne, Refused;
    if n == 0 {
      assert Survivors(s.routines, es, 0, now) == [];
      NothingRefused(s.routines, es, now);
    } else {
      RehydrateProgress(s, es, n - 1, now);
      var (t, seen) := RehydrateUpTo(s, es, n - 1, now);
      ProgressStep(s, t, seen, es, n - 1, now);
    }
  }

  lemma NothingRefused(routines: map<RoutineId, Routine>, es: seq<Entry>, now: int)
    ensures Refused(routines, es, 0, now) == multiset{}
  {
  }

  /** Rehydration fills the empty queue with exactly the survivors, in order, and logs each known entry it refuses. */
  lemma RehydrateYields(s: State, now: int)
    requires s.queue == [] && |s.mirror| <= MAX_QUEUE_DEPTH
    ensures var t := RehydrateQueue(s, now);
            && t.queue == Survivors(s.routines, s.mirror, |s.mirror|, now)
            && t.h.audited == s.h.audited + Refused(s.routines, s.mirror, |s.mirror|, now)
            && t.h.issued == s.h.issued + Ids(t.queue)
  {
    RehydrateProgress(s.(mirror := []), s.mirror, |s.mirror|, now);
  }

  lemma {:induction false} RehydrateKeepsInvUpTo(s: State, es: seq<Entry>, n: nat, now: int, one: RunId)
    requires Inv(s, one) && n <= |es|
    ensures Inv(RehydrateUpTo(s, es, n, now).0, one)
  {
    hide Enqueue, Audit, FateOf;
    if n > 0 {
      RehydrateKeepsInvUpTo(s, es, n - 1, now, one);
      var t := RehydrateUpTo(s, es, n - 1, now).0;
      EnqueueKeepsInv(t, Refreshed(es[n - 1], now), false, one);
      AuditKeepsInv(t, es[n - 1].routine, es[n - 1].run, one);
    }
  }

  /** The rehydrated session satisfies the invariant of the fire queue. */
  lemma RehydrateKeepsInv(s: State, now: int, one: RunId)
    requires Inv(s.(mirror := [], stopped := false), one) && s.queue == [] && !s.stopped
    ensures Inv(RehydrateQueue(s, now), one)
  {
    var t := s.(mirror := []);
    assert t == s.(mirror := [], stopped := false);
    RehydrateKeepsInvUpTo(t, s.mirror, |s.mirror|, now, one);
  }

  // ---------------------------------------------------------------- restarting twice

  /** A list that rehydration leaves alone. */
  ghost predicate Settled(routines: map<RoutineId, Routine>, es: seq<Entry>, now: int) {
    && (forall i :: 0 <= i < |es| ==> Passes(routines, es[i], now) && es[i].queuedAt.Some? && es[i].deferred.None?)
    && (forall i, j :: 0 <= i < j < |es| && es[i].routine == es[j].routine ==> Stacks(es[j].kind))
  }

  lemma {:induction false} SettledSurvives(routines: map<RoutineId, Routine>, es: seq<Entry>, n: nat, now: int)
    requires Settled(routines, es, now) && n <= |es|
    ensures Survivors(routines, es, n, now) == es[..n]
    ensures Refused(routines, es, n, now) == multiset{}
  {
    hide Passes;
    if n > 0 {
      SettledSurvives(routines, es, n - 1, now);
      assert Survives(routines, es, n - 1, now);
      assert Refreshed(es[n - 1], now) == es[n - 1];
      assert es[..n] == es[..n - 1] + [es[n - 1]];
    }
  }

  lemma RefreshedPasses(routines: map<RoutineId, Routine>, e: Entry, now: int)
    ensures Passes(routines, Refreshed(e, now), now) <==> Passes(routines, e, now)
  {
  }

  lemma {:induction false} SurvivorsAreSettled(routines: map<RoutineId, Routine>, es: seq<Entry>, n: nat, now: int)
    requires n <= |es|
    ensures Settled(routines, Survivors(routines, es, n, now), now)
  {
    hide Passes;
    if n > 0 {
      SurvivorsAreSettled(routines, es, n - 1, now);
      var before := Survivors(routines, es, n - 1, now);
      var e := es[n - 1];
      if Survives(routines, es, n - 1, now) {
        RefreshedPasses(routines, e, now);
        SurvivorsOfRoutine(routines, es, n - 1, now, e.routine);
        assert Stacks(e.kind) || !HasRoutine(before, e.routine);
      }
    }
  }

  /** Unknown entries do not survive anyway, so the load's own filter changes nothing. */
  lemma {:induction false} AliveSurvivors(routines: map<RoutineId, Routine>, es: seq<Entry>, now: int)
    ensures Survivors(routines, Alive(es, routines.Keys), |Alive(es, routines.Keys)|, now) == Survivors(routines, es, |es|, now)
    ensures Refused(routines, Alive(es, routines.Keys), |Alive(es, routines.Keys)|, now) == Refused(routines, es, |es|, now)
    decreases |es|
  {
    hide Survivors, Refused, Alive, Survives;
    if es == [] {
      assert Alive(es, routines.Keys) == [] by {
        AliveIsShort(es, routines.Keys);
      }
    } else {
      var n := |es| - 1;
      AliveSurvivors(routines, es[..n], now);
      assert es == es[..n] + [es[n]];
      OneMoreAlive(routines, es[..n], es[n], now);
    }
  }

  lemma OneMoreAlive(routines: map<RoutineId, Routine>, front: seq<Entry>, e: Entry, now: int)
    requires var kept := Alive(front, routines.Keys);
             && Survivors(routines, kept, |kept|, now) == Survivors(routines, front, |front|, now)
             && Refused(routines, kept, |kept|, now) == Refused(routines, front, |front|, now)
    ensures var kept := Alive(front + [e], routines.Keys);
            && Survivors(routines, kept, |kept|, now) == Survivors(routines, front + [e], |front| + 1, now)
            && Refused(routines, kept, |kept|, now) == Refused(routines, front + [e], |front| + 1, now)
  {
    hide Survivors, Refused, Alive, HasRoutine;
    var kept := Alive(front, routines.Keys);
    AliveOfSnoc(front, e, routines.Keys);
    PrefixSurvivors(routines, front, [e], |front|, now);
    SurvivorsStep(routines, front + [e], |front|, now);
    if e.routine in routines {
      PrefixSurvivors(routines, kept, [e], |kept|, now);
      SurvivorsStep(routines, kept + [e], |kept|, now);
      LastSurvivesAlike(routines, front, kept, e, now);
    } else {
      assert (front + [e])[|front|] == e;
      assert !Survives(routines, front + [e], |front|, now);
      assert kept + [] == kept;
    }
  }

  /** Whether the last entry survives depends only on the survivors before it. */
  lemma LastSurvivesAlike(routines: map<RoutineId, Routine>, a: seq<Entry>, b: seq<Entry>, e: Entry, now: int)
    requires Survivors(routines, a + [e], |a|, now) == Survivors(routines, b + [e], |b|, now)
    ensures Survives(routines, a + [e], |a|, now) <==> Survives(routines, b + [e], |b|, now)
  {
    hide Survivors, Passes, HasRoutine;
    SurvivorsOfRoutine(routines, a + [e], |a|, now, e.routine);
    SurvivorsOfRoutine(routines, b + [e], |b|, now, e.routine);
    assert (a + [e])[|a|] == e && (b + [e])[|b|] == e;
  }

  lemma {:induction false} AliveOfSnoc(es: seq<Entry>, e: Entry, known: set<RoutineId>)
    ensures Alive(es + [e], known) == Alive(es, known) + (if e.routine in known then [e] else [])
  {
    if es == [] {
      assert [e][1..] == [];
    } else {
      AliveOfSnoc(es[1..], e, known);
      assert (es + [e])[1..] == es[1..] + [e];
    }
  }

  lemma {:induction false} PrefixSurvives(routines: map<RoutineId, Routine>, es: seq<Entry>, more: seq<Entry>, i: nat, now: int)
    requires i < |es|
    ensures Survives(routines, es + more, i, now) <==> Survives(routines, es, i, now)
    decreases i
  {
    hide Passes;
    forall j | 0 <= j < i
      ensures Survives(routines, es + more, j, now) <==> Survives(routines, es, j, now)
    {
      PrefixSurvives(routines, es, more, j, now);
    }
  }

  lemma {:induction false} PrefixSurvivors(routines: map<RoutineId, Routine>, es: seq<Entry>, more: seq<Entry>, n: nat, now: int)
    requires n <= |es|
    ensures Survivors(routines, es + more, n, now) == Survivors(routines, es, n, now)
    ensures Refused(routines, es + more, n, now) == Refused(routines, es, n, now)
  {
    if n > 0 {
      PrefixSurvivors(routines, es, more, n - 1, now);
      PrefixSurvives(routines, es, more, n - 1, now);
    }
  }

  // ---------------------------------------------------------------- teardown, load, rehydrate

  /** A session start on a loaded store, before anything fires. */
  function NewSession(routines: map<RoutineId, Routine>, ticks: map<RoutineId, TickState>, hooks: seq<DeferredHook>, queue: seq<Entry>): State {
    State(routines, ticks, [], queue, hooks, map[], Resting, false, false, None, false,
          History(multiset{}, multiset{}, multiset{}, multiset{}, multiset{}))
  }

  /** The tick states a load makes: one for each known routine, a fresh one where none was stored. */
  function ReloadedTicks(ticks: map<RoutineId, TickState>, known: set<RoutineId>): map<RoutineId, TickState> {
    map r | r in known :: if r in ticks then Reloaded(ticks[r]) else FRESH
  }

  /** The load of the store as state `d` leaves it, and the rehydration that follows. */
  function Restart(h: S.Host, d: State, routines: map<J.Key, J.Json>, known: map<RoutineId, Routine>, now: int): State {
    var loaded := DecodeAll(S.PendingQueueOf(h, Some(J.Arr(EncodeAll(d.mirror))), routines));
    RehydrateQueue(NewSession(known, ReloadedTicks(d.ticks, known.Keys), d.hooks, loaded), now)
  }

  /** From the teardown of `s` to the process end in `d` no event rewrote the saved queue. */
  ghost predicate TornDown(s: State, es: seq<Event>, d: State) {
    Runs(Shutdown(s), es, d) && Undisturbed(Shutdown(s), es)
  }

  lemma TornDownKeepsSaved(s: State, es: seq<Event>, d: State)
    requires Sound(s) && !s.stopped && TornDown(s, es, d)
    ensures d.mirror == Normals(s.queue)
  {
    hide Runs, Undisturbed, Normals;
    TeardownKeepsTheMirror(s);
    UndisturbedKeepsSaved(Shutdown(s), es, d);
  }

  ghost predicate SavedWell(h: S.Host, es: seq<Entry>, routines: map<J.Key, J.Json>, known: map<RoutineId, Routine>) {
    forall i :: 0 <= i < |es| ==> WellFormed(es[i]) && (es[i].routine in known <==> h.keyOf(es[i].routine) in routines)
  }

  lemma {:induction false} NormalsFacts(queue: seq<Entry>)
    ensures |Normals(queue)| <= |queue|
    ensures forall i :: 0 <= i < |Normals(queue)| ==> Normals(queue)[i].deferred.None?
  {
    if queue != [] {
      NormalsFacts(queue[1..]);
    }
  }

  /** After a restart the queue is the old normal queue, in the same order, without exactly the entries that
      do not survive; every refused entry of a known routine is logged. */
  lemma RestartYields(h: S.Host, s: State, es: seq<Event>, d: State, routines: map<J.Key, J.Json>, known: map<RoutineId, Routine>, now: int)
    requires Sound(s) && !s.stopped && TornDown(s, es, d) && SavedWell(h, Normals(s.queue), routines, known)
    ensures var waiting := Normals(s.queue);
            var t := Restart(h, d, routines, known, now);
            && t.queue == Survivors(known, waiting, |waiting|, now)
            && t.h.audited == Refused(known, waiting, |waiting|, now)
            && t.h.issued == Ids(t.queue)
  {
    hide Survivors, Refused, RehydrateQueue, Survives, Encode, Decode, WellFormed, TornDown, Sound, ReloadedTicks;
    var waiting := Normals(s.queue);
    TornDownKeepsSaved(s, es, d);
    NormalsFacts(s.queue);
    SoundIsShort(s);
    LoadedQueue(h, waiting, routines, known.Keys);
    AliveIsShort(waiting, known.Keys);
    RehydrateYields(NewSession(known, ReloadedTicks(d.ticks, known.Keys), d.hooks, Alive(waiting, known.Keys)), now);
    AliveSurvivors(known, waiting, now);
  }

  lemma SoundIsShort(s: State)
    requires Sound(s)
    ensures |s.queue| <= MAX_QUEUE_DEPTH
  {
  }

  lemma {:induction false} SurvivorsSavedWell(h: S.Host, es: seq<Entry>, n: nat, routines: map<J.Key, J.Json>, known: map<RoutineId, Routine>, now: int)
    requires SavedWell(h, es, routines, known) && n <= |es| && now >= 0
    ensures SavedWell(h, Survivors(known, es, n, now), routines, known)
  {
    hide Survives;
    if n > 0 {
      SurvivorsSavedWell(h, es, n - 1, routines, known, now);
    }
  }

  lemma {:induction false} RehydrateKeepsRunning(s: State, es: seq<Entry>, n: nat, now: int)
    requires !s.stopped && n <= |es|
    ensures !RehydrateUpTo(s, es, n, now).0.stopped
  {
    hide FateOf, Normals, Ids;
    if n > 0 {
      RehydrateKeepsRunning(s, es, n - 1, now);
    }
  }

  /** What comes back is again a sound session whose queue can be saved and loaded. */
  lemma RestartIsSound(h: S.Host, s: State, es: seq<Event>, d: State, routines: map<J.Key, J.Json>, known: map<RoutineId, Routine>, now: int)
    requires Sound(s) && !s.stopped && TornDown(s, es, d) && SavedWell(h, Normals(s.queue), routines, known) && now >= 0
    ensures var t := Restart(h, d, routines, known, now);
            Sound(t) && !t.stopped && SavedWell(h, Normals(t.queue), routines, known) && Normals(t.queue) == t.queue
  {
    hide Survivors, Survives, Encode, Decode, RehydrateUpTo, Refused, WellFormed, TornDown;
    var loaded := DecodeAll(S.PendingQueueOf(h, Some(J.Arr(EncodeAll(d.mirror))), routines));
    var start := NewSession(known, ReloadedTicks(d.ticks, known.Keys), d.hooks, loaded);
    var waiting := Normals(s.queue);
    RestartYields(h, s, es, d, routines, known, now);
    SurvivorsSavedWell(h, waiting, |waiting|, routines, known, now);
    SurvivorsAreSettled(known, waiting, |waiting|, now);
    NormalsOfNormal(Restart(h, d, routines, known, now).queue);
    RehydrateKeepsRunning(start.(mirror := []), loaded, |loaded|, now);
    RehydrateKeepsInv(start, now, "");
  }

  /** Restarting once more at the same time changes nothing and refuses nothing. */
  lemma RestartTwice(h: S.Host, s: State, es: seq<Event>, d: State, es2: seq<Event>, d2: State,
                     routines: map<J.Key, J.Json>, known: map<RoutineId, Routine>, now: int)
    requires Sound(s) && !s.stopped && TornDown(s, es, d) && SavedWell(h, Normals(s.queue), routines, known) && now >= 0
    requires TornDown(Restart(h, d, routines, known, now), es2, d2)
    ensures var t := Restart(h, d, routines, known, now);
            && Restart(h, d2, routines, known, now).queue == t.queue
            && Restart(h, d2, routines, known, now).h.audited == multiset{}
  {
    hide Survivors, Refused, Restart, Survives, WellFormed, Sound, SavedWell, TornDown;
    var waiting := Normals(s.queue);
    var t := Restart(h, d, routines, known, now);
    RestartYields(h, s, es, d, routines, known, now);
    RestartIsSound(h, s, es, d, routines, known, now);
    SurvivorsAreSettled(known, waiting, |waiting|, now);
    RestartYields(h, t, es2, d2, routines, known, now);
    SettledSurvives(known, t.queue, |t.queue|, now);
    assert t.queue[..|t.queue|] == t.queue;
  }

  lemma {:induction false} NormalsOfNormal(queue: seq<Entry>)
    requires forall i :: 0 <= i < |queue| ==> queue[i].deferred.None?
    ensures Normals(queue) == queue
  {
    if queue != [] {
      NormalsOfNormal(queue[1..]);
    }
  }

  // ---------------------------------------------------------------- every session can be saved

  ghost predicate AllWell(queue: seq<Entry>) {
    forall e :: e in queue ==> WellFormed(e)
  }

  ghost predicate SessionWell(s: State) {
    AllWell(s.queue) && (s.drain.Holding? ==> WellFormed(s.drain.entry))
  }

  predicate ObjectsOnly(p: Payload) {
    (p.apiArgs.Some? ==> p.apiArgs.value.Obj?) && (p.githubEvent.Some? ==> p.githubEvent.value.Obj?)
  }

  /** What the callers of the queue give: times since the epoch, and objects as payloads. */
  ghost predicate GivenWell(e: Event) {
    (NowOf(e).Some? ==> NowOf(e).value >= 0) && forall p :: Carries(e, p) ==> ObjectsOnly(p)
  }

  lemma {:induction false} WithoutWell(queue: seq<Entry>, routine: RoutineId)
    requires AllWell(queue)
    ensures AllWell(Without(queue, routine))
  {
    hide WellFormed;
    WithoutIsFrom(queue, routine);
  }

  lemma EnqueueWell(s: State, e: Entry, priority: bool)
    requires AllWell(s.queue) && WellFormed(e)
    ensures AllWell(Enqueue(s, e, priority).queue) && Enqueue(s, e, priority).drain == s.drain
  {
    hide WellFormed, Normals, MakeRoom, Insert;
    MakeRoomKeeps(s, priority);
    InsertAdds(MakeRoom(s, priority).queue, e, priority);
  }

  lemma MakeRoomKeeps(s: State, priority: bool)
    ensures var t := MakeRoom(s, priority); t.drain == s.drain && forall q :: q in t.queue ==> q in s.queue
  {
    hide Normals, Ids, RecordRun;
  }

  lemma InsertAdds(queue: seq<Entry>, e: Entry, priority: bool)
    ensures forall q :: q in Insert(queue, e, priority) ==> q == e || q in queue
  {
  }

  lemma ActKeepsWell(s: State, a: Action)
    requires SessionWell(s) && Can(s, a) && (a.Queues? ==> WellFormed(a.e))
    ensures SessionWell(Act(s, a))
  {
    hide WellFormed, Normals, Ids, RecordRun, FireEntry, DropHook, Enqueue, Without;
    match a
    case Queues(e, priority) => EnqueueWell(s, e, priority);
    case Fires(f) => FiringKeepsQueue(s, s.drain.entry, f);
    case Deletes(routine) => WithoutWell(s.queue, routine);
    case _ =>
  }

  lemma {:induction false} ActsKeepWell(s: State, e: Event, acts: seq<Action>, last: State)
    requires SessionWell(s) && Does(s, acts, last) && AllFrom(e, acts) && GivenWell(e)
    ensures SessionWell(last)
    decreases |acts|
  {
    hide SessionWell, Act, Can, GivenWell, WellFormed;
    if acts != [] {
      if acts[0].Queues? {
        FromWell(e, acts[0]);
      }
      ActKeepsWell(s, acts[0]);
      assert AllFrom(e, acts[1..]);
      ActsKeepWell(Act(s, acts[0]), e, acts[1..], last);
    }
  }

  lemma FromWell(e: Event, a: Action)
    requires GivenWell(e) && a.Queues? && From(e, a)
    ensures WellFormed(a.e)
  {
  }

  lemma {:induction false} RunKeepsWell(s: State, es: seq<Event>, last: State)
    requires SessionWell(s) && Runs(s, es, last) && forall i :: 0 <= i < |es| ==> GivenWell(es[i])
    ensures SessionWell(last)
    decreases |es|
  {
    hide SessionWell, Step, GivenWell, Does;
    if es != [] {
      var acts := StepActs(s, es[0]);
      ActsKeepWell(s, es[0], acts, Step(s, es[0]));
      RunKeepsWell(Step(s, es[0]), es[1..], last);
    }
  }

  /** The load knows the same routines as the new session. */
  ghost predicate SameRoutines(h: S.Host, routines: map<J.Key, J.Json>, known: map<RoutineId, Routine>) {
    forall r: RoutineId :: r in known <==> h.keyOf(r) in routines
  }

  lemma {:induction false} NormalsWell(queue: seq<Entry>)
    requires AllWell(queue)
    ensures AllWell(Normals(queue))
  {
    hide WellFormed;
    if queue != [] {
      assert forall e :: e in queue[1..] ==> e in queue;
      NormalsWell(queue[1..]);
    }
  }

  /** How a session can begin: afresh, or as a restart that is itself among these. */
  ghost predicate Begins(s: State) {
    (forall one :: Inv(s, one)) && SessionWell(s) && !s.stopped
  }

  lemma FreshBegins(s: State)
    requires Fresh(s)
    ensures Begins(s)
  {
  }

  lemma RunIsSavedWell(h: S.Host, s0: State, es: seq<Event>, s: State, routines: map<J.Key, J.Json>, known: map<RoutineId, Routine>)
    requires SessionWell(s0) && Runs(s0, es, s) && (forall i :: 0 <= i < |es| ==> GivenWell(es[i])) && SameRoutines(h, routines, known)
    ensures SavedWell(h, Normals(s.queue), routines, known)
  {
    hide WellFormed, GivenWell, Runs;
    RunKeepsWell(s0, es, s);
    NormalsWell(s.queue);
  }

  /** The restart theorem for every session: it begins, runs, is torn down, and the store is loaded again; then
      the next one begins. */
  lemma EverySessionRestarts(h: S.Host, s0: State, es: seq<Event>, s: State, after: seq<Event>, d: State,
                             routines: map<J.Key, J.Json>, known: map<RoutineId, Routine>, now: int)
    requires Begins(s0) && Runs(s0, es, s) && (forall i :: 0 <= i < |es| ==> GivenWell(es[i])) && !s.stopped
    requires TornDown(s, after, d) && SameRoutines(h, routines, known) && now >= 0
    ensures var waiting := Normals(s.queue);
            var t := Restart(h, d, routines, known, now);
            && t.queue == Survivors(known, waiting, |waiting|, now)
            && t.h.audited == Refused(known, waiting, |waiting|, now)
    ensures Begins(Restart(h, d, routines, known, now))
  {
    hide Survivors, Refused, Restart, SavedWell, TornDown, SameRoutines, GivenWell, Runs, WellFormed, Normals, Inv, SessionWell;
    assert Inv(s0, "");
    RunKeepsInv(s0, es, s, "");
    InvIsSound(s);
    RunIsSavedWell(h, s0, es, s, routines, known);
    RestartYields(h, s, after, d, routines, known, now);
    RestartBegins(h, s, after, d, routines, known, now);
  }

  lemma RestartBegins(h: S.Host, s: State, es: seq<Event>, d: State, routines: map<J.Key, J.Json>, known: map<RoutineId, Routine>, now: int)
    requires Sound(s) && !s.stopped && TornDown(s, es, d) && SavedWell(h, Normals(s.queue), routines, known) && now >= 0
    ensures Begins(Restart(h, d, routines, known, now))
  {
    hide Survivors, Refused, TornDown, WellFormed, RehydrateUpTo, RehydrateQueue, Sound, Inv;
    RestartIsSound(h, s, es, d, routines, known, now);
    var loaded := DecodeAll(S.PendingQueueOf(h, Some(J.Arr(EncodeAll(d.mirror))), routines));
    var start := NewSession(known, ReloadedTicks(d.ticks, known.Keys), d.hooks, loaded);
    RehydrateRests(start, now);
    forall one
      ensures Inv(Restart(h, d, routines, known, now), one)
    {
      NewSessionInv(start, one);
      RehydrateKeepsInv(start, now, one);
    }
  }

  lemma NewSessionInv(s: State, one: RunId)
    requires Fresh(s.(mirror := []))
    ensures Inv(s.(mirror := [], stopped := false), one)
  {
  }

  lemma {:induction false} RehydrateRestsUpTo(s: State, es: seq<Entry>, n: nat, now: int)
    requires n <= |es|
    ensures RehydrateUpTo(s, es, n, now).0.drain == s.drain
  {
    hide FateOf, Normals, Ids, RecordRun;
    if n > 0 {
      RehydrateRestsUpTo(s, es, n - 1, now);
    }
  }

  lemma RehydrateRests(s: State, now: int)
    ensures RehydrateQueue(s, now).drain == s.drain
  {
    RehydrateRestsUpTo(s.(mirror := []), s.mirror, |s.mirror|, now);
  }
}
