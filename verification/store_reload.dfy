// A store file that loading twice does not leave as loading once does.
module StoreReload {
  import opened Common
  import opened Json
  import opened TranscriptTrim
  import opened StoreSanitizer

  function ShutdownTrigger(): (v: Json)
    ensures v.Obj?
  {
    Obj(map[KindKey := Str("hook"), EventKey := Str("session_shutdown")])
  }

  function CuratorMember(k: Key): Option<Json> {
    match k
    case Id => Some(Str("r"))
    case Name => Some(Str("curator"))
    case Prompt => Some(Str("Curate"))
    case Triggers => Some(Arr([ShutdownTrigger()]))
    case ContextKey => Some(Str("session"))
    case Quiet => Some(Bool(true))
    case CreatedAt => Some(Num(Finite(0.0)))
    case _ => None
  }

  /** A routine with one hook on the end of a session. */
  function Curator(): (v: Json)
    ensures v.Obj?
  {
    Obj(ObjectOf(CuratorMember, ROUTINE_KEYS))
  }

  /** A hook of it that waits with a transcript of one character of four bytes and 8189 letters. */
  function WaitingHook(): Json {
    Obj(HookBase(Str("d"), Str("r"), Num(Finite(0.0)), Str("s"), Num(Finite(1.0)), Str("/"), Str("2025-01-01"), Str("00:00"),
                 CutInFour(MAX_DEFERRED_TRANSCRIPT_BYTES)))
  }

  function BadlyCut(h: Host): Json {
    Obj(map[RoutinesKey := Obj(map[h.keyOf("r") := Curator()]), DeferredHooksKey := Arr([WaitingHook()])])
  }

  /** What a host must say of the names for the routine to be kept. */
  predicate Accepts(h: Host) {
    h.isRoutineName("curator") && !h.isBlank("Curate")
  }

  lemma CuratorGets(k: Key)
    ensures Get(Curator().fields, k) == CuratorMember(k)
  {
    ObjectGets(CuratorMember, ROUTINE_KEYS);
  }

  lemma CuratorIsKept(h: Host)
    requires Accepts(h)
    ensures SanitizeRoutine(h, h.keyOf("r"), Curator()) == Some(Obj(BuildRoutine(Curator().fields, [ShutdownTrigger()])))
  {
    hide Curator, BuildRoutine, SanitizeTriggers, ShutdownTrigger;
    CuratorGets(Id);
    CuratorGets(Name);
    CuratorGets(Prompt);
    CuratorGets(Triggers);
    CuratorGets(ContextKey);
    CuratorGets(Quiet);
    CuratorGets(CreatedAt);
    CuratorGets(MaxTicks);
    CuratorGets(MaxRunsPerDay);
    CuratorGets(Paused);
    TriggerIsKept(h);
  }

  lemma CuratorListens(h: Host)
    requires Accepts(h)
    ensures var kept := SanitizeRoutine(h, h.keyOf("r"), Curator()); kept.Some? && IsShutdownTrigger(kept.value, 0)
  {
    hide Curator, BuildRoutine, SanitizeRoutine;
    CuratorIsKept(h);
    RoutineGets(Curator().fields, [ShutdownTrigger()]);
    TriggerGets();
  }

  lemma TriggerGets()
    ensures Get(ShutdownTrigger().fields, KindKey) == Some(Str("hook"))
    ensures Get(ShutdownTrigger().fields, EventKey) == Some(Str("session_shutdown"))
    ensures Get(ShutdownTrigger().fields, OnceKey).None?
  {
  }

  lemma TriggerIsKept(h: Host)
    ensures SanitizeTriggers(h, [ShutdownTrigger()]) == Some([ShutdownTrigger()])
  {
    hide SanitizePulse, SanitizeCron, SanitizeOneOff, SanitizeApi, SanitizeGithub;
    var o := ShutdownTrigger().fields;
    TriggerGets();
    assert NamesOneOf(Str("session_shutdown"), HOOK_EVENTS);
    assert SanitizeHook(o).value.fields == o;
    assert SanitizeTrigger(h, ShutdownTrigger()) == Some(ShutdownTrigger());
    var one := [ShutdownTrigger()];
    assert one[0] == ShutdownTrigger() && one[1..] == [];
    assert SanitizeTriggers(h, one[1..]) == Some([]);
    assert [SanitizeTrigger(h, one[0]).value] + [] == one;
    assert SanitizeTriggers(h, one) == Some(one);
  }

  lemma HookIsValid(h: Host, routines: map<Key, Json>)
    requires h.keyOf("r") in routines && IsShutdownTrigger(routines[h.keyOf("r")], 0)
    ensures ValidDeferredHook(h, WaitingHook(), routines) && TranscriptOf(WaitingHook()) == CutInFour(MAX_DEFERRED_TRANSCRIPT_BYTES)
  {
    hide HookBase, IsShutdownTrigger;
    HookBaseFields(Str("d"), Str("r"), Num(Finite(0.0)), Str("s"), Num(Finite(1.0)), Str("/"), Str("2025-01-01"), Str("00:00"),
                   CutInFour(MAX_DEFERRED_TRANSCRIPT_BYTES));
  }

  /** Sanitising the hook again changes it. */
  lemma HookChangesAgain(h: Host, routines: map<Key, Json>)
    requires h.keyOf("r") in routines && IsShutdownTrigger(routines[h.keyOf("r")], 0)
    ensures ValidDeferredHook(h, WaitingHook(), routines)
    ensures var once := SanitizeDeferredHook(h, WaitingHook(), routines);
            ValidDeferredHook(h, once, routines) && SanitizeDeferredHook(h, once, routines) != once
  {
    hide WaitingHook, ValidDeferredHook, SanitizeDeferredHook, TrimEnd, Orphans, CutInFour;
    HookIsValid(h, routines);
    TrimmedTwiceDiffers(MAX_DEFERRED_TRANSCRIPT_BYTES);
    DeferredHookStableIff(h, WaitingHook(), routines);
  }

  /** So does loading the loaded store. */
  lemma StoreChangesAgain(h: Host)
    requires Accepts(h) && h.size(Obj(map[])) <= MAX_USER_STATE_BYTES
    ensures var once := SanitizeStore(h, BadlyCut(h), false); SanitizeStore(h, once, false) != once
  {
    hide SanitizeStore, WaitingHook, ValidDeferredHook, TrimEnd, Orphans, CutInFour, Curator, SanitizeRoutine, IsShutdownTrigger;
    var raw := BadlyCut(h);
    var routines := RoutinesOf(h, Get(raw.fields, RoutinesKey));
    CuratorListens(h);
    HookIsValid(h, routines);
    TrimmedTwiceDiffers(MAX_DEFERRED_TRANSCRIPT_BYTES);
    StoreStableIff(h, raw, false);
    OneKeeper(h, routines);
    assert !TranscriptsCutWell([WaitingHook()]);
  }

  lemma OneKeeper(h: Host, routines: map<Key, Json>)
    requires ValidDeferredHook(h, WaitingHook(), routines)
    ensures Keepers(h, Some(Arr([WaitingHook()])), routines) == [WaitingHook()]
  {
    hide WaitingHook, ValidDeferredHook, DeferredTime;
    var one := [WaitingHook()];
    assert one[1..] == [];
    assert ValidHooks(h, one, routines) == one;
    assert SortByTime(one[..0]) == [];
    assert SortByTime(one) == one;
  }
}
