// Parsed JSON, with object keys split into the names the store reads and all others.
module Json {
  import opened Common

  /** A key of an object. The first constructors are the member names the store code reads. */
  datatype Key =
    | Id | Name | Prompt | Triggers | ContextKey | Quiet | CreatedAt | MaxTicks | MaxRunsPerDay | Paused
    | KindKey | IntervalMs | IntervalHuman | Timezone | Expr | FireAtIso | FiredKey | EventKey | OnceKey | AllowArgs
    | Repo | PollIntervalMs | FilterKey | Labels | Branches | MergedOnly | CursorKey | BranchCursors
    | RoutineIdKey | StartedAt | EndedAt | DurationMs | StatusKey | TriggerIndex | TriggerKind | Snippet | SkipReason
    | TickCount | LastFiredAt | LastFiredDateLocal | UserState | RunsKey | RunsToday | RunsTodayDate | HookOnceDaily
    | EndedSessionId | DeferredAt | EndedSessionCwd | EndedDateLocal | EndedTimeLocal | Transcript | TranscriptTruncated
    | RunIdKey | DeferredHookId | Origin | Index | QueuedAt | ApiArgs | GithubEvent | ContextNote | HookOnceKey | HookOnceMode
    | SchemaVersion | RoutinesKey | TickStateKey | DeferredHooksKey | PendingQueueKey
    | Other(name: string)

  /** Parsing can overflow a number to infinity; it is then not finite. */
  datatype Number = Finite(value: real) | Infinite

  datatype Json =
    | Null
    | Bool(b: bool)
    | Num(n: Number)
    | Str(s: string)
    | Arr(items: seq<Json>)
    | Obj(fields: map<Key, Json>)

  /** A member that may be absent; absent is the source's `undefined`. */
  function Get(o: map<Key, Json>, k: Key): Option<Json> {
    if k in o then Some(o[k]) else None
  }

  function Put(k: Key, v: Option<Json>): map<Key, Json> {
    if v.Some? then map[k := v.value] else map[]
  }

  /** An object with one more member, if there is a value for it. */
  function With(o: map<Key, Json>, k: Key, v: Option<Json>): map<Key, Json> {
    if v.Some? then o[k := v.value] else o
  }

  lemma WithGets(o: map<Key, Json>, k: Key, v: Option<Json>)
    requires Get(o, k).None?
    ensures forall j :: Get(With(o, k, v), j) == if j == k then v else Get(o, j)
  {
  }

  /** The object with those members of a list that have a value. */
  function ObjectOf(member: Key -> Option<Json>, keys: set<Key>): map<Key, Json> {
    map k | k in keys && member(k).Some? :: member(k).value
  }

  lemma ObjectGets(member: Key -> Option<Json>, keys: set<Key>)
    ensures forall k :: Get(ObjectOf(member, keys), k) == if k in keys then member(k) else None
  {
  }

  lemma SameMembers(a: Key -> Option<Json>, b: Key -> Option<Json>, keys: set<Key>)
    requires forall k :: k in keys ==> a(k) == b(k)
    ensures ObjectOf(a, keys) == ObjectOf(b, keys)
  {
  }

  predicate IsStr(v: Option<Json>) {
    v.Some? && v.value.Str?
  }

  predicate IsObj(v: Option<Json>) {
    v.Some? && v.value.Obj?
  }

  predicate IsFinite(v: Option<Json>, minimum: real) {
    v.Some? && v.value.Num? && v.value.n.Finite? && v.value.n.value >= minimum
  }

  predicate IsInteger(v: Option<Json>) {
    v.Some? && v.value.Num? && v.value.n.Finite? && v.value.n.value.Floor as real == v.value.n.value
  }

  predicate IsTrue(v: Option<Json>) {
    v == Some(Bool(true))
  }

  predicate IsBool(v: Option<Json>) {
    v.Some? && v.value.Bool?
  }

  predicate OptionalStr(v: Option<Json>) {
    v.None? || v.value.Str?
  }

  /** `names.includes(String(v))`: conversion to a string also flattens an array of one name. */
  predicate NamesOneOf(v: Json, names: set<string>) {
    match v
    case Str(s) => s in names
    case Arr(items) => |items| == 1 && !items[0].Null? && NamesOneOf(items[0], names)
    case _ => false
  }

  /** An integer as JSON holds it. */
  function WholeNumber(n: int): Json {
    Num(Finite(n as real))
  }

  lemma WholeNumberFacts(n: int)
    ensures IsInteger(Some(WholeNumber(n))) && WholeNumber(n).Num? && WholeNumber(n).n.value.Floor == n
    ensures IsFinite(Some(WholeNumber(n)), -1.0) <==> n >= -1
    ensures IsFinite(Some(WholeNumber(n)), 0.0) <==> n >= 0
  {
  }

  function Items(v: Option<Json>): seq<Json> {
    if v.Some? && v.value.Arr? then v.value.items else []
  }
}
