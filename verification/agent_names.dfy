// The `@handle` namespace shared by live agents and the tombstones of evicted ones.
module AgentNames {
  import opened Common
  import opened Decimal
  import opened Text

  type AgentId = string

  const MAX_TOMBSTONES := 100
  const MAX_HANDLE_LENGTH := 64
  const RESERVED_HANDLES: set<string> := {"main"}

  datatype Agent = Agent(
    handle: Option<string>,
    alias: Option<string>,
    parent: Option<AgentId>,
    inWorkflow: bool,
    active: bool,                  // running or queued
    completedAt: Option<int>,
    sessionFile: Option<string>)

  datatype Tombstone = Tombstone(handle: string, alias: Option<string>, id: AgentId, sessionFile: string, completedAt: int)

  datatype Resolution = Nobody | Live(id: AgentId) | Buried(entry: Tombstone)

  // ---------------------------------------------------------------- slugs

  predicate IsHandleChar(c: char) {
    'a' <= c <= 'z' || '0' <= c <= '9' || c == '_' || c == '-'
  }

  /** Each run of characters outside the handle alphabet becomes one hyphen. */
  function Hyphenate(s: string, inRun: bool): (r: string)
    ensures forall i :: 0 <= i < |r| ==> IsHandleChar(r[i])
  {
    if s == [] then []
    else if IsHandleChar(s[0]) then [s[0]] + Hyphenate(s[1..], false)
    else if inRun then Hyphenate(s[1..], true)
    else ['-'] + Hyphenate(s[1..], true)
  }

  function TrimStart(s: string): (r: string)
    ensures r == [] || r[0] != '-'
    ensures forall c :: c in r ==> c in s
  {
    if s != [] && s[0] == '-' then TrimStart(s[1..]) else s
  }

  function TrimEnd(s: string): (r: string)
    ensures r <= s
    ensures r == [] || r[|r| - 1] != '-'
  {
    if s != [] && s[|s| - 1] == '-' then TrimEnd(s[..|s| - 1]) else s
  }

  /** A slug no shorter than one character, inside the alphabet, with no hyphen at either end. */
  ghost predicate IsSlug(s: string) {
    && 0 < |s| <= MAX_HANDLE_LENGTH
    && (forall c :: c in s ==> IsHandleChar(c))
    && s[0] != '-' && s[|s| - 1] != '-'
  }

  function HandleBase(name: string): (r: string)
    ensures IsSlug(r)
  {
    var hyphenated := Hyphenate(Lower(name), false);
    var trimmed := TrimEnd(TrimStart(hyphenated));
    var cut := if |trimmed| > MAX_HANDLE_LENGTH then trimmed[..MAX_HANDLE_LENGTH] else trimmed;
    var slug := TrimEnd(cut);
    assert forall c :: c in slug ==> c in hyphenated;
    if slug == [] then "agent" else slug
  }

  // ---------------------------------------------------------------- allocation

  /** `base`, `base-2`, `base-3`, … */
  function Candidate(base: string, n: nat): string
    requires n >= 1
  {
    if n == 1 then base else base + "-" + Print(n)
  }

  lemma CandidateInjective(base: string, m: nat, n: nat)
    requires m >= 1 && n >= 1 && Candidate(base, m) == Candidate(base, n)
    ensures m == n
  {
    var skip := |base| + 1;
    if m > 1 && n > 1 {
      assert Candidate(base, m)[skip..] == Print(m);
      assert Candidate(base, n)[skip..] == Print(n);
      PrintInjective(m, n);
    }
  }

  /** The first candidate that is neither taken nor reserved; the search always ends. */
  method AssignHandle(base: string, taken: set<string>) returns (handle: string, n: nat)
    ensures n >= 1 && handle == Candidate(base, n)
    ensures handle !in taken && handle !in RESERVED_HANDLES
    ensures forall k :: 1 <= k < n ==> Candidate(base, k) in taken || Candidate(base, k) in RESERVED_HANDLES
    ensures IsFirstFree(handle, base, taken)
  {
    handle := base;
    n := 1;
    ghost var refused: set<string> := {};
    while handle in taken || handle in RESERVED_HANDLES
      invariant n >= 1 && handle == Candidate(base, n)
      invariant refused <= taken + RESERVED_HANDLES
      invariant forall h :: h in refused ==> exists k :: 1 <= k < n && h == Candidate(base, k)
      invariant forall k :: 1 <= k < n ==> Candidate(base, k) in refused
      decreases taken + RESERVED_HANDLES - refused
    {
      if handle in refused {
        var k :| 1 <= k < n && handle == Candidate(base, k);
        CandidateInjective(base, k, n);
      }
      refused := refused + {handle};
      n := n + 1;
      handle := base + "-" + Print(n);
    }
  }

  /** The first of the numbered names of a base that is neither taken nor reserved. */
  ghost predicate IsFirstFree(handle: string, base: string, taken: set<string>) {
    exists n: nat :: n >= 1 && handle == Candidate(base, n) && handle !in taken && handle != "main"
                     && forall k :: 1 <= k < n ==> Candidate(base, k) in taken || Candidate(base, k) == "main"
  }

  // ---------------------------------------------------------------- the namespace

  ghost function NamesOf(a: Agent): set<string> {
    (if a.handle.Some? then {a.handle.value} else {}) + (if a.alias.Some? then {a.alias.value} else {})
  }

  ghost function TombNames(t: Tombstone): set<string> {
    {t.handle} + (if t.alias.Some? then {t.alias.value} else {})
  }

  /** A record and a tombstone that stand for the same conversation carry the same names. */
  ghost predicate SameNames(a: Agent, t: Tombstone) {
    a.handle == Some(t.handle) && a.alias == t.alias
  }

  ghost predicate AgentNamed(a: Agent) {
    && (forall n :: n in NamesOf(a) ==> IsLower(n))
    && (a.alias.Some? ==> a.handle.Some? && a.handle != a.alias)
    && ((a.parent.Some? || a.inWorkflow) ==> a.handle.None?)
  }

  ghost predicate TombNamed(t: Tombstone) {
    && (forall n :: n in TombNames(t) ==> IsLower(n))
    && t.alias != Some(t.handle)
  }

  /** Live names are pairwise distinct. */
  ghost predicate LiveDistinct(agents: map<AgentId, Agent>) {
    && (forall id :: id in agents ==> AgentNamed(agents[id]))
    && (forall a, b :: a in agents && b in agents && a != b ==> NamesOf(agents[a]) !! NamesOf(agents[b]))
  }

  ghost predicate TombsDistinct(tombs: seq<Tombstone>) {
    && (forall i :: 0 <= i < |tombs| ==> TombNamed(tombs[i]))
    && (forall i, j :: 0 <= i < j < |tombs| ==> TombNames(tombs[i]) !! TombNames(tombs[j]))
  }

  /** A tombstone shares a name with a live agent only if that agent reopened it. */
  ghost predicate SharedOnlyByReopening(agents: map<AgentId, Agent>, tombs: seq<Tombstone>) {
    forall id, i :: id in agents && 0 <= i < |tombs| ==>
      NamesOf(agents[id]) !! TombNames(tombs[i]) || SameNames(agents[id], tombs[i])
  }

  ghost predicate NamespaceSound(agents: map<AgentId, Agent>, tombs: seq<Tombstone>) {
    LiveDistinct(agents) && TombsDistinct(tombs) && SharedOnlyByReopening(agents, tombs)
  }

  ghost function Taken(agents: map<AgentId, Agent>, tombs: seq<Tombstone>): set<string> {
    (set id, n | id in agents && n in NamesOf(agents[id]) :: n) +
    (set i, n | 0 <= i < |tombs| && n in TombNames(tombs[i]) :: n)
  }

  /** What `@name` means. Written as a relation, so that it also speaks of unsound namespaces. */
  ghost predicate ResolvesTo(agents: map<AgentId, Agent>, tombs: seq<Tombstone>, name: string, r: Resolution) {
    var wanted := Lower(name);
    match r
    case Live(id) =>
      && id in agents && agents[id].parent.None?
      && (wanted in NamesOf(agents[id]) || (id == name && NobodyAnswers(agents, wanted)))
    case Buried(entry) =>
      && NobodyAnswers(agents, wanted)
      && !(name in agents && agents[name].parent.None?)
      && (exists i :: 0 <= i < |tombs| && entry == tombs[i] && TombAnswers(tombs[i], wanted, name)
            && forall j :: 0 <= j < i ==> !TombAnswers(tombs[j], wanted, name))
    case Nobody =>
      && NobodyAnswers(agents, wanted)
      && !(name in agents && agents[name].parent.None?)
      && (forall i :: 0 <= i < |tombs| ==> !TombAnswers(tombs[i], wanted, name))
  }

  ghost predicate NobodyAnswers(agents: map<AgentId, Agent>, wanted: string) {
    forall id :: id in agents && agents[id].parent.None? ==> wanted !in NamesOf(agents[id])
  }

  ghost predicate TombAnswers(t: Tombstone, wanted: string, name: string) {
    wanted in TombNames(t) || t.id == name
  }

  /** In a sound namespace a name has at most one live answer, whatever order the map is walked in. */
  lemma OneLiveAnswer(agents: map<AgentId, Agent>, tombs: seq<Tombstone>, name: string, a: AgentId, b: AgentId)
    requires NamespaceSound(agents, tombs)
    requires ResolvesTo(agents, tombs, name, Live(a)) && ResolvesTo(agents, tombs, name, Live(b))
    ensures a == b
  {
    var wanted := Lower(name);
    assert wanted in NamesOf(agents[a]) <==> wanted in NamesOf(agents[b]);
  }

  // ---------------------------------------------------------------- reopening a tombstone

  /** The record a reopening spawn creates: it takes the names back verbatim. */
  function Reopened(t: Tombstone): Agent {
    Agent(Some(t.handle), t.alias, None, false, true, None, None)
  }

  /** Exactly when reopening keeps the namespace sound: no live agent holds the handle already. */
  lemma ReopeningIsSafeIff(agents: map<AgentId, Agent>, tombs: seq<Tombstone>, i: nat, id: AgentId)
    requires NamespaceSound(agents, tombs) && i < |tombs| && id !in agents
    ensures NamespaceSound(agents[id := Reopened(tombs[i])], tombs) <==>
            (forall a :: a in agents ==> agents[a].handle != Some(tombs[i].handle))
  {
    var t := tombs[i];
    var after := agents[id := Reopened(t)];
    assert NamesOf(after[id]) == TombNames(t);
    if forall a :: a in agents ==> agents[a].handle != Some(t.handle) {
      forall a | a in agents
        ensures NamesOf(agents[a]) !! TombNames(t)
      {
        assert NamesOf(agents[a]) !! TombNames(t) || SameNames(agents[a], t);
      }
      forall j | 0 <= j < |tombs|
        ensures NamesOf(after[id]) !! TombNames(tombs[j]) || SameNames(after[id], tombs[j])
      {
        if j < i {
          assert TombNames(tombs[j]) !! TombNames(t);
        }
      }
    } else {
      var a :| a in agents && agents[a].handle == Some(t.handle);
      assert t.handle in NamesOf(after[a]) && t.handle in NamesOf(after[id]);
    }
  }

  lemma SameHandleSameNames(a: Agent, t: Tombstone)
    ensures AgentNamed(a) && a.handle == Some(t.handle) && (NamesOf(a) !! TombNames(t) || SameNames(a, t)) ==>
              a.parent.None? && NamesOf(a) == TombNames(t)
  {
    if a.handle == Some(t.handle) {
      assert t.handle in NamesOf(a) && t.handle in TombNames(t);
    }
  }

  /** A mention by handle or alias only finds a tombstone that is safe to reopen. */
  lemma MentionByNameIsSafe(agents: map<AgentId, Agent>, tombs: seq<Tombstone>, name: string, i: nat, id: AgentId)
    requires NamespaceSound(agents, tombs) && i < |tombs| && id !in agents
    requires ResolvesTo(agents, tombs, name, Buried(tombs[i])) && Lower(name) in TombNames(tombs[i])
    ensures NamespaceSound(agents[id := Reopened(tombs[i])], tombs)
  {
    var t := tombs[i];
    forall a | a in agents
      ensures agents[a].handle != Some(t.handle)
    {
      SameHandleSameNames(agents[a], t);
    }
    ReopeningIsSafeIff(agents, tombs, i, id);
  }

  /** A mention by the id of an evicted record can find a tombstone whose conversation is already
      reopened; reopening it again gives two live agents the same handle. */
  lemma MentionByIdCanFork()
    ensures exists agents: map<AgentId, Agent>, tombs: seq<Tombstone>, name: string, id: AgentId ::
      && |tombs| == 1 && id !in agents
      && NamespaceSound(agents, tombs)
      && ResolvesTo(agents, tombs, name, Buried(tombs[0]))
      && !NamespaceSound(agents[id := Reopened(tombs[0])], tombs)
  {
    var t := Tombstone("explore", None, "0a1b", "s.jsonl", 1);
    var tombs := [t];
    var agents: map<AgentId, Agent> := map["2c3d" := Reopened(t)];
    assert Lower("0a1b") == "0a1b";
    assert NamespaceSound(agents, tombs);
    assert tombs[0] == t && TombAnswers(tombs[0], "0a1b", "0a1b");
    assert "0a1b" !in NamesOf(agents["2c3d"]);
    assert ResolvesTo(agents, tombs, "0a1b", Buried(tombs[0]));
    ReopeningIsSafeIff(agents, tombs, 0, "4e5f");
    assert !NamespaceSound(agents["4e5f" := Reopened(tombs[0])], tombs);
  }

  // ---------------------------------------------------------------- burying an evicted agent

  function IndexOfHandle(tombs: seq<Tombstone>, handle: string): (i: nat)
    ensures i <= |tombs|
    ensures i < |tombs| ==> tombs[i].handle == handle
    ensures forall j :: 0 <= j < i ==> tombs[j].handle != handle
  {
    if tombs == [] then 0
    else if tombs[0].handle == handle then 0
    else 1 + IndexOfHandle(tombs[1..], handle)
  }

  /** A map write keyed by the handle: in place when the key exists, else at the end. */
  function Bury(tombs: seq<Tombstone>, t: Tombstone): seq<Tombstone> {
    var i := IndexOfHandle(tombs, t.handle);
    if i < |tombs| then tombs[i := t] else tombs + [t]
  }

  /** Index of the first tombstone with the smallest completion time. */
  function Oldest(tombs: seq<Tombstone>): (i: nat)
    requires tombs != []
    ensures i < |tombs|
    ensures forall j :: 0 <= j < |tombs| ==> tombs[i].completedAt <= tombs[j].completedAt
    ensures forall j :: 0 <= j < i ==> tombs[i].completedAt < tombs[j].completedAt
  {
    if |tombs| == 1 then 0
    else
      var i := Oldest(tombs[..|tombs| - 1]);
      if tombs[i].completedAt <= tombs[|tombs| - 1].completedAt then i else |tombs| - 1
  }

  function DropOldest(tombs: seq<Tombstone>): (r: seq<Tombstone>)
    ensures |r| == Min(|tombs|, MAX_TOMBSTONES)
    decreases |tombs|
  {
    if |tombs| > MAX_TOMBSTONES then DropOldest(RemoveAt(tombs, Oldest(tombs))) else tombs
  }

  /** Trimming keeps a sub-sequence and drops nothing younger than what it keeps. */
  lemma {:induction false} TrimDropsTheOldest(tombs: seq<Tombstone>)
    ensures forall t :: t in DropOldest(tombs) ==> t in tombs
    ensures forall gone, kept :: gone in tombs && gone !in DropOldest(tombs) && kept in DropOldest(tombs) ==>
              gone.completedAt <= kept.completedAt
    decreases |tombs|
  {
    if |tombs| > MAX_TOMBSTONES {
      hide RemoveAt;
      var rest := RemoveAt(tombs, Oldest(tombs));
      OneIsDropped(tombs);
      TrimDropsTheOldest(rest);
    }
  }

  lemma OneIsDropped(tombs: seq<Tombstone>)
    requires |tombs| > MAX_TOMBSTONES
    ensures var i := Oldest(tombs);
            && (forall t :: t in RemoveAt(tombs, i) ==> t in tombs)
            && (forall t :: t in tombs ==> t in RemoveAt(tombs, i) || t == tombs[i])
            && (forall t :: t in tombs ==> tombs[i].completedAt <= t.completedAt)
  {
    hide RemoveAt;
    var i := Oldest(tombs);
    RemovedOne(tombs, i);
    forall t | t in tombs
      ensures tombs[i].completedAt <= t.completedAt
    {
      var j :| 0 <= j < |tombs| && tombs[j] == t;
    }
  }

  lemma RemovedOne(tombs: seq<Tombstone>, i: nat)
    requires i < |tombs|
    ensures forall t :: t in RemoveAt(tombs, i) ==> t in tombs
    ensures forall t :: t in tombs ==> t in RemoveAt(tombs, i) || t == tombs[i]
  {
    assert tombs == tombs[..i] + [tombs[i]] + tombs[i + 1..];
  }

  lemma RemoveKeepsSound(agents: map<AgentId, Agent>, tombs: seq<Tombstone>, i: nat)
    requires NamespaceSound(agents, tombs) && i < |tombs|
    ensures NamespaceSound(agents, RemoveAt(tombs, i))
  {
    var r := RemoveAt(tombs, i);
    assert forall j :: 0 <= j < |r| ==> r[j] == tombs[if j < i then j else j + 1];
  }

  lemma {:induction false} TrimKeepsSound(agents: map<AgentId, Agent>, tombs: seq<Tombstone>)
    requires NamespaceSound(agents, tombs)
    ensures NamespaceSound(agents, DropOldest(tombs))
    decreases |tombs|
  {
    if |tombs| > MAX_TOMBSTONES {
      RemoveKeepsSound(agents, tombs, Oldest(tombs));
      TrimKeepsSound(agents, RemoveAt(tombs, Oldest(tombs)));
    }
  }

  function TombstoneOf(id: AgentId, a: Agent, now: int): Tombstone
    requires a.handle.Some? && a.sessionFile.Some?
  {
    Tombstone(a.handle.value, a.alias, id, a.sessionFile.value, if a.completedAt.Some? then a.completedAt.value else now)
  }

  /** Evicting an agent hands its names, and only its names, over to a tombstone. */
  lemma BuryKeepsSound(agents: map<AgentId, Agent>, tombs: seq<Tombstone>, id: AgentId, now: int)
    requires NamespaceSound(agents, tombs) && id in agents
    requires agents[id].handle.Some? && agents[id].sessionFile.Some?
    ensures NamespaceSound(agents - {id}, Bury(tombs, TombstoneOf(id, agents[id], now)))
  {
    var t := TombstoneOf(id, agents[id], now);
    var i := IndexOfHandle(tombs, t.handle);
    var r := Bury(tombs, t);
    var rest := agents - {id};
    assert TombNames(t) == NamesOf(agents[id]);
    assert i < |tombs| ==> t.handle in TombNames(tombs[i]) && t.handle in NamesOf(agents[id]);
    assert i < |tombs| ==> SameNames(agents[id], tombs[i]);
    forall j | 0 <= j < |tombs| && j != i
      ensures TombNames(tombs[j]) !! TombNames(t)
    {
      SameHandleSameNames(agents[id], tombs[j]);
      if i < |tombs| {
        assert TombNames(tombs[i]) == TombNames(t);
      } else {
        assert tombs[j].handle != t.handle;
      }
    }
    assert forall j :: 0 <= j < |r| ==> r[j] == if j == i then t else tombs[j];
    forall a | a in rest
      ensures NamesOf(rest[a]) !! TombNames(t)
    {
      assert NamesOf(agents[a]) !! NamesOf(agents[id]);
    }
  }

  lemma ForgetKeepsSound(agents: map<AgentId, Agent>, tombs: seq<Tombstone>, id: AgentId)
    requires NamespaceSound(agents, tombs)
    ensures NamespaceSound(agents - {id}, tombs)
  {
  }

  /** A new agent whose names nobody holds. */
  lemma FreshNamesKeepSound(agents: map<AgentId, Agent>, tombs: seq<Tombstone>, id: AgentId, a: Agent)
    requires NamespaceSound(agents, tombs) && id !in agents && AgentNamed(a)
    requires NamesOf(a) !! Taken(agents, tombs)
    ensures NamespaceSound(agents[id := a], tombs)
  {
    var after := agents[id := a];
    forall b | b in agents
      ensures NamesOf(a) !! NamesOf(agents[b])
    {
      assert forall n :: n in NamesOf(agents[b]) ==> n in Taken(agents, tombs);
    }
    forall i | 0 <= i < |tombs|
      ensures NamesOf(a) !! TombNames(tombs[i])
    {
      assert forall n :: n in TombNames(tombs[i]) ==> n in Taken(agents, tombs);
    }
  }

  lemma CandidateIsLower(name: string, n: nat)
    requires n >= 1
    ensures IsLower(Candidate(HandleBase(name), n))
  {
    var base := HandleBase(name);
    assert forall i :: 0 <= i < |base| ==> base[i] in base;
    if n > 1 {
      assert forall i :: 0 <= i < |Print(n)| ==> IsDigit(Print(n)[i]);
    }
  }

  // ---------------------------------------------------------------- the manager's name table

  ghost function NamesOutside(agents: map<AgentId, Agent>, todo: set<AgentId>): set<string> {
    set id, n | id in agents && id !in todo && n in NamesOf(agents[id]) :: n
  }

  lemma NamesWithOneMore(agents: map<AgentId, Agent>, todo: set<AgentId>, id: AgentId)
    requires id in todo && id in agents
    ensures NamesOutside(agents, todo - {id}) == NamesOutside(agents, todo) + NamesOf(agents[id])
  {
  }

  ghost function NamesBefore(tombs: seq<Tombstone>, i: nat): set<string>
    requires i <= |tombs|
  {
    set j, n | 0 <= j < i && n in TombNames(tombs[j]) :: n
  }

  lemma NamesBeforeNext(tombs: seq<Tombstone>, i: nat)
    requires i < |tombs|
    ensures NamesBefore(tombs, i + 1) == NamesBefore(tombs, i) + TombNames(tombs[i])
  {
  }

  class NameTable {
    var agents: map<AgentId, Agent>
    var tombstones: seq<Tombstone>

    ghost predicate Valid()
      reads this
    {
      NamespaceSound(agents, tombstones) && |tombstones| <= MAX_TOMBSTONES
    }

    constructor ()
      ensures Valid() && agents == map[] && tombstones == []
    {
      agents, tombstones := map[], [];
    }

    /** `takenHandles`: every live handle and alias, and every tombstone's. */
    method TakenHandles() returns (taken: set<string>)
      ensures taken == Taken(agents, tombstones)
    {
      taken := {};
      var todo := agents.Keys;
      while todo != {}
        invariant todo <= agents.Keys
        invariant taken == NamesOutside(agents, todo)
        decreases todo
      {
        var id :| id in todo;
        var a := agents[id];
        if a.handle.Some? {
          taken := taken + {a.handle.value};
        }
        if a.alias.Some? {
          taken := taken + {a.alias.value};
        }
        NamesWithOneMore(agents, todo, id);
        todo := todo - {id};
      }
      ghost var live := taken;
      for i := 0 to |tombstones|
        invariant taken == live + NamesBefore(tombstones, i)
      {
        NamesBeforeNext(tombstones, i);
        taken := taken + {tombstones[i].handle};
        if tombstones[i].alias.Some? {
          taken := taken + {tombstones[i].alias.value};
        }
      }
    }

    /** The naming half of `spawn`: owned children get no handle, the rest a name nobody holds. */
    method Register(id: AgentId, kind: string, name: Option<string>, parent: Option<AgentId>, inWorkflow: bool)
      requires Valid() && id !in agents
      modifies this
      ensures Valid() && tombstones == old(tombstones)
      ensures id in agents && agents - {id} == old(agents)
      ensures agents[id].parent == parent && agents[id].inWorkflow == inWorkflow && agents[id].active
      ensures NamesOf(agents[id]) !! Taken(old(agents), old(tombstones)) && NamesOf(agents[id]) !! RESERVED_HANDLES
      ensures if parent.Some? || inWorkflow then NamesOf(agents[id]) == {}
              else
                && agents[id].handle.Some? && IsFirstFree(agents[id].handle.value, HandleBase(kind), Taken(old(agents), old(tombstones)))
                && (agents[id].alias.Some? <==> name.Some?)
                && (name.Some? ==> IsFirstFree(agents[id].alias.value, HandleBase(name.value),
                                               Taken(old(agents), old(tombstones)) + {agents[id].handle.value}))
    {
      hide IsFirstFree, HandleBase, Candidate, NamespaceSound, IsLower;
      var handle: Option<string> := None;
      var alias: Option<string> := None;
      if parent.None? && !inWorkflow {
        var taken := TakenHandles();
        var base := HandleBase(kind);
        var h, n := AssignHandle(base, taken);
        CandidateIsLower(kind, n);
        handle := Some(h);
        if name.Some? {
          var h2, n2 := AssignHandle(HandleBase(name.value), taken + {h});
          CandidateIsLower(name.value, n2);
          alias := Some(h2);
        }
      }
      var a := Agent(handle, alias, parent, inWorkflow, true, None, None);
      FreshNamesKeepSound(agents, tombstones, id, a);
      agents := agents[id := a];
      assert agents - {id} == old(agents);
    }

    /** `spawn` with `reclaim`. The guard is the exact condition of `ReopeningIsSafeIff`. */
    method Reopen(i: nat, id: AgentId)
      requires Valid() && i < |tombstones| && id !in agents
      modifies this`agents
      ensures Valid() <==> forall a :: a in old(agents) ==> old(agents)[a].handle != Some(tombstones[i].handle)
      ensures agents == old(agents)[id := Reopened(tombstones[i])]
    {
      ReopeningIsSafeIff(agents, tombstones, i, id);
      agents := agents[id := Reopened(tombstones[i])];
    }

    method OnSessionOpened(id: AgentId, file: Option<string>)
      requires Valid() && id in agents
      modifies this`agents
      ensures Valid()
      ensures agents == old(agents)[id := old(agents)[id].(sessionFile := file)]
    {
      agents := agents[id := agents[id].(sessionFile := file)];
    }

    method OnActivity(id: AgentId, active: bool, completedAt: Option<int>)
      requires Valid() && id in agents
      modifies this`agents
      ensures Valid()
      ensures agents == old(agents)[id := old(agents)[id].(active := active, completedAt := completedAt)]
    {
      agents := agents[id := agents[id].(active := active, completedAt := completedAt)];
    }

    /** An immediate start that failed: the record goes, its names with it. */
    method Forget(id: AgentId)
      requires Valid()
      modifies this`agents
      ensures Valid() && agents == old(agents) - {id}
    {
      ForgetKeepsSound(agents, tombstones, id);
      agents := agents - {id};
    }

    /** `removeRecord`: leave a tombstone when the agent can still be reopened, then trim. */
    method Evict(id: AgentId, now: int)
      requires Valid() && id in agents
      modifies this
      ensures Valid() && agents == old(agents) - {id}
      ensures tombstones ==
              if old(agents)[id].handle.Some? && old(agents)[id].sessionFile.Some?
              then DropOldest(Bury(old(tombstones), TombstoneOf(id, old(agents)[id], now))) else old(tombstones)
    {
      var a := agents[id];
      if a.handle.Some? && a.sessionFile.Some? {
        var t := TombstoneOf(id, a, now);
        BuryKeepsSound(agents, tombstones, id, now);
        TrimKeepsSound(agents - {id}, Bury(tombstones, t));
        var i := IndexOfHandle(tombstones, t.handle);
        if i < |tombstones| {
          tombstones := tombstones[i := t];
        } else {
          tombstones := tombstones + [t];
        }
        while |tombstones| > MAX_TOMBSTONES
          invariant DropOldest(tombstones) == DropOldest(Bury(old(tombstones), t))
          invariant agents == old(agents)
          decreases |tombstones|
        {
          tombstones := RemoveAt(tombstones, Oldest(tombstones));
        }
      } else {
        ForgetKeepsSound(agents, tombstones, id);
      }
      agents := agents - {id};
    }

    method DropTombstone(handle: string)
      requires Valid()
      modifies this`tombstones
      ensures Valid()
      ensures var i := IndexOfHandle(old(tombstones), handle);
              tombstones == if i < |old(tombstones)| then RemoveAt(old(tombstones), i) else old(tombstones)
    {
      var i := IndexOfHandle(tombstones, handle);
      if i < |tombstones| {
        RemoveKeepsSound(agents, tombstones, i);
        tombstones := RemoveAt(tombstones, i);
      }
    }

    /** The last step of `clearCompleted`: a new session means new handles. */
    method ClearTombstones()
      requires Valid()
      modifies this`tombstones
      ensures Valid() && tombstones == []
    {
      tombstones := [];
    }

    /** `resolveMention`: an active agent first, then any live one, an exact id, a tombstone. */
    method ResolveMention(name: string) returns (r: Resolution)
      requires Valid()
      ensures ResolvesTo(agents, tombstones, name, r)
    {
      var wanted := Lower(name);
      var fallback: Option<AgentId> := None;
      var todo := agents.Keys;
      while todo != {}
        invariant todo <= agents.Keys
        invariant fallback.Some? ==> fallback.value in agents && agents[fallback.value].parent.None?
                                     && wanted in NamesOf(agents[fallback.value])
        invariant fallback.None? ==> forall id :: id in agents && id !in todo && agents[id].parent.None? ==>
                                       wanted !in NamesOf(agents[id])
        decreases todo
      {
        var id :| id in todo;
        todo := todo - {id};
        var a := agents[id];
        if a.parent.None? && AnswersTo(a, wanted) {
          if a.active {
            return Live(id);
          }
          fallback := Some(id);
        }
      }
      if fallback.Some? {
        return Live(fallback.value);
      }
      if name in agents && agents[name].parent.None? {
        return Live(name);
      }
      for i := 0 to |tombstones|
        invariant forall j :: 0 <= j < i ==> !TombAnswers(tombstones[j], wanted, name)
      {
        var t := tombstones[i];
        LowerNames(t);
        if Lower(t.handle) == wanted || (t.alias.Some? && Lower(t.alias.value) == wanted) || t.id == name {
          return Buried(t);
        }
      }
      return Nobody;
    }

    /** Handle or alias, compared without case; the names themselves are lower case already. */
    predicate AnswersTo(a: Agent, wanted: string)
      requires AgentNamed(a)
      ensures AnswersTo(a, wanted) <==> wanted in NamesOf(a)
    {
      LowerNamesOfAgent(a);
      (a.handle.Some? && Lower(a.handle.value) == wanted) || (a.alias.Some? && Lower(a.alias.value) == wanted)
    }
  }

  lemma LowerNamesOfAgent(a: Agent)
    requires AgentNamed(a)
    ensures a.handle.Some? ==> Lower(a.handle.value) == a.handle.value
    ensures a.alias.Some? ==> Lower(a.alias.value) == a.alias.value
  {
    if a.handle.Some? {
      assert a.handle.value in NamesOf(a);
      LowerIsIdentity(a.handle.value);
    }
    if a.alias.Some? {
      assert a.alias.value in NamesOf(a);
      LowerIsIdentity(a.alias.value);
    }
  }

  lemma LowerNames(t: Tombstone)
    requires TombNamed(t)
    ensures Lower(t.handle) == t.handle
    ensures t.alias.Some? ==> Lower(t.alias.value) == t.alias.value
  {
    LowerIsIdentity(t.handle);
    if t.alias.Some? {
      LowerIsIdentity(t.alias.value);
    }
  }
}
