// What an agent is called: the slug of its type or name, the first number that is free, and who answers to it later.
module AgentHandles {
  import opened Common
  import opened Text
  import opened AgentNames

  // ---------------------------------------------------------------- slugs

  /** Every character is of the handle alphabet once its case is gone. */
  predicate IsPlain(s: string) {
    forall i :: 0 <= i < |s| ==> IsHandleChar(LowerChar(s[i]))
  }

  predicate IsForeign(s: string) {
    forall i :: 0 <= i < |s| ==> !IsHandleChar(LowerChar(s[i]))
  }

  lemma LowerOfConcat(a: string, b: string)
    ensures Lower(a + b) == Lower(a) + Lower(b)
  {
  }

  lemma {:induction false} PlainIsKept(s: string, inRun: bool)
    requires forall i :: 0 <= i < |s| ==> IsHandleChar(s[i])
    ensures Hyphenate(s, inRun) == s
  {
    if s != [] {
      PlainIsKept(s[1..], false);
    }
  }

  lemma {:induction false} HyphenatePlain(a: string, b: string, inRun: bool)
    requires a != [] && forall i :: 0 <= i < |a| ==> IsHandleChar(a[i])
    ensures Hyphenate(a + b, inRun) == a + Hyphenate(b, false)
  {
    assert (a + b)[1..] == a[1..] + b;
    if |a| > 1 {
      HyphenatePlain(a[1..], b, false);
    } else {
      assert a[1..] + b == b;
    }
  }

  lemma {:induction false} HyphenateRun(run: string, b: string)
    requires forall i :: 0 <= i < |run| ==> !IsHandleChar(run[i])
    ensures Hyphenate(run + b, true) == Hyphenate(b, true)
  {
    if run == [] {
      assert run + b == b;
    } else {
      assert (run + b)[1..] == run[1..] + b;
      HyphenateRun(run[1..], b);
    }
  }

  /** A run of foreign characters between plain ones reads as one hyphen. */
  lemma {:induction false} RunIsOneHyphen(a: string, run: string, b: string, inRun: bool)
    requires run != [] && forall i :: 0 <= i < |run| ==> !IsHandleChar(run[i])
    requires a == [] ==> !inRun
    requires a != [] ==> IsHandleChar(a[|a| - 1])
    requires b != [] ==> IsHandleChar(b[0])
    ensures Hyphenate(a + run + b, inRun) == Hyphenate(a + "-" + b, inRun)
    decreases |a|
  {
    if a == [] {
      assert a + run + b == run + b && a + "-" + b == "-" + b;
      assert (run + b)[1..] == run[1..] + b && ("-" + b)[1..] == b;
      HyphenateRun(run[1..], b);
    } else {
      assert (a + run + b)[1..] == a[1..] + run + b && (a + "-" + b)[1..] == a[1..] + "-" + b;
      if |a| == 1 {
        RunIsOneHyphen([], run, b, false);
        assert a[1..] == [];
      } else {
        RunIsOneHyphen(a[1..], run, b, false);
        RunIsOneHyphen(a[1..], run, b, true);
      }
    }
  }

  /** The slug of a name does not depend on its case. */
  lemma CaseDoesNotMatter(a: string, b: string)
    requires Lower(a) == Lower(b)
    ensures HandleBase(a) == HandleBase(b)
  {
  }

  lemma SlugIsLower(s: string)
    requires IsSlug(s)
    ensures Lower(s) == s
  {
    forall i | 0 <= i < |s|
      ensures IsHandleChar(s[i])
    {
      assert s[i] in s;
    }
    LowerIsIdentity(s);
  }

  /** A text that is a slug already is its own slug. */
  lemma SlugIsItself(s: string)
    requires IsSlug(s)
    ensures HandleBase(s) == s
  {
    SlugIsLower(s);
    forall i | 0 <= i < |s|
      ensures IsHandleChar(s[i])
    {
      assert s[i] in s;
    }
    PlainIsKept(s, false);
  }

  /** A run of foreign characters, between plain ones or at an end, becomes one hyphen. */
  lemma RunsBecomeOneHyphen(a: string, run: string, b: string)
    requires run != [] && IsForeign(run)
    requires a != [] ==> IsHandleChar(LowerChar(a[|a| - 1]))
    requires b != [] ==> IsHandleChar(LowerChar(b[0]))
    ensures HandleBase(a + run + b) == HandleBase(a + "-" + b)
  {
    LowerOfConcat(a + run, b);
    LowerOfConcat(a, run);
    LowerOfConcat(a + "-", b);
    LowerOfConcat(a, "-");
    assert Lower("-") == "-";
    RunIsOneHyphen(Lower(a), Lower(run), Lower(b), false);
  }

  lemma {:induction false} TrimStartOf(n: nat, s: string)
    requires s != [] ==> s[0] != '-'
    ensures TrimStart(Repeat('-', n) + s) == s
  {
    if n == 0 {
      assert Repeat('-', n) + s == s;
    } else {
      assert (Repeat('-', n) + s)[1..] == Repeat('-', n - 1) + s;
      TrimStartOf(n - 1, s);
    }
  }

  lemma {:induction false} TrimEndOf(n: nat, s: string)
    requires s != [] ==> s[|s| - 1] != '-'
    ensures AgentNames.TrimEnd(s + Repeat('-', n)) == s
  {
    if n == 0 {
      assert s + Repeat('-', n) == s;
    } else {
      var all := s + Repeat('-', n);
      assert all[..|all| - 1] == s + Repeat('-', n - 1);
      TrimEndOf(n - 1, s);
    }
  }

  /** Hyphens around a slug are dropped. */
  lemma OuterHyphensAreDropped(m: nat, s: string, n: nat)
    requires IsSlug(s)
    ensures HandleBase(Repeat('-', m) + s + Repeat('-', n)) == s
  {
    var all := Repeat('-', m) + s + Repeat('-', n);
    SlugIsLower(s);
    assert Lower(all) == all by {
      assert forall i :: 0 <= i < |all| ==> LowerChar(all[i]) == all[i] by {
        forall i | 0 <= i < |all|
          ensures LowerChar(all[i]) == all[i]
        {
          if m <= i < m + |s| {
            assert all[i] == s[i - m] == Lower(s)[i - m];
          }
        }
      }
    }
    forall i | 0 <= i < |all|
      ensures IsHandleChar(all[i])
    {
      if m <= i < m + |s| {
        assert all[i] == s[i - m] && s[i - m] in s;
      }
    }
    PlainIsKept(all, false);
    assert all == Repeat('-', m) + (s + Repeat('-', n));
    TrimStartOf(m, s + Repeat('-', n));
    TrimEndOf(n, s);
    TrimEndOf(0, s);
    assert s + Repeat('-', 0) == s;
  }

  /** A longer text of the alphabet is cut at 64 characters, and a hyphen the cut leaves at the end goes. */
  lemma LongNamesAreCut(s: string)
    requires |s| > 64 && (forall i :: 0 <= i < |s| ==> IsHandleChar(s[i])) && s[0] != '-' && s[|s| - 1] != '-'
    ensures HandleBase(s) <= s[..64]
    ensures s[63] != '-' ==> HandleBase(s) == s[..64]
    ensures forall i :: |HandleBase(s)| <= i < 64 ==> s[i] == '-'
  {
    hide Hyphenate, AgentNames.TrimEnd, Lower;
    LowerIsIdentity(s);
    PlainIsKept(s, false);
    EndIsHyphens(s);
    EndIsHyphens(s[..64]);
    HeadStays(s[..64]);
  }

  lemma {:induction false} HeadStays(s: string)
    requires s != [] && s[0] != '-'
    ensures AgentNames.TrimEnd(s) != []
  {
    if s[|s| - 1] == '-' {
      HeadStays(s[..|s| - 1]);
    }
  }

  lemma {:induction false} EndIsHyphens(s: string)
    ensures forall i :: |AgentNames.TrimEnd(s)| <= i < |s| ==> s[i] == '-'
    ensures s != [] && s[|s| - 1] != '-' ==> AgentNames.TrimEnd(s) == s
  {
    if s != [] && s[|s| - 1] == '-' {
      EndIsHyphens(s[..|s| - 1]);
    }
  }

  /** A text with nothing of the alphabet in it but hyphens is called "agent". */
  lemma NamelessIsAgent(s: string)
    requires forall i :: 0 <= i < |s| ==> s[i] == '-' || !IsHandleChar(LowerChar(s[i]))
    ensures HandleBase(s) == "agent"
  {
    var t := Lower(s);
    assert forall i :: 0 <= i < |t| ==> t[i] == '-' || !IsHandleChar(t[i]);
    OnlyHyphens(t, false);
    var h := Hyphenate(t, false);
    assert h == Repeat('-', |h|);
    TrimStartOf(|h|, []);
    assert h + [] == h;
  }

  lemma {:induction false} OnlyHyphens(t: string, inRun: bool)
    requires forall i :: 0 <= i < |t| ==> t[i] == '-' || !IsHandleChar(t[i])
    ensures forall i :: 0 <= i < |Hyphenate(t, inRun)| ==> Hyphenate(t, inRun)[i] == '-'
  {
    if t != [] {
      OnlyHyphens(t[1..], false);
      OnlyHyphens(t[1..], true);
    }
  }

  /** The handle alphabet by code point: a to z, the ten digits, underscore and hyphen; a capital only once its case is gone. */
  lemma AlphabetIs(c: char)
    ensures IsHandleChar(c) <==> 97 <= c as int <= 122 || 48 <= c as int <= 57 || c as int in {95, 45}
    ensures 65 <= c as int <= 90 ==> IsHandleChar(LowerChar(c)) && LowerChar(c) as int == c as int + 32
    ensures IsSlug("a") && IsSlug("z") && IsSlug("09_-az") && !IsSlug("A") && !IsSlug("-a") && !IsSlug("a-") && !IsSlug("")
  {
    assert "A"[0] in "A";
  }

  // ---------------------------------------------------------------- numbering

  /** The numbered names of "explore", and the one name nobody gets. */
  lemma NumbersFromTwo()
    ensures Candidate("explore", 1) == "explore" && Candidate("explore", 2) == "explore-2" && Candidate("explore", 10) == "explore-10"
    ensures RESERVED_HANDLES == {"main"}
  {
    assert Decimal.Print(10) == Decimal.Print(1) + [Decimal.DigitChar(0)];
  }

  /** A free slug is what it is asked to be. */
  lemma FreeSlugIsGiven(handle: string, slug: string, taken: set<string>)
    requires IsSlug(slug) && slug !in taken && slug != "main" && IsFirstFree(handle, HandleBase(slug), taken)
    ensures handle == slug
  {
    SlugIsItself(slug);
    assert Candidate(slug, 1) == slug;
  }

  // ---------------------------------------------------------------- who answers

  /** Whoever holds a name answers to it, in any case, and nobody else does. */
  lemma HolderAnswers(agents: map<AgentId, Agent>, tombs: seq<Tombstone>, id: AgentId, name: string, r: Resolution)
    requires NamespaceSound(agents, tombs) && id in agents && agents[id].parent.None? && Lower(name) in NamesOf(agents[id])
    requires ResolvesTo(agents, tombs, name, r)
    ensures r == Live(id)
  {
    if r.Live? {
      OneLiveAnswer(agents, tombs, name, id, r.id);
    }
  }

  /** In a sound namespace a name means one thing: the first tombstone only where no live agent and no id answers. */
  lemma OneMeaning(agents: map<AgentId, Agent>, tombs: seq<Tombstone>, name: string, r: Resolution, other: Resolution)
    requires NamespaceSound(agents, tombs)
    requires ResolvesTo(agents, tombs, name, r) && ResolvesTo(agents, tombs, name, other)
    ensures r == other
  {
    if r.Live? && other.Live? {
      OneLiveAnswer(agents, tombs, name, r.id, other.id);
    }
  }

  /** A reopened agent is at work at once, is nobody's child, and answers to the names its tombstone kept. */
  lemma ReopenedAnswers(agents: map<AgentId, Agent>, tombs: seq<Tombstone>, i: nat, id: AgentId, name: string, r: Resolution)
    requires NamespaceSound(agents, tombs) && i < |tombs| && id !in agents
    requires forall a :: a in agents ==> agents[a].handle != Some(tombs[i].handle)
    requires name == tombs[i].handle || Some(name) == tombs[i].alias
    requires ResolvesTo(agents[id := Reopened(tombs[i])], tombs, name, r)
    ensures r == Live(id)
    ensures var a := Reopened(tombs[i]); a.active && a.handle == Some(tombs[i].handle) && a.alias == tombs[i].alias && !a.inWorkflow
  {
    var after := agents[id := Reopened(tombs[i])];
    ReopeningIsSafeIff(agents, tombs, i, id);
    LowerNames(tombs[i]);
    HolderAnswers(after, tombs, id, name, r);
  }

  /** So an agent spawned under a free slug is found under it. */
  lemma SpawnedNameIsFound(agents: map<AgentId, Agent>, tombs: seq<Tombstone>, id: AgentId, slug: string, taken: set<string>, r: Resolution)
    requires NamespaceSound(agents, tombs) && id in agents && agents[id].parent.None? && agents[id].alias.Some?
    requires IsSlug(slug) && slug !in taken && slug != "main" && IsFirstFree(agents[id].alias.value, HandleBase(slug), taken)
    requires ResolvesTo(agents, tombs, slug, r)
    ensures r == Live(id)
  {
    FreeSlugIsGiven(agents[id].alias.value, slug, taken);
    SlugIsLower(slug);
    HolderAnswers(agents, tombs, id, slug, r);
  }

  /** Spawning and asking, in one: the caller's view of a name that is free. */
  method SpawnAndMention(table: NameTable, id: AgentId, kind: string, slug: string) returns (r: Resolution)
    requires table.Valid() && id !in table.agents
    requires IsSlug(slug) && slug !in Taken(table.agents, table.tombstones) && slug != "main"
    modifies table
    ensures table.Valid() && id in table.agents
    ensures table.agents[id].handle != Some(slug) ==> table.agents[id].alias == Some(slug)
    ensures r == Live(id)
  {
    ghost var taken := Taken(table.agents, table.tombstones);
    table.Register(id, kind, Some(slug), None, false);
    SlugIsLower(slug);
    ghost var a := table.agents[id];
    if a.handle != Some(slug) {
      FreeSlugIsGiven(a.alias.value, slug, taken + {a.handle.value});
    }
    r := table.ResolveMention(slug);
    HolderAnswers(table.agents, table.tombstones, id, slug, r);
  }

  // ---------------------------------------------------------------- after an eviction

  /** What an eviction leaves of an agent that can be reopened, and of the others: one tombstone under its handle. */
  lemma BuriedUnderItsHandle(tombs: seq<Tombstone>, id: AgentId, a: Agent, now: int)
    requires a.handle.Some? && a.sessionFile.Some? && forall i, j :: 0 <= i < j < |tombs| ==> tombs[i].handle != tombs[j].handle
    ensures var r := Bury(tombs, TombstoneOf(id, a, now));
            && (exists i :: 0 <= i < |r| && r[i] == Tombstone(a.handle.value, a.alias, id, a.sessionFile.value,
                                                               match a.completedAt case Some(at) => at case None => now))
            && (forall t :: t in r && t.handle != a.handle.value ==> t in tombs)
            && (forall t :: t in tombs && t.handle != a.handle.value ==> t in r)
            && (forall t :: t in r && t.handle == a.handle.value ==> t.id == id && t.sessionFile == a.sessionFile.value)
            && |r| == |tombs| + (if exists i :: 0 <= i < |tombs| && tombs[i].handle == a.handle.value then 0 else 1)
  {
    var t := TombstoneOf(id, a, now);
    var i := IndexOfHandle(tombs, t.handle);
    var r := Bury(tombs, t);
    assert r[i] == t;
    assert forall j :: 0 <= j < |tombs| && j != i ==> r[j] == tombs[j];
    forall u | u in tombs && u.handle != t.handle
      ensures u in r
    {
      var j :| 0 <= j < |tombs| && tombs[j] == u;
      assert r[j] == u;
    }
  }

  /** A full table of a hundred makes room by its oldest tombstone; a smaller one keeps them all. */
  lemma HundredAreKept(tombs: seq<Tombstone>)
    ensures |tombs| <= 100 ==> DropOldest(tombs) == tombs
    ensures |tombs| > 100 ==> |DropOldest(tombs)| == 100
  {
  }

  /** An evicted agent that can be reopened is found again under its handle and its alias, while no other holds them. */
  lemma EvictedIsFoundAgain(agents: map<AgentId, Agent>, tombs: seq<Tombstone>, id: AgentId, now: int, name: string, r: Resolution)
    requires NamespaceSound(agents, tombs) && id in agents && agents[id].handle.Some? && agents[id].sessionFile.Some?
    requires Lower(name) in NamesOf(agents[id]) && name !in agents
    requires ResolvesTo(agents - {id}, Bury(tombs, TombstoneOf(id, agents[id], now)), name, r)
    requires forall i :: 0 <= i < |tombs| ==> tombs[i].id != name
    ensures r == Buried(TombstoneOf(id, agents[id], now))
  {
    var t := TombstoneOf(id, agents[id], now);
    var buried, rest := Bury(tombs, t), agents - {id};
    BuryKeepsSound(agents, tombs, id, now);
    assert TombNames(t) == NamesOf(agents[id]);
    assert NobodyAnswers(rest, Lower(name)) by {
      forall other | other in rest
        ensures Lower(name) !in NamesOf(rest[other])
      {
        assert NamesOf(agents[other]) !! NamesOf(agents[id]);
      }
    }
    var i := IndexOfHandle(tombs, t.handle);
    assert buried[i] == t && TombAnswers(t, Lower(name), name);
    forall j | 0 <= j < |buried| && j != i
      ensures !TombAnswers(buried[j], Lower(name), name)
    {
      assert buried[j] == tombs[j];
      if j < i {
        assert TombNames(buried[j]) !! TombNames(buried[i]);
      } else {
        assert TombNames(buried[i]) !! TombNames(buried[j]);
      }
    }
  }
}
