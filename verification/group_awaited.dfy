// Whether a group that waits for an agent will be given its next completion.
module GroupAwaited {
  import opened Common
  import opened GroupJoin

  /** The group has yet to receive a completion of the agent. */
  predicate WaitsFor(g: Group, id: AgentId) {
    id in g.ids && id !in Ids(g.completed)
  }

  ghost predicate SomeoneWaits(s: State, id: AgentId) {
    exists gid :: gid in s.groups && WaitsFor(s.groups[gid], id)
  }

  ghost predicate AnotherWaits(s: State, gid: GroupId, id: AgentId) {
    exists other :: other in s.groups && other != gid && WaitsFor(s.groups[other], id)
  }

  /** Every agent that a live group waits for is looked up in that group. */
  ghost predicate Awaited(s: State) {
    forall gid, id :: gid in s.groups && WaitsFor(s.groups[gid], id) ==> GroupFor(s, id) == Some(gid)
  }

  /** The completion reached the group: it is held there, or the group was delivered with it. */
  ghost predicate Reaches(s: State, c: Completion, gid: GroupId) {
    var (after, outcome) := Complete(s, c);
    match outcome
    case Pass => false
    case Held => gid in after.groups && c in after.groups[gid].completed && c !in s.groups[gid].completed
    case Delivered(d) => gid !in after.groups && c in d.records
  }

  /** What the lookup is for: a completion reaches each group that waits for its agent, exactly while these groups
      are the ones looked up. */
  lemma AwaitedIff(s: State)
    requires Inv(s)
    ensures Awaited(s) <==>
            forall gid, c: Completion :: gid in s.groups && WaitsFor(s.groups[gid], c.id) ==> Reaches(s, c, gid)
  {
    hide Complete, Inv, Put, GroupFor;
    forall gid, c: Completion | gid in s.groups && WaitsFor(s.groups[gid], c.id)
      ensures Reaches(s, c, gid) <==> GroupFor(s, c.id) == Some(gid)
    {
      ReachesIff(s, c, gid);
    }
    if !Awaited(s) {
      var gid, id :| gid in s.groups && WaitsFor(s.groups[gid], id) && GroupFor(s, id) != Some(gid);
      assert !Reaches(s, Completion(id, 0, 0), gid);
    }
  }

  lemma CountedIfHeld(completed: seq<Completion>, c: Completion)
    ensures c in completed ==> c.id in Ids(completed)
  {
  }

  lemma ReachesIff(s: State, c: Completion, gid: GroupId)
    requires Inv(s) && gid in s.groups && WaitsFor(s.groups[gid], c.id)
    ensures Reaches(s, c, gid) <==> GroupFor(s, c.id) == Some(gid)
  {
    hide Put;
    var g := s.groups[gid];
    CountedIfHeld(g.completed, c);
    PutSound(g.completed, c);
  }

  // ---------------------------------------------------------------- what loses an agent

  /** The agents a step takes out of the lookup, or points elsewhere, and the group that answers for it. */
  ghost predicate Forgets(s: State, e: Event) {
    match e
    case Registered(gid, ids) => exists id :: id in ids && SomeoneWaits(s, id)
    case Completed(c) =>
      Complete(s, c).1.Delivered? && GroupFor(s, c.id).Some? &&
      var gid := GroupFor(s, c.id).value;
      exists id :: id in s.groups[gid].ids && AnotherWaits(s, gid, id)
    case Fired(gid) =>
      gid in s.groups && exists id :: id in Ids(s.groups[gid].completed) && AnotherWaits(s, gid, id)
  }

  /** A waiting group stops being the one looked up exactly when an agent it waits for is registered again, or when
      another group that lists the agent is delivered, or fires its timer after receiving it. */
  lemma ForgettingIff(w: World, e: Event)
    requires Inv(w.s) && Awaited(w.s) && Enabled(w, e)
    ensures Awaited(Step(w, e).s) <==> !Forgets(w.s, e)
  {
    match e
    case Registered(gid, ids) => RegisterForgetsIff(w.s, gid, ids);
    case Completed(c) => CompleteForgetsIff(w.s, c);
    case Fired(gid) => TimerForgetsIff(w.s, gid);
  }

  lemma RegisterForgetsIff(s: State, gid: GroupId, ids: seq<AgentId>)
    requires Inv(s) && Awaited(s) && gid != "" && gid !in s.groups
    ensures Awaited(Register(s, gid, ids)) <==> !exists id :: id in ids && SomeoneWaits(s, id)
  {
    var t := Register(s, gid, ids);
    assert forall id :: id in Members(ids) <==> id in ids;
    if id :| id in ids && SomeoneWaits(s, id) {
      var other :| other in s.groups && WaitsFor(s.groups[other], id);
      assert other in t.groups && WaitsFor(t.groups[other], id) && GroupFor(t, id) == Some(gid);
    } else {
      forall other, id | other in t.groups && WaitsFor(t.groups[other], id)
        ensures GroupFor(t, id) == Some(other)
      {
        if other != gid {
          assert SomeoneWaits(s, id) && GroupFor(s, id) == Some(other);
        }
      }
    }
  }

  lemma CompleteForgetsIff(s: State, c: Completion)
    requires Inv(s) && Awaited(s)
    ensures Awaited(Complete(s, c).0) <==> !Forgets(s, Completed(c))
  {
    hide Put;
    var t := Complete(s, c).0;
    if GroupFor(s, c.id).Some? {
      var gid := GroupFor(s, c.id).value;
      PutSound(s.groups[gid].completed, c);
      if Complete(s, c).1.Delivered? {
        RemovalForgetsIff(s, t, gid, s.groups[gid].ids);
      } else {
        forall other, id | other in t.groups && WaitsFor(t.groups[other], id)
          ensures GroupFor(t, id) == Some(other)
        {
          assert t.groups[gid].completed == Put(s.groups[gid].completed, c);
          assert WaitsFor(s.groups[other], id);
          assert GroupFor(s, id) == Some(other);
        }
      }
    }
  }

  lemma TimerForgetsIff(s: State, gid: GroupId)
    requires Inv(s) && Awaited(s) && gid in s.groups
    ensures Awaited(TimerFires(s, gid).0) <==> !Forgets(s, Fired(gid))
  {
    RemovalForgetsIff(s, TimerFires(s, gid).0, gid, Ids(s.groups[gid].completed));
  }

  /** Agents are taken out of the lookup; the group they are taken out for waits for none of them any more. */
  lemma RemovalForgetsIff(s: State, t: State, gid: GroupId, ids: set<AgentId>)
    requires Inv(s) && Awaited(s) && gid in s.groups
    requires t.groupOf == s.groupOf - ids
    requires forall other :: other != gid ==> (other in t.groups <==> other in s.groups)
    requires forall other :: other != gid && other in t.groups ==> t.groups[other] == s.groups[other]
    requires gid in t.groups ==> forall id :: WaitsFor(t.groups[gid], id) <==> WaitsFor(s.groups[gid], id) && id !in ids
    ensures Awaited(t) <==> !exists id :: id in ids && AnotherWaits(s, gid, id)
  {
    if id :| id in ids && AnotherWaits(s, gid, id) {
      var other :| other in s.groups && other != gid && WaitsFor(s.groups[other], id);
      assert other in t.groups && WaitsFor(t.groups[other], id) && GroupFor(t, id).None?;
    } else {
      forall other, id | other in t.groups && WaitsFor(t.groups[other], id)
        ensures GroupFor(t, id) == Some(other)
      {
        assert WaitsFor(s.groups[other], id) && GroupFor(s, id) == Some(other);
        assert other != gid ==> AnotherWaits(s, gid, id);
      }
    }
  }

  // ---------------------------------------------------------------- whole runs

  ghost predicate AlwaysAwaited(w: World, es: seq<Event>)
    decreases |es|
  {
    Awaited(w.s) && (es != [] ==> Enabled(w, es[0]) && AlwaysAwaited(Step(w, es[0]), es[1..]))
  }

  ghost predicate NeverForgets(w: World, es: seq<Event>)
    decreases |es|
  {
    es != [] ==> Enabled(w, es[0]) && !Forgets(w.s, es[0]) && NeverForgets(Step(w, es[0]), es[1..])
  }

  lemma {:induction false} RunAwaitedIff(w: World, es: seq<Event>, last: World)
    requires Inv(w.s) && Awaited(w.s) && Runs(w, es, last)
    ensures AlwaysAwaited(w, es) <==> NeverForgets(w, es)
    decreases |es|
  {
    hide Inv, Awaited, Forgets, Step;
    if es != [] {
      StepKeepsInv(w, es[0]);
      ForgettingIff(w, es[0]);
      if !Forgets(w.s, es[0]) {
        RunAwaitedIff(Step(w, es[0]), es[1..], last);
      } else {
        NotAwaitedAtOnce(Step(w, es[0]), es[1..]);
      }
    }
  }

  lemma NotAwaitedAtOnce(w: World, es: seq<Event>)
    requires !Awaited(w.s)
    ensures !AlwaysAwaited(w, es)
  {
  }

  /** From an empty manager on: at every moment a completion of an agent that a group waits for reaches that group,
      exactly when no step of the run forgets one. */
  lemma WaitingGroupsAreServedIff(timeout: nat, clock: int, es: seq<Event>, last: World)
    requires Runs(Start(timeout, clock), es, last)
    ensures AlwaysAwaited(Start(timeout, clock), es) <==> NeverForgets(Start(timeout, clock), es)
  {
    StartIsGood(timeout, clock);
    RunAwaitedIff(Start(timeout, clock), es, last);
  }

  // ---------------------------------------------------------------- a run that loses an agent

  /** The two groups, before and after the first has received "a". */
  function FirstGroup(received: seq<Completion>, deadline: Option<int>): Group {
    Group({"a", "b"}, received, deadline, false)
  }

  const SECOND_GROUP := Group({"a", "x"}, [], None, false)

  function OneGroup(timeout: nat, g: Group): State {
    State(map["g1" := g], map["a" := "g1", "b" := "g1"], timeout)
  }

  function TwoGroups(timeout: nat, g: Group): State {
    State(map["g1" := g, "g2" := SECOND_GROUP], map["a" := "g2", "b" := "g1", "x" := "g2"], timeout)
  }

  const FIRST := Completion("a", 1, 0)

  const OTHER := Completion("b", 2, 1)

  lemma MembersOfPair(x: AgentId, y: AgentId)
    ensures Members([x, y]) == {x, y}
  {
    assert [x, y][0] == x && [x, y][1] == y;
  }

  lemma RegistersFirst(timeout: nat)
    ensures Register(Start(timeout, 0).s, "g1", ["a", "b"]) == OneGroup(timeout, FirstGroup([], None))
  {
    MembersOfPair("a", "b");
  }

  lemma HoldsFirst(timeout: nat)
    ensures Complete(OneGroup(timeout, FirstGroup([], None)), FIRST) == (OneGroup(timeout, FirstGroup([FIRST], Some(timeout))), Held)
  {
    var s := OneGroup(timeout, FirstGroup([], None));
    assert Put([], FIRST) == [FIRST];
    assert |{"a", "b"}| == 2;
    assert GroupFor(s, "a") == Some("g1") && s.groups["g1"] == FirstGroup([], None);
    assert s.groups["g1" := FirstGroup([FIRST], Some(timeout))] == map["g1" := FirstGroup([FIRST], Some(timeout))];
  }

  lemma RegistersSecond(timeout: nat, g: Group)
    ensures Register(OneGroup(timeout, g), "g2", ["a", "x"]) == TwoGroups(timeout, g)
  {
    MembersOfPair("a", "x");
  }

  lemma DeliversFirst(timeout: nat)
    ensures Complete(TwoGroups(timeout, FirstGroup([FIRST], Some(timeout))), OTHER) ==
            (State(map["g2" := SECOND_GROUP], map["x" := "g2"], timeout), Delivered(Delivery([FIRST, OTHER], false)))
  {
    var s := TwoGroups(timeout, FirstGroup([FIRST], Some(timeout)));
    assert Put([FIRST], OTHER) == [FIRST, OTHER];
    assert |{"a", "b"}| == 2;
    assert GroupFor(s, "b") == Some("g1") && s.groups["g1"] == FirstGroup([FIRST], Some(timeout));
    assert s.groups - {"g1"} == map["g2" := SECOND_GROUP] && s.groupOf - {"a", "b"} == map["x" := "g2"];
  }

  lemma NobodyElseWaits(timeout: nat)
    ensures !Forgets(Start(timeout, 0).s, Registered("g1", ["a", "b"]))
    ensures !Forgets(OneGroup(timeout, FirstGroup([FIRST], Some(timeout))), Registered("g2", ["a", "x"]))
  {
    var g := FirstGroup([FIRST], Some(timeout));
    assert g.completed[0].id in Ids(g.completed);
    assert !WaitsFor(g, "a") && !WaitsFor(g, "x");
  }

  lemma SecondWaits(timeout: nat)
    ensures WaitsFor(SECOND_GROUP, "a")
    ensures Forgets(TwoGroups(timeout, FirstGroup([FIRST], Some(timeout))), Completed(OTHER))
  {
    var s := TwoGroups(timeout, FirstGroup([FIRST], Some(timeout)));
    DeliversFirst(timeout);
    assert s.groups["g2"] == SECOND_GROUP && WaitsFor(SECOND_GROUP, "a");
    assert AnotherWaits(s, "g1", "a");
    assert "a" in s.groups["g1"].ids;
  }

  lemma HeldForgetsNobody(s: State, c: Completion)
    requires Complete(s, c).1 == Held
    ensures !Forgets(s, Completed(c))
  {
  }

  lemma OneGroupOnly(timeout: nat)
    ensures OneGroup(timeout, FirstGroup([FIRST], Some(timeout))).groups.Keys == {"g1"}
  {
  }

  lemma PassedBack(timeout: nat, c: Completion)
    requires c.id == "a"
    ensures Complete(State(map["g2" := SECOND_GROUP], map["x" := "g2"], timeout), c).1 == Pass
  {
  }

  /** "a" is held for the first group and resumed into a second; the delivery of the first takes it out of the lookup,
      and every later completion of "a" is passed back although the second group waits for it. */
  lemma ResumedAgentIsForgotten(timeout: nat) returns (before: World, after: World)
    ensures var es := [Registered("g1", ["a", "b"]), Completed(FIRST), Registered("g2", ["a", "x"])];
            Runs(Start(timeout, 0), es, before) && NeverForgets(Start(timeout, 0), es)
    ensures Enabled(before, Completed(OTHER)) && Forgets(before.s, Completed(OTHER)) && after == Step(before, Completed(OTHER))
    ensures "g2" in after.s.groups && WaitsFor(after.s.groups["g2"], "a")
    ensures forall c: Completion :: c.id == "a" ==> Complete(after.s, c).1 == Pass
  {
    hide Put, Complete, Register, Forgets, WaitsFor, OneGroup, TwoGroups;
    var first, second, third := Registered("g1", ["a", "b"]), Completed(FIRST), Registered("g2", ["a", "x"]);
    var w0 := Start(timeout, 0);
    var w1 := Step(w0, first);
    var w2 := Step(w1, second);
    before := Step(w2, third);
    after := Step(before, Completed(OTHER));
    RegistersFirst(timeout);
    HoldsFirst(timeout);
    RegistersSecond(timeout, FirstGroup([FIRST], Some(timeout)));
    DeliversFirst(timeout);
    NobodyElseWaits(timeout);
    SecondWaits(timeout);
    HeldForgetsNobody(w1.s, FIRST);
    OneGroupOnly(timeout);
    OneMoreEvent(w2, third, [], before);
    OneMoreEvent(w1, second, [third], before);
    OneMoreEvent(w0, first, [second, third], before);
    forall c: Completion | c.id == "a"
      ensures Complete(after.s, c).1 == Pass
    {
      PassedBack(timeout, c);
    }
  }

  lemma OneMoreEvent(w: World, e: Event, es: seq<Event>, last: World)
    requires Enabled(w, e) && !Forgets(w.s, e) && Runs(Step(w, e), es, last) && NeverForgets(Step(w, e), es)
    ensures Runs(w, [e] + es, last) && NeverForgets(w, [e] + es)
  {
    assert ([e] + es)[1..] == es;
  }
}
