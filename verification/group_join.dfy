// Grouped completion notices: hold, join, deliver, re-batch the stragglers.
module GroupJoin {
  import opened Common

  type AgentId = string
  type GroupId = string

  const DEFAULT_TIMEOUT := 30_000
  const STRAGGLER_TIMEOUT := 15_000

  /** One completion: which agent, which of its completions, and when it was handed in. */
  datatype Completion = Completion(id: AgentId, run: nat, at: int)

  /** `completed` is the insertion-ordered map of the source: at most one completion an agent.
      `deadline` is the armed timer, if there is one. */
  datatype Group = Group(ids: set<AgentId>, completed: seq<Completion>, deadline: Option<int>, straggler: bool)

  datatype State = State(groups: map<GroupId, Group>, groupOf: map<AgentId, GroupId>, timeout: nat)

  datatype Delivery = Delivery(records: seq<Completion>, partial: bool)

  datatype Outcome = Pass | Held | Delivered(delivery: Delivery)

  // ---------------------------------------------------------------- the steps

  function Position(completed: seq<Completion>, id: AgentId): (i: nat)
    ensures i <= |completed|
    ensures i < |completed| ==> completed[i].id == id
    ensures forall j :: 0 <= j < i ==> completed[j].id != id
  {
    if completed == [] || completed[0].id == id then 0 else 1 + Position(completed[1..], id)
  }

  /** A map write: a second completion of the same agent takes the place of the first. */
  function Put(completed: seq<Completion>, c: Completion): seq<Completion> {
    var i := Position(completed, c.id);
    if i < |completed| then completed[i := c] else completed + [c]
  }

  function Ids(completed: seq<Completion>): set<AgentId> {
    set i | 0 <= i < |completed| :: completed[i].id
  }

  function Window(s: State, g: Group): nat {
    if g.straggler then STRAGGLER_TIMEOUT else s.timeout
  }

  function Members(ids: seq<AgentId>): set<AgentId> {
    set i | 0 <= i < |ids| :: ids[i]
  }

  function Register(s: State, gid: GroupId, ids: seq<AgentId>): State {
    var members := Members(ids);
    State(s.groups[gid := Group(members, [], None, false)], s.groupOf + (map id | id in members :: gid), s.timeout)
  }

  /** The group that would take a completion of `id`; the empty group id reads as none. */
  function GroupFor(s: State, id: AgentId): Option<GroupId> {
    if id in s.groupOf && s.groupOf[id] != "" && s.groupOf[id] in s.groups then Some(s.groupOf[id]) else None
  }

  function Complete(s: State, c: Completion): (State, Outcome) {
    match GroupFor(s, c.id)
    case None => (s, Pass)
    case Some(gid) =>
      var g := s.groups[gid];
      var completed := Put(g.completed, c);
      if |completed| >= |g.ids| then
        (State(s.groups - {gid}, s.groupOf - g.ids, s.timeout), Delivered(Delivery(completed, false)))
      else
        var deadline := if g.deadline.Some? then g.deadline else Some(c.at + Window(s, g));
        (s.(groups := s.groups[gid := Group(g.ids, completed, deadline, g.straggler)]), Held)
  }

  function TimerFires(s: State, gid: GroupId): (State, Delivery)
    requires gid in s.groups
  {
    var g := s.groups[gid];
    (State(s.groups[gid := Group(g.ids - Ids(g.completed), [], None, true)], s.groupOf - Ids(g.completed), s.timeout),
     Delivery(g.completed, true))
  }

  function Dispose(s: State): State {
    State(map[], map[], s.timeout)
  }

  // ---------------------------------------------------------------- the invariant

  ghost predicate OnePerAgent(completed: seq<Completion>) {
    forall i, j :: 0 <= i < j < |completed| ==> completed[i].id != completed[j].id
  }

  /** Held completions belong to the group, they are not all of it, and the timer runs exactly while there are some. */
  ghost predicate GroupSound(g: Group) {
    && OnePerAgent(g.completed)
    && Ids(g.completed) <= g.ids
    && (g.completed != [] ==> |g.completed| < |g.ids|)
    && (g.deadline.Some? <==> g.completed != [])
  }

  /** An agent is looked up in a live group that it belongs to. (It may be a member of others as well.) */
  ghost predicate Listed(s: State) {
    forall id :: id in s.groupOf ==> s.groupOf[id] in s.groups && id in s.groups[s.groupOf[id]].ids
  }

  ghost predicate Inv(s: State) {
    && "" !in s.groups
    && (forall gid :: gid in s.groups ==> GroupSound(s.groups[gid]))
    && Listed(s)
  }

  lemma {:induction false} CountIds(completed: seq<Completion>)
    requires OnePerAgent(completed)
    ensures |Ids(completed)| == |completed|
  {
    if completed == [] {
      assert Ids(completed) == {};
    } else {
      var n := |completed| - 1;
      CountIds(completed[..n]);
      assert completed[n].id !in Ids(completed[..n]);
      assert Ids(completed) == Ids(completed[..n]) + {completed[n].id};
    }
  }

  lemma PutSound(completed: seq<Completion>, c: Completion)
    requires OnePerAgent(completed)
    ensures OnePerAgent(Put(completed, c))
    ensures Ids(Put(completed, c)) == Ids(completed) + {c.id}
    ensures c in Put(completed, c)
    ensures forall d :: d in Put(completed, c) <==> d == c || (d in completed && d.id != c.id)
  {
    var i := Position(completed, c.id);
    var r := Put(completed, c);
    assert forall j :: 0 <= j < |completed| && j != i ==> r[j] == completed[j];
    assert i < |r| && r[i] == c;
    forall d | d in completed && d.id != c.id
      ensures d in r
    {
      var j :| 0 <= j < |completed| && completed[j] == d;
      assert r[j] == d;
    }
    forall id | id in Ids(completed)
      ensures id in Ids(r)
    {
      var j :| 0 <= j < |completed| && completed[j].id == id;
      assert r[j].id == id;
    }
  }

  lemma SubsetSize(a: set<AgentId>, b: set<AgentId>)
    requires a <= b
    ensures |b - a| == |b| - |a|
    ensures |a| == |b| ==> a == b
  {
    assert b == a + (b - a);
    assert |b| == |a| + |b - a|;
  }

  /** The size test of the source is the set test it stands for. */
  lemma FullMeansEveryone(g: Group, c: Completion)
    requires GroupSound(g) && c.id in g.ids
    ensures |Put(g.completed, c)| >= |g.ids| <==> Ids(g.completed) + {c.id} == g.ids
  {
    PutSound(g.completed, c);
    CountIds(Put(g.completed, c));
    SubsetSize(Ids(Put(g.completed, c)), g.ids);
  }

  lemma RegisterKeepsInv(s: State, gid: GroupId, ids: seq<AgentId>)
    requires Inv(s) && gid != "" && gid !in s.groups
    ensures Inv(Register(s, gid, ids))
  {
    assert Ids([]) == {};
  }

  lemma CompleteKeepsInv(s: State, c: Completion)
    requires Inv(s)
    ensures Inv(Complete(s, c).0)
  {
    hide Listed, GroupSound;
    CompleteKeepsListed(s, c);
    if GroupFor(s, c.id).Some? {
      var gid := GroupFor(s, c.id).value;
      if |Put(s.groups[gid].completed, c)| < |s.groups[gid].ids| {
        PutKeepsGroup(s, c, gid);
      }
    }
  }

  lemma CompleteKeepsListed(s: State, c: Completion)
    requires Listed(s)
    ensures Listed(Complete(s, c).0)
  {
    hide Put;
  }

  lemma PutKeepsGroup(s: State, c: Completion, gid: GroupId)
    requires Inv(s) && GroupFor(s, c.id) == Some(gid) && |Put(s.groups[gid].completed, c)| < |s.groups[gid].ids|
    ensures var g := s.groups[gid];
            forall deadline: Option<int> :: deadline.Some? ==> GroupSound(Group(g.ids, Put(g.completed, c), deadline, g.straggler))
  {
    hide Put;
    PutSound(s.groups[gid].completed, c);
  }

  lemma TimerKeepsInv(s: State, gid: GroupId)
    requires Inv(s) && gid in s.groups
    ensures Inv(TimerFires(s, gid).0)
  {
    assert Ids([]) == {};
  }

  // ---------------------------------------------------------------- when a group is delivered

  /** A full delivery happens exactly when the last remaining member completes, and it hands over
      one completion of every remaining member: the newest, in order of first arrival. */
  lemma FullDeliveryIff(s: State, c: Completion, gid: GroupId)
    requires Inv(s) && GroupFor(s, c.id) == Some(gid)
    ensures Complete(s, c).1.Delivered? <==> Ids(s.groups[gid].completed) + {c.id} == s.groups[gid].ids
    ensures Complete(s, c).1.Delivered? ==>
              var d := Complete(s, c).1.delivery;
              && !d.partial && OnePerAgent(d.records) && Ids(d.records) == s.groups[gid].ids
              && (forall r :: r in d.records <==> r == c || (r in s.groups[gid].completed && r.id != c.id))
  {
    FullMeansEveryone(s.groups[gid], c);
    PutSound(s.groups[gid].completed, c);
  }

  /** An expired timer always finds something to deliver, and always leaves someone to wait for. */
  lemma PartialDeliveryIsProper(s: State, gid: GroupId)
    requires Inv(s) && gid in s.groups && s.groups[gid].deadline.Some?
    ensures TimerFires(s, gid).1.records != []
    ensures TimerFires(s, gid).0.groups[gid].ids != {}
    ensures TimerFires(s, gid).0.groups[gid].ids + Ids(TimerFires(s, gid).1.records) == s.groups[gid].ids
  {
    var g := s.groups[gid];
    CountIds(g.completed);
    SubsetSize(Ids(g.completed), g.ids);
  }

  // ---------------------------------------------------------------- whole runs

  datatype Event =
    | Registered(gid: GroupId, ids: seq<AgentId>)
    | Completed(c: Completion)
    | Fired(gid: GroupId)

  /** What the outside has seen so far. */
  datatype History = History(
    handed: seq<Completion>,
    passed: multiset<Completion>,
    deliveries: seq<Delivery>,
    superseded: multiset<Completion>,
    clock: int)

  datatype World = World(s: State, h: History)

  /** What the callers guarantee: a new batch has a new id; only armed timers fire. An agent may be registered again
      while an older group still waits for it, or holds a completion of it. */
  ghost predicate Enabled(w: World, e: Event) {
    match e
    case Registered(gid, ids) => gid != "" && gid !in w.s.groups
    case Completed(c) => c.at >= w.h.clock
    case Fired(gid) => gid in w.s.groups && w.s.groups[gid].deadline.Some?
  }

  /** The completion a new one of the same agent would displace. */
  function Displaced(s: State, id: AgentId): Option<Completion> {
    match GroupFor(s, id)
    case None => None
    case Some(gid) =>
      var i := Position(s.groups[gid].completed, id);
      if i < |s.groups[gid].completed| then Some(s.groups[gid].completed[i]) else None
  }

  function Step(w: World, e: Event): World
    requires e.Fired? ==> e.gid in w.s.groups
  {
    var h := w.h;
    match e
    case Registered(gid, ids) => World(Register(w.s, gid, ids), h)
    case Completed(c) =>
      var (s, outcome) := Complete(w.s, c);
      var displaced := Displaced(w.s, c.id);
      World(s, History(
                 h.handed + [c],
                 if outcome.Pass? then h.passed + multiset{c} else h.passed,
                 if outcome.Delivered? then h.deliveries + [outcome.delivery] else h.deliveries,
                 if displaced.Some? then h.superseded + multiset{displaced.value} else h.superseded,
                 c.at))
    case Fired(gid) =>
      var (s, d) := TimerFires(w.s, gid);
      World(s, h.(deliveries := h.deliveries + [d]))
  }

  ghost predicate Runs(w: World, es: seq<Event>, last: World)
    decreases |es|
  {
    if es == [] then w == last
    else Enabled(w, es[0]) && Runs(Step(w, es[0]), es[1..], last)
  }

  function Start(timeout: nat, clock: int): World {
    World(State(map[], map[], timeout), History([], multiset{}, [], multiset{}, clock))
  }

  function DeliveredCompletions(ds: seq<Delivery>): multiset<Completion> {
    if ds == [] then multiset{} else DeliveredCompletions(ds[..|ds| - 1]) + multiset(ds[|ds| - 1].records)
  }

  /** The groups that hold a completion. */
  function HeldBy(s: State, c: Completion): set<GroupId> {
    set gid | gid in s.groups && c in s.groups[gid].completed
  }

  /** Every completion handed in was passed back, delivered, displaced by a newer one of the same
      agent, or is still held, and nothing is counted twice. */
  ghost predicate Conserved(w: World) {
    forall c :: multiset(w.h.handed)[c] ==
                w.h.passed[c] + DeliveredCompletions(w.h.deliveries)[c] + w.h.superseded[c] + |HeldBy(w.s, c)|
  }

  /** No completion waits longer than its group's window. */
  ghost predicate Punctual(w: World) {
    forall gid :: gid in w.s.groups && w.s.groups[gid].deadline.Some? ==>
      Prompt(w.s.groups[gid].deadline.value - Window(w.s, w.s.groups[gid]), w.s.groups[gid].completed, w.h.clock)
  }

  ghost predicate Prompt(armed: int, completed: seq<Completion>, clock: int) {
    armed <= clock && forall c :: c in completed ==> armed <= c.at
  }

  ghost predicate Good(w: World) {
    Inv(w.s) && Conserved(w) && Punctual(w)
  }

  lemma StepKeepsInv(w: World, e: Event)
    requires Inv(w.s) && Enabled(w, e)
    ensures Inv(Step(w, e).s)
  {
    match e
    case Registered(gid, ids) => RegisterKeepsInv(w.s, gid, ids);
    case Completed(c) => CompleteKeepsInv(w.s, c);
    case Fired(gid) => TimerKeepsInv(w.s, gid);
  }

  /** The records of a sound group, each counted once. */
  lemma {:induction false} CountOnce(completed: seq<Completion>, c: Completion)
    requires OnePerAgent(completed)
    ensures multiset(completed)[c] == if c in completed then 1 else 0
  {
    if completed != [] {
      var n := |completed| - 1;
      CountOnce(completed[..n], c);
      assert completed == completed[..n] + [completed[n]];
      assert completed[n] !in completed[..n];
    }
  }

  /** Whether one group holds `d` is a matter of that group; the others are counted apart. */
  lemma HeldSplit(s: State, gid: GroupId, d: Completion)
    ensures |HeldBy(s, d)| == |HeldBy(s, d) - {gid}| + (if gid in s.groups && d in s.groups[gid].completed then 1 else 0)
  {
    if gid in HeldBy(s, d) {
      assert HeldBy(s, d) == (HeldBy(s, d) - {gid}) + {gid};
    } else {
      assert HeldBy(s, d) == HeldBy(s, d) - {gid};
    }
  }

  lemma DisplacedIsTheHeldOne(s: State, id: AgentId, d: Completion)
    requires Inv(s)
    ensures Displaced(s, id) == Some(d) <==> TakenHolds(s, d) && d.id == id
  {
    if GroupFor(s, id).Some? {
      var completed := s.groups[GroupFor(s, id).value].completed;
      var i := Position(completed, id);
      if TakenHolds(s, d) && d.id == id {
        var j :| 0 <= j < |completed| && completed[j] == d;
        assert i == j;
      }
    }
  }

  /** The completion is held by the group that would take the next one of its agent. */
  ghost predicate TakenHolds(s: State, c: Completion) {
    GroupFor(s, c.id).Some? && c in s.groups[GroupFor(s, c.id).value].completed
  }

  lemma CompletedElsewhere(s: State, c: Completion, gid: GroupId, d: Completion)
    requires GroupFor(s, c.id) == Some(gid)
    ensures HeldBy(Complete(s, c).0, d) - {gid} == HeldBy(s, d) - {gid}
  {
  }

  lemma CompletedConserves(w: World, c: Completion)
    requires Inv(w.s) && Conserved(w)
    ensures Conserved(Step(w, Completed(c)))
  {
    var after := Step(w, Completed(c));
    var found := GroupFor(w.s, c.id);
    forall d
      ensures multiset(after.h.handed)[d] ==
              after.h.passed[d] + DeliveredCompletions(after.h.deliveries)[d] + after.h.superseded[d] + |HeldBy(after.s, d)|
    {
      if found.Some? {
        CompletedMoves(w, c, found.value, d);
      } else {
        assert after.s == w.s;
      }
    }
  }

  lemma CompletedMoves(w: World, c: Completion, gid: GroupId, d: Completion)
    requires Inv(w.s) && GroupFor(w.s, c.id) == Some(gid)
    requires multiset(w.h.handed)[d] ==
             w.h.passed[d] + DeliveredCompletions(w.h.deliveries)[d] + w.h.superseded[d] + |HeldBy(w.s, d)|
    ensures var after := Step(w, Completed(c));
            multiset(after.h.handed)[d] ==
            after.h.passed[d] + DeliveredCompletions(after.h.deliveries)[d] + after.h.superseded[d] + |HeldBy(after.s, d)|
  {
    hide HeldBy, Put, Displaced, Complete, Step, Inv, DeliveredCompletions;
    var after := Step(w, Completed(c));
    CompletedElsewhere(w.s, c, gid, d);
    HeldSplit(w.s, gid, d);
    HeldSplit(after.s, gid, d);
    CompletedRecords(w, c, gid, d);
    CompletedDisplaces(w, c, gid, d);
  }

  lemma CompletedRecords(w: World, c: Completion, gid: GroupId, d: Completion)
    requires Inv(w.s) && GroupFor(w.s, c.id) == Some(gid)
    ensures var after, records := Step(w, Completed(c)), Put(w.s.groups[gid].completed, c);
            && after.s == Complete(w.s, c).0 && after.h.passed == w.h.passed
            && (d in records <==> d == c || (d in w.s.groups[gid].completed && d.id != c.id))
            && DeliveredCompletions(after.h.deliveries)[d] + (if gid in after.s.groups && d in after.s.groups[gid].completed then 1 else 0)
               == DeliveredCompletions(w.h.deliveries)[d] + (if d in records then 1 else 0)
  {
    hide Put, Displaced, Listed;
    var after, g := Step(w, Completed(c)), w.s.groups[gid];
    var records := Put(g.completed, c);
    PutSound(g.completed, c);
    CountOnce(records, d);
    if |records| >= |g.ids| {
      assert after.h.deliveries[..|w.h.deliveries|] == w.h.deliveries;
    }
  }

  lemma CompletedDisplaces(w: World, c: Completion, gid: GroupId, d: Completion)
    requires Inv(w.s) && GroupFor(w.s, c.id) == Some(gid)
    ensures var h := Step(w, Completed(c)).h;
            && multiset(h.handed)[d] == multiset(w.h.handed)[d] + (if d == c then 1 else 0)
            && h.superseded[d] == w.h.superseded[d] + (if d in w.s.groups[gid].completed && d.id == c.id then 1 else 0)
  {
    hide Complete, Displaced;
    DisplacedIsTheHeldOne(w.s, c.id, d);
  }

  lemma FiredConserves(w: World, gid: GroupId)
    requires Inv(w.s) && Conserved(w) && gid in w.s.groups
    ensures Conserved(Step(w, Fired(gid)))
  {
    var after := Step(w, Fired(gid));
    assert after.h.deliveries[..|w.h.deliveries|] == w.h.deliveries;
    forall d
      ensures multiset(after.h.handed)[d] ==
              after.h.passed[d] + DeliveredCompletions(after.h.deliveries)[d] + after.h.superseded[d] + |HeldBy(after.s, d)|
    {
      assert HeldBy(after.s, d) == HeldBy(w.s, d) - {gid};
      HeldSplit(w.s, gid, d);
      CountOnce(w.s.groups[gid].completed, d);
    }
  }

  lemma StepConserves(w: World, e: Event)
    requires Inv(w.s) && Conserved(w) && Enabled(w, e)
    ensures Conserved(Step(w, e))
  {
    match e
    case Registered(gid, ids) => assert forall c :: HeldBy(Register(w.s, gid, ids), c) == HeldBy(w.s, c);
    case Completed(c) => CompletedConserves(w, c);
    case Fired(gid) => FiredConserves(w, gid);
  }

  lemma StepPunctual(w: World, e: Event)
    requires Inv(w.s) && Punctual(w) && Enabled(w, e)
    ensures Punctual(Step(w, e))
  {
    if e.Completed? && GroupFor(w.s, e.c.id).Some? {
      var g := w.s.groups[GroupFor(w.s, e.c.id).value];
      PutSound(g.completed, e.c);
      if g.deadline.Some? {
        assert Prompt(g.deadline.value - Window(w.s, g), Put(g.completed, e.c), e.c.at);
      } else {
        assert Prompt(e.c.at, Put(g.completed, e.c), e.c.at);
      }
    }
  }

  /** Over any run from an empty manager the invariant, conservation and the waiting bound hold. */
  lemma {:induction false} RunKeepsGood(w: World, es: seq<Event>, last: World)
    requires Good(w) && Runs(w, es, last)
    ensures Good(last)
    decreases |es|
  {
    if es != [] {
      StepKeepsInv(w, es[0]);
      StepConserves(w, es[0]);
      StepPunctual(w, es[0]);
      RunKeepsGood(Step(w, es[0]), es[1..], last);
    }
  }

  lemma StartIsGood(timeout: nat, clock: int)
    ensures Good(Start(timeout, clock))
  {
  }

  // ---------------------------------------------------------------- displacement

  /** At some moment of the run the agent completes again while the group that takes it holds `c`. */
  ghost predicate Overtaken(w: World, es: seq<Event>, c: Completion)
    decreases |es|
  {
    es != [] && Enabled(w, es[0]) &&
    ((es[0].Completed? && es[0].c.id == c.id && TakenHolds(w.s, c)) || Overtaken(Step(w, es[0]), es[1..], c))
  }

  /** A completion is displaced exactly when its agent completes again, into the group that holds it, before that
      group delivers. */
  lemma {:induction false} SupersededIff(w: World, es: seq<Event>, last: World, c: Completion)
    requires Inv(w.s) && Runs(w, es, last)
    ensures c in last.h.superseded <==> c in w.h.superseded || Overtaken(w, es, c)
    decreases |es|
  {
    hide Inv, Complete, Displaced, TakenHolds, TimerFires, Register;
    if es != [] {
      StepKeepsInv(w, es[0]);
      if es[0].Completed? {
        DisplacedIsTheHeldOne(w.s, es[0].c.id, c);
      }
      SupersededIff(Step(w, es[0]), es[1..], last, c);
    }
  }

  /** A completion handed in once is passed back, delivered in exactly one delivery, or held by exactly one group,
      and only one of these, exactly when it was not displaced. */
  lemma EachCompletionOnceIff(timeout: nat, clock: int, es: seq<Event>, last: World, c: Completion)
    requires Runs(Start(timeout, clock), es, last) && multiset(last.h.handed)[c] == 1
    ensures last.h.passed[c] + DeliveredCompletions(last.h.deliveries)[c] + |HeldBy(last.s, c)| == 1 <==>
            !Overtaken(Start(timeout, clock), es, c)
    ensures last.h.passed[c] + DeliveredCompletions(last.h.deliveries)[c] + |HeldBy(last.s, c)| <= 1
  {
    hide Overtaken, Runs, HeldBy;
    StartIsGood(timeout, clock);
    RunKeepsGood(Start(timeout, clock), es, last);
    SupersededIff(Start(timeout, clock), es, last, c);
  }

  /** An agent that completes twice while held: its first completion is never delivered. */
  lemma SecondCompletionDisplaces(timeout: nat)
    ensures var first, second := Completion("a", 1, 0), Completion("a", 2, 1);
            var w1 := Step(Start(timeout, 0), Registered("g", ["a", "b"]));
            var w2 := Step(w1, Completed(first));
            var w3 := Step(w2, Completed(second));
            && Runs(Start(timeout, 0), [Registered("g", ["a", "b"]), Completed(first), Completed(second)], w3)
            && w3.h.superseded == multiset{first} && w3.s.groups["g"].completed == [second]
  {
    hide Complete, Register, Displaced;
    var first, second := Completion("a", 1, 0), Completion("a", 2, 1);
    var es := [Registered("g", ["a", "b"]), Completed(first), Completed(second)];
    RegisteredPair(timeout);
    var w1 := Step(Start(timeout, 0), es[0]);
    SecondDisplacesFirst(w1, "g", first, second);
    var w2 := Step(w1, es[1]);
    var w3 := Step(w2, es[2]);
    assert es[1..][1..] == es[2..] && es[2..][1..] == [];
    assert Runs(w2, es[2..], w3);
    assert Runs(w1, es[1..], w3);
  }

  lemma RegisteredPair(timeout: nat)
    ensures var s := Register(Start(timeout, 0).s, "g", ["a", "b"]);
            && "g" in s.groups && s.groups["g"].completed == [] && |s.groups["g"].ids| == 2
            && GroupFor(s, "a") == Some("g")
  {
    var ids := ["a", "b"];
    TwoMembers(ids);
    assert ids[0] == "a";
  }

  lemma SecondDisplacesFirst(w: World, gid: GroupId, first: Completion, second: Completion)
    requires GroupFor(w.s, first.id) == Some(gid) && w.s.groups[gid].completed == [] && |w.s.groups[gid].ids| >= 2
    requires first.id == second.id
    ensures var after := Step(Step(w, Completed(first)), Completed(second));
            after.h.superseded == w.h.superseded + multiset{first} && gid in after.s.groups && after.s.groups[gid].completed == [second]
  {
    assert Put([], first) == [first];
    assert Put([first], second) == [second];
  }

  lemma TwoMembers(ids: seq<AgentId>)
    requires |ids| == 2 && ids[0] != ids[1]
    ensures |Members(ids)| == 2
  {
    assert Members(ids) == {ids[0], ids[1]};
  }

  // ---------------------------------------------------------------- an agent in two groups

  /** The two maps agree both ways; in particular no agent is in two live groups. */
  ghost predicate Agreed(s: State) {
    forall gid, id :: gid in s.groups ==> (id in s.groups[gid].ids <==> id in s.groupOf && s.groupOf[id] == gid)
  }

  /** The maps stop agreeing exactly when an agent that a live group still lists is registered again. */
  lemma AgreementBreaksIff(w: World, e: Event)
    requires Inv(w.s) && Agreed(w.s) && Enabled(w, e)
    ensures Agreed(Step(w, e).s) <==> !(e.Registered? && exists id :: id in e.ids && id in w.s.groupOf)
  {
    match e
    case Registered(gid, ids) =>
      RegisterAgreesIff(w.s, gid, ids);
    case Completed(c) => CompleteAgrees(w.s, c);
    case Fired(gid) => TimerAgrees(w.s, gid);
  }

  lemma RegisterAgreesIff(s: State, gid: GroupId, ids: seq<AgentId>)
    requires Inv(s) && Agreed(s) && gid !in s.groups
    ensures Agreed(Register(s, gid, ids)) <==> forall id :: id in ids ==> id !in s.groupOf
  {
    var t := Register(s, gid, ids);
    assert forall id :: id in Members(ids) <==> id in ids;
    if id :| id in ids && id in s.groupOf {
      assert id in t.groups[s.groupOf[id]].ids && t.groupOf[id] == gid;
    } else {
      forall other, id | other in t.groups
        ensures id in t.groups[other].ids <==> id in t.groupOf && t.groupOf[id] == other
      {
        if other != gid {
          assert id in s.groups[other].ids <==> id in s.groupOf && s.groupOf[id] == other;
        } else if id in s.groupOf {
          assert s.groupOf[id] in s.groups;
        }
      }
    }
  }

  lemma CompleteAgrees(s: State, c: Completion)
    requires Agreed(s)
    ensures Agreed(Complete(s, c).0)
  {
    var t := Complete(s, c).0;
    forall gid, id | gid in t.groups
      ensures id in t.groups[gid].ids <==> id in t.groupOf && t.groupOf[id] == gid
    {
      assert id in s.groups[gid].ids <==> id in s.groupOf && s.groupOf[id] == gid;
      if GroupFor(s, c.id).Some? {
        assert id in s.groups[GroupFor(s, c.id).value].ids <==> id in s.groupOf && s.groupOf[id] == GroupFor(s, c.id).value;
      }
    }
  }

  lemma TimerAgrees(s: State, gid: GroupId)
    requires Inv(s) && Agreed(s) && gid in s.groups
    ensures Agreed(TimerFires(s, gid).0)
  {
    var t := TimerFires(s, gid).0;
    forall other, id | other in t.groups
      ensures id in t.groups[other].ids <==> id in t.groupOf && t.groupOf[id] == other
    {
      assert id in s.groups[other].ids <==> id in s.groupOf && s.groupOf[id] == other;
      assert id in Ids(s.groups[gid].completed) ==> id in s.groups[gid].ids;
      assert id in s.groups[gid].ids <==> id in s.groupOf && s.groupOf[id] == gid;
    }
  }

  /** Whatever is held has an armed timer that expires within the group's window of its arrival. */
  lemma HeldBriefly(timeout: nat, clock: int, es: seq<Event>, last: World, c: Completion, gid: GroupId)
    requires Runs(Start(timeout, clock), es, last) && gid in HeldBy(last.s, c)
    ensures var g := last.s.groups[gid];
            g.deadline.Some? && g.deadline.value <= c.at + (if g.straggler then STRAGGLER_TIMEOUT else last.s.timeout)
  {
    StartIsGood(timeout, clock);
    RunKeepsGood(Start(timeout, clock), es, last);
  }

  // ---------------------------------------------------------------- firing the timers flushes everything

  ghost predicate Idle(s: State) {
    forall gid :: gid in s.groups ==> s.groups[gid].completed == []
  }

  function Armed(s: State): set<GroupId> {
    set gid | gid in s.groups && s.groups[gid].deadline.Some?
  }

  /** Let the armed timers expire, in any order: `order` lists them. */
  ghost predicate FiresAll(s: State, order: seq<GroupId>) {
    NoDuplicates(order) && forall gid :: gid in order <==> gid in Armed(s)
  }

  function FireEvents(order: seq<GroupId>): seq<Event> {
    seq(|order|, i requires 0 <= i < |order| => Fired(order[i]))
  }

  lemma FireOne(s: State, gid: GroupId)
    requires Inv(s) && gid in Armed(s)
    ensures Armed(TimerFires(s, gid).0) == Armed(s) - {gid}
  {
  }

  /** Once every armed timer has fired nothing is held, so everything handed in is accounted for outside. */
  lemma {:induction false} FiringFlushes(w: World, order: seq<GroupId>, last: World)
    requires Good(w) && FiresAll(w.s, order) && Runs(w, FireEvents(order), last)
    ensures Good(last) && Idle(last.s)
    ensures forall c :: HeldBy(last.s, c) == {}
    decreases |order|
  {
    if order == [] {
      assert FireEvents(order) == [];
      assert Armed(w.s) == {} by {
        assert forall gid :: gid in Armed(w.s) ==> gid in order;
      }
      forall gid | gid in w.s.groups
        ensures w.s.groups[gid].completed == []
      {
        assert gid !in Armed(w.s);
      }
    } else {
      var gid := order[0];
      assert gid in order;
      FireOne(w.s, gid);
      assert FireEvents(order)[0] == Fired(gid) && FireEvents(order)[1..] == FireEvents(order[1..]);
      var next := Step(w, Fired(gid));
      RunKeepsGood(w, [Fired(gid)], next);
      forall g
        ensures g in order[1..] <==> g in Armed(next.s)
      {
        assert g in order <==> g == gid || g in order[1..];
        assert gid !in order[1..];
      }
      FiringFlushes(next, order[1..], last);
    }
  }

  // ---------------------------------------------------------------- the manager

  lemma MembersOfSnoc(ids: seq<AgentId>, id: AgentId)
    ensures Members(ids + [id]) == Members(ids) + {id}
  {
    var all := ids + [id];
    assert all[|ids|] == id;
    forall x | x in Members(ids)
      ensures x in Members(all)
    {
      var i :| 0 <= i < |ids| && ids[i] == x;
      assert all[i] == x;
    }
  }

  class GroupJoinManager {
    var groups: map<GroupId, Group>
    var agentToGroup: map<AgentId, GroupId>
    const groupTimeout: nat

    ghost function Abs(): State
      reads this
    {
      State(groups, agentToGroup, groupTimeout)
    }

    constructor (groupTimeout: nat := DEFAULT_TIMEOUT)
      ensures Abs() == Start(groupTimeout, 0).s && Inv(Abs())
    {
      this.groupTimeout := groupTimeout;
      groups, agentToGroup := map[], map[];
    }

    method RegisterGroup(groupId: GroupId, agentIds: seq<AgentId>)
      modifies this
      ensures Abs() == Register(old(Abs()), groupId, agentIds)
    {
      IndexMembers(groupId, agentIds);
      groups := groups[groupId := Group(Members(agentIds), [], None, false)];
    }

    method IndexMembers(groupId: GroupId, agentIds: seq<AgentId>)
      modifies this`agentToGroup
      ensures agentToGroup == old(agentToGroup) + (map id | id in Members(agentIds) :: groupId)
    {
      for i := 0 to |agentIds|
        invariant agentToGroup == old(agentToGroup) + (map id | id in Members(agentIds[..i]) :: groupId)
      {
        agentToGroup := agentToGroup[agentIds[i] := groupId];
        assert agentIds[..i + 1] == agentIds[..i] + [agentIds[i]];
        MembersOfSnoc(agentIds[..i], agentIds[i]);
      }
      assert agentIds[..|agentIds|] == agentIds;
    }

    method OnAgentComplete(record: Completion) returns (outcome: Outcome)
      modifies this
      ensures (Abs(), outcome) == Complete(old(Abs()), record)
    {
      if record.id !in agentToGroup || agentToGroup[record.id] == "" {
        return Pass;
      }
      var groupId := agentToGroup[record.id];
      if groupId !in groups {
        return Pass;
      }
      var group := groups[groupId];
      group := group.(completed := Put(group.completed, record));
      if |group.completed| >= |group.ids| {
        CleanupGroup(groupId, group.ids);
        return Delivered(Delivery(group.completed, false));
      }
      if group.deadline.None? {
        var timeout := if group.straggler then STRAGGLER_TIMEOUT else groupTimeout;
        group := group.(deadline := Some(record.at + timeout));
      }
      groups := groups[groupId := group];
      return Held;
    }

    method CleanupGroup(groupId: GroupId, ids: set<AgentId>)
      modifies this
      ensures groups == old(groups) - {groupId} && agentToGroup == old(agentToGroup) - ids
    {
      Unindex(ids);
      groups := groups - {groupId};
    }

    /** The loops that delete an agent's entry one at a time. */
    method Unindex(ids: set<AgentId>)
      modifies this`agentToGroup
      ensures agentToGroup == old(agentToGroup) - ids
    {
      var todo := ids;
      while todo != {}
        invariant todo <= ids
        invariant agentToGroup == old(agentToGroup) - (ids - todo)
        decreases todo
      {
        var id :| id in todo;
        agentToGroup := agentToGroup - {id};
        todo := todo - {id};
      }
    }

    method OnTimeout(groupId: GroupId) returns (delivery: Delivery)
      requires groupId in groups
      modifies this
      ensures (Abs(), delivery) == TimerFires(old(Abs()), groupId)
    {
      var group := groups[groupId];
      var remaining: set<AgentId> := {};
      var todo := group.ids;
      while todo != {}
        invariant todo <= group.ids
        invariant remaining == (group.ids - todo) - Ids(group.completed)
        decreases todo
      {
        var id :| id in todo;
        if Position(group.completed, id) == |group.completed| {
          remaining := remaining + {id};
        } else {
          assert id in Ids(group.completed);
        }
        todo := todo - {id};
      }
      assert remaining == group.ids - Ids(group.completed);
      Unindex(Ids(group.completed));
      delivery := Delivery(group.completed, true);
      groups := groups[groupId := Group(remaining, [], None, true)];
    }

    method DisposeAll()
      modifies this
      ensures Abs() == Dispose(old(Abs())) && Inv(Abs())
    {
      groups, agentToGroup := map[], map[];
    }
  }
}
