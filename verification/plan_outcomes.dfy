// What the plan tools leave on the board: who gets each phase, what its task says, and how the intent ends.
module PlanOutcomes {
  import opened Common
  import opened PhaseValidation
  import opened PlanTools

  // ---------------------------------------------------------------- what the rules say of a plan

  /** The table of shapes: fewest and most phases, the first, and the last if there is one. */
  ghost predicate HasBounds(shape: Shape, least: nat, most: nat, first: Phase, last: Option<Phase>) {
    match shape
    case Trivial => least == 1 && most == 1 && first == Implement && last == Some(Implement)
    case Small => least == 2 && most == 2 && first == Implement && last == Some(Review)
    case Standard => least == 2 && most == 2 && first == Implement && last == Some(Review)
    case InvestigateThenFix => least == 3 && most == 6 && first == Investigate && last == Some(Review)
    case MultiPhase => least == 3 && most == 8 && first == Design && last == Some(Review)
    case MultiTrack => least == 2 && most == 10 && first == Implement && last == None
  }

  /** A plan is accepted exactly when its rationale has ten to five hundred characters and it is in the catalogue. */
  lemma AcceptedIff(shape: Shape, phases: seq<Phase>, rationale: string)
    ensures ValidateFinal(shape, phases, rationale).None? <==> 10 <= |rationale| <= 500 && InCatalogue(shape, phases)
    ensures ValidateRationale(rationale).None? <==> 10 <= |rationale| <= 500
  {
    if ValidateRationale(rationale).None? {
      FinalIffInCatalogue(shape, phases, rationale);
    }
  }

  ghost predicate TwoReviews(phases: seq<Phase>) {
    exists i, j :: 0 <= i < j < |phases| && phases[i] == Review && phases[j] == Review
  }

  /** A running list is accepted exactly when nothing is wrong with it yet: it begins as its shape begins, is not too
      long, has at most one review (a trivial one none), ends as it must once it is full, and has no phase but implement
      from the second one on in several tracks. */
  lemma RunningListIff(shape: Shape, phases: seq<Phase>, least: nat, most: nat, first: Phase, last: Option<Phase>)
    requires HasBounds(shape, least, most, first, last)
    ensures ValidateCumulative(shape, phases).None? <==>
              && 1 <= |phases| <= most && phases[0] == first && !TwoReviews(phases)
              && (shape == Trivial ==> Review !in phases)
              && (last.Some? && |phases| == most ==> phases[most - 1] == last.value)
              && (shape == MultiTrack && |phases| >= 2 ==> forall i :: 0 <= i < |phases| ==> phases[i] == Implement)
  {
    hide CountOf;
    CountBelowTwoIff(phases, Review);
  }

  /** A refusal names a rule that the plan does break. */
  ghost predicate IsBroken(rule: Rule, shape: Shape, phases: seq<Phase>, rationale: string, least: nat, most: nat, first: Phase, last: Option<Phase>) {
    match rule
    case RationaleTooShort => |rationale| < 10
    case RationaleTooLong => |rationale| > 500
    case PhaseCountOutOfBounds => |phases| < least || |phases| > most
    case FirstPhaseMismatch => phases != [] && phases[0] != first
    case LastPhaseMismatch => phases != [] && last.Some? && phases[|phases| - 1] != last.value
    case MultipleReviewPhases => TwoReviews(phases)
    case TrivialShapeHasReview => shape == Trivial && Review in phases
    case MultiTrackTooFewImplements => shape == MultiTrack && ((exists i :: 0 <= i < |phases| && phases[i] != Implement) || |phases| < 2)
    case InvestigateThenFixNoImplement => shape == InvestigateThenFix && Implement !in phases
    case EmptyPhases => phases == []
  }

  lemma RefusalIsTrue(shape: Shape, phases: seq<Phase>, rationale: string, least: nat, most: nat, first: Phase, last: Option<Phase>)
    requires HasBounds(shape, least, most, first, last)
    ensures ValidateFinal(shape, phases, rationale).Some? ==>
              IsBroken(ValidateFinal(shape, phases, rationale).value, shape, phases, rationale, least, most, first, last)
    ensures ValidateCumulative(shape, phases).Some? ==>
              IsBroken(ValidateCumulative(shape, phases).value, shape, phases, rationale, least, most, first, last)
  {
    hide CountOf;
    CountBelowTwoIff(phases, Review);
    CountZeroIff(phases, Implement);
    if shape == MultiTrack && CountOf(phases, Implement) < 2 && |phases| >= 2 && forall i :: 0 <= i < |phases| ==> phases[i] == Implement {
      AllImplementCount(phases);
    }
  }

  // ---------------------------------------------------------------- who gets a phase

  /** Reviews go to a reviewer, every other phase to a developer. */
  predicate IsRightAgent(phase: Phase, agent: Value) {
    agent == match phase
             case Review => Agent(Reviewer)
             case Investigate => Agent(Developer)
             case Design => Agent(Developer)
             case Implement => Agent(Developer)
             case Test => Agent(Developer)
  }

  ghost predicate HasRightAgent(t: Task) {
    && PhaseKey in t.meta && t.meta[PhaseKey].PhaseName? && AgentKey in t.meta
    && IsRightAgent(t.meta[PhaseKey].p, t.meta[AgentKey])
  }

  ghost predicate AgentsAreRight(b: Board) {
    forall id :: id in b.tasks && b.tasks[id].kind == Plan ==> HasRightAgent(b.tasks[id])
  }

  lemma NewTaskHasRightAgent(spec: PhaseSpec, intent: TaskId, count: Option<nat>)
    ensures var t := PlanTask(spec, intent, count); t.kind == Plan && HasRightAgent(t) && t.meta[PhaseKey] == PhaseName(spec.phase)
  {
  }

  lemma UpdateKeepsAgents(b: Board, id: TaskId, status: Option<TaskStatus>, fields: Metadata)
    requires AgentsAreRight(b) && PhaseKey !in fields && AgentKey !in fields
    ensures AgentsAreRight(UpdateMeta(b, id, status, fields))
  {
  }

  lemma {:induction false} CreateAllKeepsAgents(b: Board, intent: TaskId, specs: seq<PhaseSpec>)
    requires AgentsAreRight(b)
    ensures AgentsAreRight(CreateAll(b, intent, specs))
    decreases |specs|
  {
    hide PlanTask;
    if specs != [] {
      CreateAllKeepsAgents(b, intent, specs[..|specs| - 1]);
      NewTaskHasRightAgent(specs[|specs| - 1], intent, None);
    }
  }

  lemma CallKeepsAgents(b: Board, c: Call)
    requires AgentsAreRight(b)
    ensures AgentsAreRight(Run(b, c))
  {
    hide PlanTask, UpdateMeta, CreateAll, ValidateFinal, ValidateCumulative, ValidateRationale, Reconstruct;
    match c
    case NewIntent(_, _) =>
    case PlanCall(id, shape, rationale, now) =>
      UpdateKeepsAgents(b, id, None, map[PlanningKey := PlanningState(Planning(shape, rationale, 0, [], None, now))]);
    case AddCall(id, spec) => AddKeepsAgents(b, id, spec);
    case CloseCall(id, now) =>
      if CloseIntent(b, id, now).Ok? {
        UpdateKeepsAgents(b, id, Some(Completed), map[Converted := Flag(true), ConvertedAt := Number(now),
             ConvertedBy := Text("task_close_intent"), PlanTaskIds := TaskRefs(OpenPlanning(b, id).value.planTaskIds)]);
      }
    case ConvertCall(id, shape, rationale, specs, now) =>
      UpdateKeepsAgents(b, id, Some(Completed), map[Converted := Flag(true), ConvertedAt := Number(now), ShapeKey := ShapeName(shape), RationaleKey := Text(rationale)]);
      CreateAllKeepsAgents(Marked(b, id, shape, rationale, now), id, specs);
    case StatusSet(id, status) => UpdateKeepsAgents(b, id, Some(status), map[]);
  }

  lemma AddKeepsAgents(b: Board, id: TaskId, spec: PhaseSpec)
    requires AgentsAreRight(b)
    ensures AddPhase(b, id, spec).Ok? ==> AgentsAreRight(AddPhase(b, id, spec).value)
  {
    hide PlanTask, UpdateMeta, ValidateCumulative, Reconstruct;
    if AddPhase(b, id, spec).Ok? {
      var p := OpenPlanning(b, id).value;
      var count := p.phasesAdded + 1;
      NewTaskHasRightAgent(spec, id, Some(count));
      UpdateKeepsAgents(Create(b, PlanTask(spec, id, Some(count))), id, None,
                        map[PlanningKey := PlanningState(p.(phasesAdded := count, planTaskIds := p.planTaskIds + [b.nextId], phases := Some(RunningPhases(b, p) + [spec.phase])))]);
    }
  }

  lemma {:induction false} RunKeepsAgents(b: Board, calls: seq<Call>)
    requires AgentsAreRight(b)
    ensures AgentsAreRight(RunAll(b, calls))
    decreases |calls|
  {
    hide AgentsAreRight, Run;
    if calls != [] {
      CallKeepsAgents(b, calls[0]);
      RunKeepsAgents(Run(b, calls[0]), calls[1..]);
    }
  }

  const EMPTY := Board(map[], 1)

  /** Over any calls on an empty board, every plan task goes to a reviewer exactly when its phase is a review, whatever
      the caller's metadata said. */
  lemma PhasesReachTheRightAgents(calls: seq<Call>, id: TaskId)
    requires id in RunAll(EMPTY, calls).tasks && RunAll(EMPTY, calls).tasks[id].kind == Plan
    ensures var t := RunAll(EMPTY, calls).tasks[id];
            && PhaseKey in t.meta && t.meta[PhaseKey].PhaseName? && AgentKey in t.meta
            && (t.meta[AgentKey] == Agent(Reviewer) <==> t.meta[PhaseKey].p == Review)
            && (t.meta[AgentKey] == Agent(Developer) <==> t.meta[PhaseKey].p in {Investigate, Design, Implement, Test})
  {
    RunKeepsAgents(EMPTY, calls);
    assert HasRightAgent(RunAll(EMPTY, calls).tasks[id]);
  }

  // ---------------------------------------------------------------- what a plan task says

  /** The task of a phase: the caller's words and metadata, but phase, agent, source and count are the tools' own. */
  ghost predicate IsTaskOf(t: Task, spec: PhaseSpec, intent: TaskId) {
    && t.kind == Plan && t.status == Pending
    && t.subject == spec.subject && t.description == spec.description && t.activeForm == spec.activeForm
    && HasRightAgent(t) && t.meta[PhaseKey] == PhaseName(spec.phase)
    && SourceIntent in t.meta && t.meta[SourceIntent] == TaskRef(intent)
    && (forall k :: k in spec.meta && k !in {AgentKey, PhaseKey, SourceIntent, CumulativeCount} ==> k in t.meta && t.meta[k] == spec.meta[k])
    && (forall k :: k in t.meta && k !in {AgentKey, PhaseKey, SourceIntent, CumulativeCount} ==> k in spec.meta)
  }

  lemma PlanTaskSays(spec: PhaseSpec, intent: TaskId, count: Option<nat>)
    ensures IsTaskOf(PlanTask(spec, intent, count), spec, intent)
    ensures count.Some? ==> CumulativeCount in PlanTask(spec, intent, count).meta && PlanTask(spec, intent, count).meta[CumulativeCount] == Number(count.value)
  {
  }

  /** An intent that was turned into a plan: completed, marked as converted, its words and other metadata kept. */
  ghost predicate IsConvertedFrom(t: Task, before: Task) {
    && t.kind == Intent && t.status == Completed && t.subject == before.subject && t.description == before.description && t.activeForm == before.activeForm
    && Converted in t.meta && t.meta[Converted] == Flag(true) && ConvertedAt in t.meta
    && forall k :: k in before.meta && k !in {Converted, ConvertedAt, ConvertedBy, ShapeKey, RationaleKey, PlanTaskIds, PlanningKey} ==>
         k in t.meta && t.meta[k] == before.meta[k]
  }

  lemma MarkedIs(b: Board, id: TaskId, shape: Shape, rationale: string, now: int)
    requires id in b.tasks && b.tasks[id].kind == Intent
    ensures var m := Marked(b, id, shape, rationale, now);
            && m.nextId == b.nextId && m.tasks.Keys == b.tasks.Keys && (forall i :: i in b.tasks && i != id ==> m.tasks[i] == b.tasks[i])
            && IsConvertedFrom(m.tasks[id], b.tasks[id])
            && ShapeKey in m.tasks[id].meta && m.tasks[id].meta[ShapeKey] == ShapeName(shape)
            && RationaleKey in m.tasks[id].meta && m.tasks[id].meta[RationaleKey] == Text(rationale)
            && m.tasks[id].meta[ConvertedAt] == Number(now)
  {
  }

  /** One conversion: the intent is completed and keeps what was asked; one task for each phase is added in order, with
      the next ids; no other task is touched. */
  lemma ConversionLeaves(b: Board, id: TaskId, shape: Shape, rationale: string, specs: seq<PhaseSpec>, now: int)
    requires (forall i :: i in b.tasks ==> i < b.nextId) && ConvertIntent(b, id, shape, rationale, specs, now).Ok?
    ensures id in b.tasks
    ensures var c := ConvertIntent(b, id, shape, rationale, specs, now).value;
            && c.nextId == b.nextId + |specs| && |specs| > 0
            && (forall i :: i in c.tasks <==> i in b.tasks || b.nextId <= i < b.nextId + |specs|)
            && (forall i :: i in b.tasks && i != id ==> c.tasks[i] == b.tasks[i])
            && IsConvertedFrom(c.tasks[id], b.tasks[id])
            && ShapeKey in c.tasks[id].meta && c.tasks[id].meta[ShapeKey] == ShapeName(shape)
            && RationaleKey in c.tasks[id].meta && c.tasks[id].meta[RationaleKey] == Text(rationale)
            && c.tasks[id].meta[ConvertedAt] == Number(now)
            && (forall i :: b.nextId <= i < b.nextId + |specs| ==> IsTaskOf(c.tasks[i], specs[i - b.nextId], id))
  {
    hide ValidateFinal, PlanTask, CreateAll, IsTaskOf, IsConvertedFrom, Marked;
    var m := Marked(b, id, shape, rationale, now);
    MarkedIs(b, id, shape, rationale, now);
    CreateAllFacts(m, id, specs);
    forall k | 0 <= k < |specs|
      ensures IsTaskOf(PlanTask(specs[k], id, None), specs[k], id)
    {
      PlanTaskSays(specs[k], id, None);
    }
  }

  /** An added phase: one task with the next id and its running number, listed in the planning state of its intent, which
      stays as open as it was. */
  lemma AddedPhaseLeaves(b: Board, id: TaskId, spec: PhaseSpec)
    requires (forall i :: i in b.tasks ==> i < b.nextId) && AddPhase(b, id, spec).Ok?
    ensures id in b.tasks && PlanningKey in b.tasks[id].meta && b.tasks[id].meta[PlanningKey].PlanningState?
    ensures var c, p := AddPhase(b, id, spec).value, b.tasks[id].meta[PlanningKey].planning;
            && c.nextId == b.nextId + 1 && (forall i :: i in c.tasks <==> i in b.tasks || i == b.nextId)
            && (forall i :: i in b.tasks && i != id ==> c.tasks[i] == b.tasks[i])
            && IsTaskOf(c.tasks[b.nextId], spec, id)
            && CumulativeCount in c.tasks[b.nextId].meta && c.tasks[b.nextId].meta[CumulativeCount] == Number(p.phasesAdded + 1)
            && c.tasks[id].status == b.tasks[id].status && PlanningKey in c.tasks[id].meta && c.tasks[id].meta[PlanningKey].PlanningState?
            && var q := c.tasks[id].meta[PlanningKey].planning;
               && q.shape == p.shape && q.rationale == p.rationale && q.plannedAt == p.plannedAt
               && q.phasesAdded == p.phasesAdded + 1 && q.planTaskIds == p.planTaskIds + [b.nextId]
  {
    hide ValidateCumulative, PlanTask, Reconstruct, IsTaskOf;
    var p := OpenPlanning(b, id).value;
    PlanTaskSays(spec, id, Some(p.phasesAdded + 1));
  }

  /** A close: the intent is completed and lists its plan tasks; no other task is touched. */
  lemma CloseLeaves(b: Board, id: TaskId, now: int)
    requires CloseIntent(b, id, now).Ok?
    ensures id in b.tasks && PlanningKey in b.tasks[id].meta && b.tasks[id].meta[PlanningKey].PlanningState?
    ensures var c := CloseIntent(b, id, now).value;
            && c.nextId == b.nextId && c.tasks.Keys == b.tasks.Keys && (forall i :: i in b.tasks && i != id ==> c.tasks[i] == b.tasks[i])
            && IsConvertedFrom(c.tasks[id], b.tasks[id])
            && ConvertedBy in c.tasks[id].meta && c.tasks[id].meta[ConvertedBy] == Text("task_close_intent") && c.tasks[id].meta[ConvertedAt] == Number(now)
            && PlanTaskIds in c.tasks[id].meta && c.tasks[id].meta[PlanTaskIds] == TaskRefs(b.tasks[id].meta[PlanningKey].planning.planTaskIds)
  {
    hide ValidateFinal, Reconstruct;
  }

  // ---------------------------------------------------------------- what is refused, and why

  /** Absent, null, false, zero and empty text count as not set. */
  predicate IsSet(meta: Metadata, k: MetaKey) {
    k in meta && meta[k] !in {Null, Flag(false), Number(0), Text("")}
  }

  lemma TruthyMeans(meta: Metadata, k: MetaKey)
    ensures Truthy(meta, k) <==> IsSet(meta, k)
  {
  }

  /** A conversion is refused for a missing task, one that is no intent, one converted already, no phases, or a broken
      rule, in that order; and for nothing else. */
  lemma ConversionRefusedFor(b: Board, id: TaskId, shape: Shape, rationale: string, specs: seq<PhaseSpec>, now: int)
    ensures var r := ConvertIntent(b, id, shape, rationale, specs, now);
            && (r == Err(IntentNotFound) <==> id !in b.tasks)
            && (r == Err(NotIntent) <==> id in b.tasks && b.tasks[id].kind == Plan)
            && (r == Err(AlreadyConverted) <==> id in b.tasks && b.tasks[id].kind == Intent && IsSet(b.tasks[id].meta, Converted))
            && (r == Err(NoPhases) <==> id in b.tasks && b.tasks[id].kind == Intent && !IsSet(b.tasks[id].meta, Converted) && specs == [])
            && (r.Err? && r.error.ShapeViolation? <==>
                  && id in b.tasks && b.tasks[id].kind == Intent && !IsSet(b.tasks[id].meta, Converted) && specs != []
                  && !(10 <= |rationale| <= 500 && InCatalogue(shape, PhasesOf(specs))))
            && (r.Err? ==> r.error in {IntentNotFound, NotIntent, AlreadyConverted, NoPhases} || r.error.ShapeViolation?)
  {
    hide ValidateFinal, InCatalogue, CreateAll, Marked;
    AcceptedIff(shape, PhasesOf(specs), rationale);
    if id in b.tasks {
      TruthyMeans(b.tasks[id].meta, Converted);
    }
  }

  /** Planning is refused for a missing task, one that is no intent, one planned already, or its rationale; what it
      stores is an empty list of phases. */
  lemma PlanningRefusedFor(b: Board, id: TaskId, shape: Shape, rationale: string, now: int)
    ensures var r := PlanIntent(b, id, shape, rationale, now);
            && (r == Err(IntentNotFound) <==> id !in b.tasks)
            && (r == Err(NotIntent) <==> id in b.tasks && b.tasks[id].kind == Plan)
            && (r == Err(AlreadyPlanned) <==> id in b.tasks && b.tasks[id].kind == Intent && IsSet(b.tasks[id].meta, PlanningKey))
            && (r.Ok? <==> id in b.tasks && b.tasks[id].kind == Intent && !IsSet(b.tasks[id].meta, PlanningKey) && 10 <= |rationale| <= 500)
            && (r.Ok? ==>
                  && r.value.nextId == b.nextId && r.value.tasks == b.tasks[id := b.tasks[id].(meta := r.value.tasks[id].meta)]
                  && r.value.tasks[id].meta == b.tasks[id].meta[PlanningKey := PlanningState(Planning(shape, rationale, 0, [], None, now))])
  {
    if id in b.tasks {
      TruthyMeans(b.tasks[id].meta, PlanningKey);
    }
    if PlanIntent(b, id, shape, rationale, now).Ok? {
      var fields := map[PlanningKey := PlanningState(Planning(shape, rationale, 0, [], None, now))];
      assert Merge(b.tasks[id].meta, fields) == b.tasks[id].meta[PlanningKey := fields[PlanningKey]] by {
        MergeOne(b.tasks[id].meta, PlanningKey, fields[PlanningKey]);
      }
    }
  }

  lemma MergeOne(meta: Metadata, k: MetaKey, v: Value)
    requires v != Null
    ensures Merge(meta, map[k := v]) == meta[k := v]
  {
  }

  /** A merge in plain terms: a null deletes, anything else replaces, the rest stays. */
  lemma MergeMeans(meta: Metadata, fields: Metadata, k: MetaKey)
    ensures var r := Merge(meta, fields);
            && (k in fields && fields[k] == Null ==> k !in r)
            && (k in fields && fields[k] != Null ==> k in r && r[k] == fields[k])
            && (k !in fields ==> (k in r <==> k in meta) && (k in r ==> r[k] == meta[k]))
  {
  }

  /** Adding and closing are refused for a missing task, one that is no intent or not planned, one converted or completed
      already, and otherwise only by the rules. */
  lemma OpenPlanningMeans(b: Board, id: TaskId)
    ensures var r := OpenPlanning(b, id);
            && (r == Err(IntentNotFound) <==> id !in b.tasks)
            && (r == Err(NotIntent) <==> id in b.tasks && b.tasks[id].kind == Plan)
            && (r == Err(NotPlanned) <==> id in b.tasks && b.tasks[id].kind == Intent && !IsSet(b.tasks[id].meta, PlanningKey))
            && (r == Err(AlreadyClosed) <==> id in b.tasks && b.tasks[id].kind == Intent && IsSet(b.tasks[id].meta, PlanningKey)
                                             && (IsSet(b.tasks[id].meta, Converted) || b.tasks[id].status == Completed))
            && (r.Ok? ==> b.tasks[id].meta[PlanningKey] == PlanningState(r.value))
  {
    if id in b.tasks {
      TruthyMeans(b.tasks[id].meta, PlanningKey);
      TruthyMeans(b.tasks[id].meta, Converted);
    }
  }

  lemma AddAndCloseRefusedFor(b: Board, id: TaskId, spec: PhaseSpec, now: int)
    ensures OpenPlanning(b, id).Err? ==> AddPhase(b, id, spec) == Err(OpenPlanning(b, id).error) && CloseIntent(b, id, now) == Err(OpenPlanning(b, id).error)
    ensures OpenPlanning(b, id).Ok? ==>
              var p := OpenPlanning(b, id).value;
              && (AddPhase(b, id, spec).Ok? <==> ValidateCumulative(p.shape, RunningPhases(b, p) + [spec.phase]).None?)
              && (CloseIntent(b, id, now).Ok? <==> 10 <= |p.rationale| <= 500 && InCatalogue(p.shape, RunningPhases(b, p)))
  {
    hide ValidateFinal, ValidateCumulative, InCatalogue, PlanTask, UpdateMeta;
    if OpenPlanning(b, id).Ok? {
      var p := OpenPlanning(b, id).value;
      AcceptedIff(p.shape, RunningPhases(b, p), p.rationale);
    }
  }
}
