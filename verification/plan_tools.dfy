// The tools that turn an intent into plan tasks: at once, or one phase at a time.
module PlanTools {
  import opened Common
  import opened PhaseValidation

  type TaskId = nat

  datatype AgentType = Developer | Reviewer

  datatype TaskType = Intent | Plan

  datatype TaskStatus = Pending | InProgress | Completed

  /** The metadata keys the tools stamp, and every other key. */
  datatype MetaKey =
    | AgentKey | PhaseKey | SourceIntent | CumulativeCount
    | Converted | ConvertedAt | ConvertedBy | ShapeKey | RationaleKey | PlanTaskIds | PlanningKey
    | User(name: string)

  datatype Planning = Planning(shape: Shape, rationale: string, phasesAdded: nat, planTaskIds: seq<TaskId>, phases: Option<seq<Phase>>, plannedAt: int)

  datatype Value =
    | Null
    | Flag(b: bool)
    | Number(n: int)
    | Text(s: string)
    | Agent(a: AgentType)
    | PhaseName(p: Phase)
    | TaskRef(id: TaskId)
    | TaskRefs(ids: seq<TaskId>)
    | ShapeName(shape: Shape)
    | PlanningState(planning: Planning)

  type Metadata = map<MetaKey, Value>

  datatype Task = Task(kind: TaskType, status: TaskStatus, subject: string, description: string, activeForm: Option<string>, meta: Metadata)

  datatype PhaseSpec = PhaseSpec(phase: Phase, subject: string, description: string, activeForm: Option<string>, meta: Metadata)

  /** The task file: ids are handed out in order and never reused. */
  datatype Board = Board(tasks: map<TaskId, Task>, nextId: TaskId)

  datatype ToolError =
    | IntentNotFound | NotIntent | AlreadyConverted | AlreadyPlanned | NotPlanned | AlreadyClosed | NoPhases
    | ShapeViolation(rule: Rule)
    | Malformed     // the planning member is not what the tools write

  function AgentOf(p: Phase): AgentType {
    if p == Review then Reviewer else Developer
  }

  // ---------------------------------------------------------------- the store

  /** Shallow merge; a null deletes its key. */
  function Merge(meta: Metadata, fields: Metadata): Metadata {
    map k | k in meta.Keys + fields.Keys && !(k in fields && fields[k].Null?) :: if k in fields then fields[k] else meta[k]
  }

  function Create(b: Board, t: Task): Board {
    Board(b.tasks[b.nextId := t], b.nextId + 1)
  }

  function UpdateMeta(b: Board, id: TaskId, status: Option<TaskStatus>, fields: Metadata): Board {
    if id !in b.tasks then b
    else
      var t := b.tasks[id];
      b.(tasks := b.tasks[id := t.(status := if status.Some? then status.value else t.status, meta := Merge(t.meta, fields))])
  }

  predicate Truthy(meta: Metadata, k: MetaKey) {
    k in meta &&
    match meta[k]
    case Null => false
    case Flag(b) => b
    case Number(n) => n != 0
    case Text(s) => s != ""
    case _ => true
  }

  // ---------------------------------------------------------------- the tools

  /** The checks every tool starts with. */
  function FindIntent(b: Board, id: TaskId): Result<Task, ToolError> {
    if id !in b.tasks then Err(IntentNotFound)
    else if b.tasks[id].kind != Intent then Err(NotIntent)
    else Ok(b.tasks[id])
  }

  function PlanIntent(b: Board, id: TaskId, shape: Shape, rationale: string, now: int): Result<Board, ToolError> {
    match FindIntent(b, id)
    case Err(e) => Err(e)
    case Ok(t) =>
      if Truthy(t.meta, PlanningKey) then Err(AlreadyPlanned)
      else if ValidateRationale(rationale).Some? then Err(ShapeViolation(ValidateRationale(rationale).value))
      else Ok(UpdateMeta(b, id, None, map[PlanningKey := PlanningState(Planning(shape, rationale, 0, [], None, now))]))
  }

  predicate IsClosed(t: Task) {
    Truthy(t.meta, Converted) || t.status == Completed
  }

  /** An intent that is planned and still open. */
  function OpenPlanning(b: Board, id: TaskId): Result<Planning, ToolError> {
    match FindIntent(b, id)
    case Err(e) => Err(e)
    case Ok(t) =>
      if !Truthy(t.meta, PlanningKey) then Err(NotPlanned)
      else if IsClosed(t) then Err(AlreadyClosed)
      else if !t.meta[PlanningKey].PlanningState? then Err(Malformed)
      else Ok(t.meta[PlanningKey].planning)
  }

  /** The phases of the plan tasks, for planning states that do not hold the list. */
  function Reconstruct(b: Board, ids: seq<TaskId>): seq<Phase> {
    if ids == [] then []
    else
      var rest := Reconstruct(b, ids[1..]);
      if ids[0] in b.tasks && PhaseKey in b.tasks[ids[0]].meta && b.tasks[ids[0]].meta[PhaseKey].PhaseName? then
        [b.tasks[ids[0]].meta[PhaseKey].p] + rest
      else rest
  }

  function RunningPhases(b: Board, p: Planning): seq<Phase> {
    if p.phases.Some? then p.phases.value else Reconstruct(b, p.planTaskIds)
  }

  /** The stamps come after the caller's metadata, so they win. */
  function PlanTask(spec: PhaseSpec, intent: TaskId, count: Option<nat>): Task {
    Task(Plan, Pending, spec.subject, spec.description, spec.activeForm,
         spec.meta
         + map[AgentKey := Agent(AgentOf(spec.phase)), PhaseKey := PhaseName(spec.phase), SourceIntent := TaskRef(intent)]
         + (if count.Some? then map[CumulativeCount := Number(count.value)] else map[]))
  }

  function AddPhase(b: Board, id: TaskId, spec: PhaseSpec): Result<Board, ToolError> {
    match OpenPlanning(b, id)
    case Err(e) => Err(e)
    case Ok(p) =>
      var phases := RunningPhases(b, p) + [spec.phase];
      var verdict := ValidateCumulative(p.shape, phases);
      if verdict.Some? then Err(ShapeViolation(verdict.value))
      else
        var count := p.phasesAdded + 1;
        var planning := p.(phasesAdded := count, planTaskIds := p.planTaskIds + [b.nextId], phases := Some(phases));
        Ok(UpdateMeta(Create(b, PlanTask(spec, id, Some(count))), id, None, map[PlanningKey := PlanningState(planning)]))
  }

  function CloseIntent(b: Board, id: TaskId, now: int): Result<Board, ToolError> {
    match OpenPlanning(b, id)
    case Err(e) => Err(e)
    case Ok(p) =>
      var verdict := ValidateFinal(p.shape, RunningPhases(b, p), p.rationale);
      if verdict.Some? then Err(ShapeViolation(verdict.value))
      else
        Ok(UpdateMeta(b, id, Some(Completed), map[Converted := Flag(true), ConvertedAt := Number(now),
             ConvertedBy := Text("task_close_intent"), PlanTaskIds := TaskRefs(p.planTaskIds)]))
  }

  function PhasesOf(specs: seq<PhaseSpec>): (r: seq<Phase>)
    ensures |r| == |specs| && forall i :: 0 <= i < |specs| ==> r[i] == specs[i].phase
  {
    seq(|specs|, i requires 0 <= i < |specs| => specs[i].phase)
  }

  function CreateAll(b: Board, intent: TaskId, specs: seq<PhaseSpec>): Board
    decreases |specs|
  {
    if specs == [] then b
    else Create(CreateAll(b, intent, specs[..|specs| - 1]), PlanTask(specs[|specs| - 1], intent, None))
  }

  /** The audit an atomic conversion leaves on the intent. */
  function Marked(b: Board, id: TaskId, shape: Shape, rationale: string, now: int): Board {
    UpdateMeta(b, id, Some(Completed), map[Converted := Flag(true), ConvertedAt := Number(now),
               ShapeKey := ShapeName(shape), RationaleKey := Text(rationale)])
  }

  function ConvertIntent(b: Board, id: TaskId, shape: Shape, rationale: string, specs: seq<PhaseSpec>, now: int): Result<Board, ToolError> {
    match FindIntent(b, id)
    case Err(e) => Err(e)
    case Ok(t) =>
      if Truthy(t.meta, Converted) then Err(AlreadyConverted)
      else if |specs| == 0 then Err(NoPhases)
      else
        var verdict := ValidateFinal(shape, PhasesOf(specs), rationale);
        if verdict.Some? then Err(ShapeViolation(verdict.value))
        else
          Ok(CreateAll(Marked(b, id, shape, rationale, now), id, specs))
  }

  // ---------------------------------------------------------------- events

  datatype Call =
    | NewIntent(subject: string, meta: Metadata)
    | PlanCall(id: TaskId, shape: Shape, rationale: string, now: int)
    | AddCall(id: TaskId, spec: PhaseSpec)
    | CloseCall(id: TaskId, now: int)
    | ConvertCall(id: TaskId, shape: Shape, rationale: string, specs: seq<PhaseSpec>, now: int)
    | StatusSet(id: TaskId, status: TaskStatus)

  /** What callers may put on a new intent: anything but the tools' own stamps. */
  predicate Unstamped(meta: Metadata) {
    PlanningKey !in meta && Converted !in meta && SourceIntent !in meta
  }

  /** A refused call changes nothing. */
  function Run(b: Board, c: Call): Board {
    var r := match c
      case NewIntent(subject, meta) => Ok(if Unstamped(meta) then Create(b, Task(Intent, Pending, subject, "", None, meta)) else b)
      case PlanCall(id, shape, rationale, now) => PlanIntent(b, id, shape, rationale, now)
      case AddCall(id, spec) => AddPhase(b, id, spec)
      case CloseCall(id, now) => CloseIntent(b, id, now)
      case ConvertCall(id, shape, rationale, specs, now) => ConvertIntent(b, id, shape, rationale, specs, now)
      case StatusSet(id, status) => Ok(UpdateMeta(b, id, Some(status), map[]));
    if r.Ok? then r.value else b
  }

  function RunAll(b: Board, calls: seq<Call>): Board
    decreases |calls|
  {
    if calls == [] then b else RunAll(Run(b, calls[0]), calls[1..])
  }

  // ---------------------------------------------------------------- the invariant

  /** A plan task as the tools stamp it. */
  ghost predicate Stamped(t: Task, phase: Phase, intent: TaskId) {
    && t.kind == Plan
    && PhaseKey in t.meta && t.meta[PhaseKey] == PhaseName(phase)
    && AgentKey in t.meta && t.meta[AgentKey] == Agent(AgentOf(phase))
    && SourceIntent in t.meta && t.meta[SourceIntent] == TaskRef(intent)
  }

  ghost predicate StampedAt(b: Board, id: TaskId, phase: Phase, intent: TaskId, count: nat) {
    && id in b.tasks && Stamped(b.tasks[id], phase, intent)
    && CumulativeCount in b.tasks[id].meta && b.tasks[id].meta[CumulativeCount] == Number(count)
  }

  /** The three records of one planning state agree with each other and with the tasks they list. */
  ghost predicate Aligned(b: Board, intent: TaskId, p: Planning) {
    && p.phasesAdded == |p.planTaskIds|
    && (p.phases.None? ==> p.planTaskIds == [])
    && (p.phases.Some? ==>
          && |p.phases.value| == |p.planTaskIds|
          && (forall i :: 0 <= i < |p.planTaskIds| ==> StampedAt(b, p.planTaskIds[i], p.phases.value[i], intent, i + 1))
          && (p.phases.value != [] ==> Buildable(p.shape, p.phases.value)))
    && (forall i, j :: 0 <= i < j < |p.planTaskIds| ==> p.planTaskIds[i] < p.planTaskIds[j])
  }

  ghost predicate IntentSound(b: Board, id: TaskId, t: Task) {
    && (PlanningKey in t.meta ==> t.meta[PlanningKey].PlanningState? && Aligned(b, id, t.meta[PlanningKey].planning))
    && (Converted in t.meta ==> t.meta[Converted] == Flag(true))
  }

  ghost predicate Sound(b: Board) {
    && (forall id :: id in b.tasks ==> id < b.nextId)
    && (forall id :: id in b.tasks && b.tasks[id].kind == Intent ==> IntentSound(b, id, b.tasks[id]))
  }

  /** The plan tasks that name an intent as their source. */
  ghost function TasksOf(b: Board, intent: TaskId): set<TaskId> {
    set id | id in b.tasks && SourceIntent in b.tasks[id].meta && b.tasks[id].meta[SourceIntent] == TaskRef(intent)
  }

  /** No task is lost, and none changes what the alignment looks at. */
  ghost predicate Extends(b: Board, c: Board) {
    && b.nextId <= c.nextId
    && (forall id :: id in b.tasks ==> id in c.tasks && c.tasks[id].kind == b.tasks[id].kind)
    && (forall id :: id in b.tasks && b.tasks[id].kind == Plan ==> c.tasks[id].meta == b.tasks[id].meta)
  }

  lemma AlignedExtends(b: Board, c: Board, intent: TaskId, p: Planning)
    requires Extends(b, c) && Aligned(b, intent, p)
    ensures Aligned(c, intent, p)
  {
    hide Buildable;
    if p.phases.Some? {
      forall i | 0 <= i < |p.planTaskIds|
        ensures StampedAt(c, p.planTaskIds[i], p.phases.value[i], intent, i + 1)
      {
        assert StampedAt(b, p.planTaskIds[i], p.phases.value[i], intent, i + 1);
      }
    }
  }

  /** One intent's record changed, soundly, and plan tasks were added. */
  lemma ExtensionIsSound(b: Board, c: Board, intent: TaskId)
    requires Sound(b) && Extends(b, c)
    requires forall id :: id in c.tasks ==> id < c.nextId
    requires forall id :: id in c.tasks && c.tasks[id].kind == Intent && id != intent ==> id in b.tasks && c.tasks[id].meta == b.tasks[id].meta
    requires intent in c.tasks && c.tasks[intent].kind == Intent ==> IntentSound(c, intent, c.tasks[intent])
    ensures Sound(c)
  {
    hide Aligned, Buildable;
    forall id | id in c.tasks && c.tasks[id].kind == Intent
      ensures IntentSound(c, id, c.tasks[id])
    {
      if id != intent && PlanningKey in b.tasks[id].meta {
        AlignedExtends(b, c, id, b.tasks[id].meta[PlanningKey].planning);
      }
    }
  }

  lemma {:induction false} CreateAllFacts(b: Board, intent: TaskId, specs: seq<PhaseSpec>)
    requires forall id :: id in b.tasks ==> id < b.nextId
    ensures var c := CreateAll(b, intent, specs);
            && c.nextId == b.nextId + |specs|
            && (forall id :: id in c.tasks <==> id in b.tasks || b.nextId <= id < b.nextId + |specs|)
            && (forall id :: id in b.tasks ==> c.tasks[id] == b.tasks[id])
            && (forall id :: b.nextId <= id < b.nextId + |specs| ==> c.tasks[id] == PlanTask(specs[id - b.nextId], intent, None))
    decreases |specs|
  {
    hide PlanTask;
    if specs != [] {
      CreateAllFacts(b, intent, specs[..|specs| - 1]);
    }
  }

  lemma PlanTaskIsStamped(spec: PhaseSpec, intent: TaskId, count: Option<nat>)
    ensures Stamped(PlanTask(spec, intent, count), spec.phase, intent)
    ensures count.Some? ==> CumulativeCount in PlanTask(spec, intent, count).meta
                            && PlanTask(spec, intent, count).meta[CumulativeCount] == Number(count.value)
    ensures forall k :: k in spec.meta && k !in {AgentKey, PhaseKey, SourceIntent, CumulativeCount} ==>
              k in PlanTask(spec, intent, count).meta && PlanTask(spec, intent, count).meta[k] == spec.meta[k]
  {
  }

  lemma BuildableGrows(shape: Shape, phases: seq<Phase>, p: Phase)
    requires phases == [] || Buildable(shape, phases)
    requires ValidateCumulative(shape, phases + [p]).None?
    ensures Buildable(shape, phases + [p])
  {
    hide ValidateCumulative;
    var all := phases + [p];
    forall n | 1 <= n <= |all|
      ensures ValidateCumulative(shape, all[..n]).None?
    {
      if n == |all| {
        assert all[..n] == all;
      } else {
        assert all[..n] == phases[..n];
      }
    }
  }

  /** The fallback yields the list the planning state holds. */
  lemma {:induction false} ReconstructIsStored(b: Board, intent: TaskId, ids: seq<TaskId>, phases: seq<Phase>, from: nat)
    requires |ids| == |phases|
    requires forall i :: 0 <= i < |ids| ==> StampedAt(b, ids[i], phases[i], intent, from + i + 1)
    ensures Reconstruct(b, ids) == phases
    decreases |ids|
  {
    if ids != [] {
      forall i | 0 <= i < |ids[1..]|
        ensures StampedAt(b, ids[1..][i], phases[1..][i], intent, from + 1 + i + 1)
      {
        assert StampedAt(b, ids[i + 1], phases[i + 1], intent, from + (i + 1) + 1);
      }
      ReconstructIsStored(b, intent, ids[1..], phases[1..], from + 1);
      assert StampedAt(b, ids[0], phases[0], intent, from + 1);
    }
  }

  /** In a sound board reconstruction and the stored list are the same, for every planned intent. */
  lemma FallbackEqualsStored(b: Board, id: TaskId)
    requires Sound(b) && id in b.tasks && b.tasks[id].kind == Intent && PlanningKey in b.tasks[id].meta
    ensures var p := b.tasks[id].meta[PlanningKey].planning;
            RunningPhases(b, p) == Reconstruct(b, p.planTaskIds) && |RunningPhases(b, p)| == p.phasesAdded
  {
    var p := b.tasks[id].meta[PlanningKey].planning;
    if p.phases.Some? {
      ReconstructIsStored(b, id, p.planTaskIds, p.phases.value, 0);
    }
  }

  lemma PlanKeepsSound(b: Board, id: TaskId, shape: Shape, rationale: string, now: int)
    requires Sound(b) && PlanIntent(b, id, shape, rationale, now).Ok?
    ensures Sound(PlanIntent(b, id, shape, rationale, now).value)
  {
    ExtensionIsSound(b, PlanIntent(b, id, shape, rationale, now).value, id);
  }

  lemma AddIsAligned(b: Board, id: TaskId, spec: PhaseSpec, p: Planning)
    requires Aligned(b, id, p) && (forall i :: i in b.tasks ==> i < b.nextId)
    requires ValidateCumulative(p.shape, RunningPhases(b, p) + [spec.phase]).None?
    ensures var q := p.(phasesAdded := p.phasesAdded + 1, planTaskIds := p.planTaskIds + [b.nextId],
                        phases := Some(RunningPhases(b, p) + [spec.phase]));
            Aligned(Create(b, PlanTask(spec, id, Some(p.phasesAdded + 1))), id, q)
  {
    hide ValidateCumulative, PlanTask, Buildable;
    var t := PlanTask(spec, id, Some(p.phasesAdded + 1));
    var c := Create(b, t);
    var before := RunningPhases(b, p);
    PlanTaskIsStamped(spec, id, Some(p.phasesAdded + 1));
    BuildableGrows(p.shape, before, spec.phase);
    forall i | 0 <= i < |p.planTaskIds|
      ensures StampedAt(c, p.planTaskIds[i], before[i], id, i + 1)
    {
      assert StampedAt(b, p.planTaskIds[i], before[i], id, i + 1);
    }
  }

  lemma MarkedIsSound(b: Board, id: TaskId, fields: Metadata, status: Option<TaskStatus>)
    requires Sound(b) && id in b.tasks && b.tasks[id].kind == Intent
    requires PlanningKey in fields ==> fields[PlanningKey].PlanningState? && Aligned(b, id, fields[PlanningKey].planning)
    requires Converted in fields ==> fields[Converted] == Flag(true)
    ensures Sound(UpdateMeta(b, id, status, fields)) && Extends(b, UpdateMeta(b, id, status, fields))
  {
    hide Aligned;
    var c := UpdateMeta(b, id, status, fields);
    if PlanningKey in fields {
      AlignedExtends(b, c, id, fields[PlanningKey].planning);
    } else if PlanningKey in b.tasks[id].meta {
      AlignedExtends(b, c, id, b.tasks[id].meta[PlanningKey].planning);
    }
    ExtensionIsSound(b, c, id);
  }

  lemma CreatedIsSound(b: Board, t: Task)
    requires Sound(b) && t.kind == Plan
    ensures Sound(Create(b, t)) && Extends(b, Create(b, t))
  {
    hide Aligned;
    ExtensionIsSound(b, Create(b, t), b.nextId);
  }

  lemma AddKeepsSound(b: Board, id: TaskId, spec: PhaseSpec)
    requires Sound(b) && AddPhase(b, id, spec).Ok?
    ensures Sound(AddPhase(b, id, spec).value)
  {
    hide ValidateCumulative, PlanTask, Aligned, UpdateMeta, Create;
    var p := OpenPlanning(b, id).value;
    var t := PlanTask(spec, id, Some(p.phasesAdded + 1));
    PlanTaskIsStamped(spec, id, Some(p.phasesAdded + 1));
    AddIsAligned(b, id, spec, p);
    CreatedIsSound(b, t);
    var q := p.(phasesAdded := p.phasesAdded + 1, planTaskIds := p.planTaskIds + [b.nextId],
                phases := Some(RunningPhases(b, p) + [spec.phase]));
    MarkedIsSound(Create(b, t), id, map[PlanningKey := PlanningState(q)], None);
  }

  lemma CloseKeepsSound(b: Board, id: TaskId, now: int)
    requires Sound(b) && CloseIntent(b, id, now).Ok?
    ensures Sound(CloseIntent(b, id, now).value)
  {
    hide ValidateFinal, Aligned, UpdateMeta, Sound;
    MarkedIsSound(b, id, map[Converted := Flag(true), ConvertedAt := Number(now), ConvertedBy := Text("task_close_intent"),
                             PlanTaskIds := TaskRefs(OpenPlanning(b, id).value.planTaskIds)], Some(Completed));
  }

  lemma {:induction false} CreateAllIsSound(b: Board, intent: TaskId, specs: seq<PhaseSpec>)
    requires Sound(b)
    ensures Sound(CreateAll(b, intent, specs))
    decreases |specs|
  {
    hide Sound, PlanTask, Create;
    if specs != [] {
      CreateAllIsSound(b, intent, specs[..|specs| - 1]);
      PlanTaskIsStamped(specs[|specs| - 1], intent, None);
      CreatedIsSound(CreateAll(b, intent, specs[..|specs| - 1]), PlanTask(specs[|specs| - 1], intent, None));
    }
  }

  lemma ConvertKeepsSound(b: Board, id: TaskId, shape: Shape, rationale: string, specs: seq<PhaseSpec>, now: int)
    requires Sound(b) && ConvertIntent(b, id, shape, rationale, specs, now).Ok?
    ensures Sound(ConvertIntent(b, id, shape, rationale, specs, now).value)
  {
    hide ValidateFinal, CreateAll, Sound, UpdateMeta;
    var fields := map[Converted := Flag(true), ConvertedAt := Number(now), ShapeKey := ShapeName(shape), RationaleKey := Text(rationale)];
    MarkedIsSound(b, id, fields, Some(Completed));
    CreateAllIsSound(UpdateMeta(b, id, Some(Completed), fields), id, specs);
  }

  lemma OtherKeepsSound(b: Board, c: Call)
    requires Sound(b) && (c.NewIntent? || c.StatusSet?)
    ensures Sound(Run(b, c))
  {
    hide Aligned;
    var r := Run(b, c);
    var id := if c.NewIntent? then b.nextId else c.id;
    if c.StatusSet? && id in b.tasks {
      assert r.tasks[id].meta == b.tasks[id].meta;
      if b.tasks[id].kind == Intent && PlanningKey in b.tasks[id].meta {
        AlignedExtends(b, r, id, b.tasks[id].meta[PlanningKey].planning);
      }
    }
    ExtensionIsSound(b, r, id);
  }

  /** Every call keeps every planning state aligned with the tasks it created. */
  lemma RunKeepsSound(b: Board, c: Call)
    requires Sound(b)
    ensures Sound(Run(b, c))
  {
    hide Sound, PlanIntent, AddPhase, CloseIntent, ConvertIntent;
    match c
    case NewIntent(_, _) => OtherKeepsSound(b, c);
    case StatusSet(_, _) => OtherKeepsSound(b, c);
    case PlanCall(id, shape, rationale, now) => if PlanIntent(b, id, shape, rationale, now).Ok? { PlanKeepsSound(b, id, shape, rationale, now); }
    case AddCall(id, spec) => if AddPhase(b, id, spec).Ok? { AddKeepsSound(b, id, spec); }
    case CloseCall(id, now) => if CloseIntent(b, id, now).Ok? { CloseKeepsSound(b, id, now); }
    case ConvertCall(id, shape, rationale, specs, now) =>
      if ConvertIntent(b, id, shape, rationale, specs, now).Ok? { ConvertKeepsSound(b, id, shape, rationale, specs, now); }
  }

  lemma {:induction false} RunAllKeepsSound(b: Board, calls: seq<Call>)
    requires Sound(b)
    ensures Sound(RunAll(b, calls))
    decreases |calls|
  {
    hide Sound, Run;
    if calls != [] {
      RunKeepsSound(b, calls[0]);
      RunAllKeepsSound(Run(b, calls[0]), calls[1..]);
    }
  }

  // ---------------------------------------------------------------- a converted intent is terminal

  /** Converted or closed: no tool adds to it any more. */
  ghost predicate Terminal(b: Board, id: TaskId) {
    id in b.tasks && b.tasks[id].kind == Intent && Truthy(b.tasks[id].meta, Converted)
  }

  lemma UpdateFacts(b: Board, id: TaskId, status: Option<TaskStatus>, fields: Metadata)
    requires SourceIntent !in fields && (Converted in fields ==> fields[Converted] == Flag(true))
    ensures forall i :: TasksOf(UpdateMeta(b, id, status, fields), i) == TasksOf(b, i)
    ensures forall i :: Terminal(b, i) ==> Terminal(UpdateMeta(b, id, status, fields), i)
  {
  }

  lemma CreateFacts(b: Board, t: Task, of: TaskId)
    requires b.nextId !in b.tasks
    requires SourceIntent !in t.meta || t.meta[SourceIntent] != TaskRef(of)
    ensures TasksOf(Create(b, t), of) == TasksOf(b, of)
    ensures Terminal(b, of) ==> Terminal(Create(b, t), of)
  {
  }

  lemma {:induction false} CreateAllLeavesOthers(b: Board, intent: TaskId, specs: seq<PhaseSpec>, of: TaskId)
    requires of != intent && forall id :: id in b.tasks ==> id < b.nextId
    ensures TasksOf(CreateAll(b, intent, specs), of) == TasksOf(b, of)
    ensures Terminal(b, of) ==> Terminal(CreateAll(b, intent, specs), of)
    ensures forall id :: id in CreateAll(b, intent, specs).tasks ==> id < CreateAll(b, intent, specs).nextId
    decreases |specs|
  {
    hide PlanTask, TasksOf, Terminal;
    if specs != [] {
      var before := CreateAll(b, intent, specs[..|specs| - 1]);
      CreateAllLeavesOthers(b, intent, specs[..|specs| - 1], of);
      PlanTaskIsStamped(specs[|specs| - 1], intent, None);
      CreateFacts(before, PlanTask(specs[|specs| - 1], intent, None), of);
    }
  }

  lemma AddLeavesOthers(b: Board, id: TaskId, spec: PhaseSpec, of: TaskId)
    requires Sound(b) && AddPhase(b, id, spec).Ok? && of != id
    ensures TasksOf(AddPhase(b, id, spec).value, of) == TasksOf(b, of)
    ensures Terminal(b, of) ==> Terminal(AddPhase(b, id, spec).value, of)
  {
    hide PlanTask, TasksOf, Terminal, ValidateCumulative, UpdateMeta, Create;
    var p := OpenPlanning(b, id).value;
    var t := PlanTask(spec, id, Some(p.phasesAdded + 1));
    PlanTaskIsStamped(spec, id, Some(p.phasesAdded + 1));
    CreateFacts(b, t, of);
    UpdateFacts(Create(b, t), id, None, map[PlanningKey := PlanningState(p.(phasesAdded := p.phasesAdded + 1,
      planTaskIds := p.planTaskIds + [b.nextId], phases := Some(RunningPhases(b, p) + [spec.phase])))]);
  }

  /** No call, whatever it is, gives a converted intent another plan task or takes its conversion back. */
  lemma ConvertedGainsNothing(b: Board, c: Call, id: TaskId)
    requires Sound(b) && Terminal(b, id)
    ensures TasksOf(Run(b, c), id) == TasksOf(b, id) && Terminal(Run(b, c), id)
  {
    hide TasksOf, ValidateFinal, ValidateCumulative, ValidateRationale, CreateAll, UpdateMeta, PlanTask, Create;
    match c
    case NewIntent(subject, meta) =>
      if Unstamped(meta) {
        CreateFacts(b, Task(Intent, Pending, subject, "", None, meta), id);
      }
    case PlanCall(i, shape, rationale, now) =>
      UpdateFacts(b, i, None, map[PlanningKey := PlanningState(Planning(shape, rationale, 0, [], None, now))]);
    case AddCall(i, spec) =>
      if AddPhase(b, i, spec).Ok? {
        AddLeavesOthers(b, i, spec, id);
      }
    case CloseCall(i, now) =>
      if CloseIntent(b, i, now).Ok? {
        UpdateFacts(b, i, Some(Completed), map[Converted := Flag(true), ConvertedAt := Number(now),
             ConvertedBy := Text("task_close_intent"), PlanTaskIds := TaskRefs(OpenPlanning(b, i).value.planTaskIds)]);
      }
    case ConvertCall(i, shape, rationale, specs, now) =>
      if ConvertIntent(b, i, shape, rationale, specs, now).Ok? {
        ConvertLeavesOthers(b, i, shape, rationale, specs, now, id);
      }
    case StatusSet(i, status) => UpdateFacts(b, i, Some(status), map[]);
  }

  lemma ConvertLeavesOthers(b: Board, i: TaskId, shape: Shape, rationale: string, specs: seq<PhaseSpec>, now: int, of: TaskId)
    requires Sound(b) && ConvertIntent(b, i, shape, rationale, specs, now).Ok? && Terminal(b, of)
    ensures var c := ConvertIntent(b, i, shape, rationale, specs, now).value; TasksOf(c, of) == TasksOf(b, of) && Terminal(c, of)
  {
    hide TasksOf, ValidateFinal, CreateAll;
    var fields := map[Converted := Flag(true), ConvertedAt := Number(now), ShapeKey := ShapeName(shape), RationaleKey := Text(rationale)];
    UpdateFacts(b, i, Some(Completed), fields);
    CreateAllLeavesOthers(UpdateMeta(b, i, Some(Completed), fields), i, specs, of);
  }

  lemma {:induction false} ConvertedGainsNothingEver(b: Board, calls: seq<Call>, id: TaskId)
    requires Sound(b) && Terminal(b, id)
    ensures TasksOf(RunAll(b, calls), id) == TasksOf(b, id)
    decreases |calls|
  {
    hide TasksOf, Terminal, Sound, Run;
    if calls != [] {
      ConvertedGainsNothing(b, calls[0], id);
      RunKeepsSound(b, calls[0]);
      ConvertedGainsNothingEver(Run(b, calls[0]), calls[1..], id);
    }
  }

  /** Planning a converted intent is let through, but adding a phase to it is not. */
  lemma PlanAfterConvertIsIdle(b: Board, id: TaskId, shape: Shape, rationale: string, now: int, spec: PhaseSpec)
    requires Sound(b) && Terminal(b, id) && PlanningKey !in b.tasks[id].meta && ValidateRationale(rationale).None?
    ensures PlanIntent(b, id, shape, rationale, now).Ok?
    ensures AddPhase(PlanIntent(b, id, shape, rationale, now).value, id, spec) == Err(AlreadyClosed)
  {
    hide Aligned;
    var c := PlanIntent(b, id, shape, rationale, now).value;
    assert c.tasks[id].meta[PlanningKey].PlanningState?;
  }

  // ---------------------------------------------------------------- the two ways to the same plan

  /** One accepted phase after another, from an open planning state. */
  function AddEach(b: Board, id: TaskId, specs: seq<PhaseSpec>): Result<Board, ToolError>
    decreases |specs|
  {
    if specs == [] then Ok(b)
    else
      match AddEach(b, id, specs[..|specs| - 1])
      case Err(e) => Err(e)
      case Ok(c) => AddPhase(c, id, specs[|specs| - 1])
  }

  function StepByStep(b: Board, id: TaskId, shape: Shape, rationale: string, specs: seq<PhaseSpec>, now: int): Result<Board, ToolError> {
    match PlanIntent(b, id, shape, rationale, now)
    case Err(e) => Err(e)
    case Ok(c) =>
      match AddEach(c, id, specs)
      case Err(e) => Err(e)
      case Ok(d) => CloseIntent(d, id, now)
  }

  /** A fresh intent: neither planned nor converted, and not completed by hand. */
  ghost predicate FreshIntent(b: Board, id: TaskId) {
    && (forall i :: i in b.tasks ==> i < b.nextId)
    && id in b.tasks && b.tasks[id].kind == Intent && b.tasks[id].status != Completed
    && PlanningKey !in b.tasks[id].meta && Converted !in b.tasks[id].meta
  }

  ghost predicate PlanningStands(c: Board, p: Planning, shape: Shape, rationale: string, specs: seq<PhaseSpec>) {
    && p.shape == shape && p.rationale == rationale && p.phasesAdded == |specs|
    && RunningPhases(c, p) == PhasesOf(specs) && (p.phases.None? ==> p.planTaskIds == [])
  }

  /** Where the incremental path stands after `specs` were added. */
  ghost predicate StandsAt(b: Board, c: Board, id: TaskId, shape: Shape, rationale: string, specs: seq<PhaseSpec>) {
    && c.nextId == b.nextId + |specs|
    && (forall i :: i in c.tasks ==> i < c.nextId)
    && id in c.tasks && c.tasks[id].kind == Intent && c.tasks[id].status != Completed
    && Converted !in c.tasks[id].meta && PlanningKey in c.tasks[id].meta && c.tasks[id].meta[PlanningKey].PlanningState?
    && PlanningStands(c, c.tasks[id].meta[PlanningKey].planning, shape, rationale, specs)
    && (forall k :: b.nextId <= k < b.nextId + |specs| ==>
          k in c.tasks && c.tasks[k] == PlanTask(specs[k - b.nextId], id, Some(k - b.nextId + 1)))
  }

  lemma PlanStands(b: Board, id: TaskId, shape: Shape, rationale: string, now: int)
    requires FreshIntent(b, id) && ValidateRationale(rationale).None?
    ensures PlanIntent(b, id, shape, rationale, now).Ok?
    ensures StandsAt(b, PlanIntent(b, id, shape, rationale, now).value, id, shape, rationale, [])
  {
    assert PhasesOf([]) == [];
  }

  /** The board after an accepted add, from an open planning state. */
  lemma AddOutcome(b: Board, c: Board, id: TaskId, shape: Shape, rationale: string, specs: seq<PhaseSpec>, spec: PhaseSpec)
    requires StandsAt(b, c, id, shape, rationale, specs)
    ensures AddPhase(c, id, spec).Ok? <==> ValidateCumulative(shape, PhasesOf(specs) + [spec.phase]).None?
    ensures AddPhase(c, id, spec).Ok? ==>
              var d := AddPhase(c, id, spec).value;
              var p := c.tasks[id].meta[PlanningKey].planning;
              && d.nextId == c.nextId + 1
              && (forall k :: k in d.tasks <==> k in c.tasks || k == c.nextId)
              && (forall k :: k in c.tasks && k != id ==> d.tasks[k] == c.tasks[k])
              && d.tasks[c.nextId] == PlanTask(spec, id, Some(|specs| + 1))
              && d.tasks[id] == c.tasks[id].(meta := Merge(c.tasks[id].meta, map[PlanningKey := PlanningState(p.(phasesAdded := |specs| + 1,
                   planTaskIds := p.planTaskIds + [c.nextId], phases := Some(PhasesOf(specs) + [spec.phase])))]))
  {
    hide ValidateCumulative, PlanTask, Merge, Reconstruct, PhasesOf;
  }

  lemma AddStands(b: Board, c: Board, id: TaskId, shape: Shape, rationale: string, specs: seq<PhaseSpec>, spec: PhaseSpec)
    requires StandsAt(b, c, id, shape, rationale, specs) && id < b.nextId
    ensures AddPhase(c, id, spec).Ok? <==> ValidateCumulative(shape, PhasesOf(specs + [spec])).None?
    ensures AddPhase(c, id, spec).Ok? ==> StandsAt(b, AddPhase(c, id, spec).value, id, shape, rationale, specs + [spec])
  {
    hide ValidateCumulative, PlanTask, AddPhase, Reconstruct;
    AddOutcome(b, c, id, shape, rationale, specs, spec);
    assert PhasesOf(specs + [spec]) == PhasesOf(specs) + [spec.phase];
    assert forall i :: 0 <= i < |specs| ==> (specs + [spec])[i] == specs[i];
  }

  lemma {:induction false} AddEachStands(b: Board, c: Board, id: TaskId, shape: Shape, rationale: string, specs: seq<PhaseSpec>)
    requires StandsAt(b, c, id, shape, rationale, []) && id < b.nextId
    ensures AddEach(c, id, specs).Ok? <==> Buildable(shape, PhasesOf(specs))
    ensures AddEach(c, id, specs).Ok? ==> StandsAt(b, AddEach(c, id, specs).value, id, shape, rationale, specs)
    decreases |specs|
  {
    hide ValidateCumulative, StandsAt, AddPhase;
    if specs != [] {
      var n := |specs| - 1;
      AddEachStands(b, c, id, shape, rationale, specs[..n]);
      assert specs == specs[..n] + [specs[n]];
      assert PhasesOf(specs[..n]) == PhasesOf(specs)[..n];
      BuildableSnoc(shape, PhasesOf(specs));
      if AddEach(c, id, specs[..n]).Ok? {
        AddStands(b, AddEach(c, id, specs[..n]).value, id, shape, rationale, specs[..n], specs[n]);
      }
    }
  }

  lemma BuildableSnoc(shape: Shape, phases: seq<Phase>)
    requires phases != []
    ensures Buildable(shape, phases) <==> Buildable(shape, phases[..|phases| - 1]) && ValidateCumulative(shape, phases).None?
  {
    hide ValidateCumulative;
    var n := |phases| - 1;
    assert phases[..|phases|] == phases;
    assert forall k :: 1 <= k <= n ==> phases[..n][..k] == phases[..k];
    if Buildable(shape, phases) {
      forall k | 1 <= k <= n
        ensures ValidateCumulative(shape, phases[..n][..k]).None?
      {
        assert ValidateCumulative(shape, phases[..k]).None?;
      }
    }
    if Buildable(shape, phases[..n]) && ValidateCumulative(shape, phases).None? {
      forall k | 1 <= k <= |phases|
        ensures ValidateCumulative(shape, phases[..k]).None?
      {
        if k <= n {
          assert ValidateCumulative(shape, phases[..n][..k]).None?;
        }
      }
    }
  }

  /** The incremental path succeeds exactly on the plans that are buildable and finally valid. */
  lemma StepByStepIff(b: Board, id: TaskId, shape: Shape, rationale: string, specs: seq<PhaseSpec>, now: int)
    requires FreshIntent(b, id)
    ensures StepByStep(b, id, shape, rationale, specs, now).Ok? <==>
            Buildable(shape, PhasesOf(specs)) && ValidateFinal(shape, PhasesOf(specs), rationale).None?
    ensures StepByStep(b, id, shape, rationale, specs, now).Ok? ==>
              forall k :: b.nextId <= k < b.nextId + |specs| ==>
                k in StepByStep(b, id, shape, rationale, specs, now).value.tasks
                && StepByStep(b, id, shape, rationale, specs, now).value.tasks[k] == PlanTask(specs[k - b.nextId], id, Some(k - b.nextId + 1))
  {
    hide PlanTask, PlanIntent, AddPhase, Buildable;
    if ValidateRationale(rationale).None? {
      PlanStands(b, id, shape, rationale, now);
      var c := PlanIntent(b, id, shape, rationale, now).value;
      AddEachStands(b, c, id, shape, rationale, specs);
      if AddEach(c, id, specs).Ok? {
        CloseStands(b, AddEach(c, id, specs).value, id, shape, rationale, specs, now);
      }
    } else {
      PlanRefused(b, id, shape, rationale, now);
    }
  }

  lemma PlanRefused(b: Board, id: TaskId, shape: Shape, rationale: string, now: int)
    requires FreshIntent(b, id) && ValidateRationale(rationale).Some?
    ensures PlanIntent(b, id, shape, rationale, now).Err?
  {
  }

  lemma CloseStands(b: Board, c: Board, id: TaskId, shape: Shape, rationale: string, specs: seq<PhaseSpec>, now: int)
    requires StandsAt(b, c, id, shape, rationale, specs) && FreshIntent(b, id)
    ensures CloseIntent(c, id, now).Ok? <==> ValidateFinal(shape, PhasesOf(specs), rationale).None?
    ensures CloseIntent(c, id, now).Ok? ==>
              forall k :: b.nextId <= k < b.nextId + |specs| ==>
                k in CloseIntent(c, id, now).value.tasks && CloseIntent(c, id, now).value.tasks[k] == PlanTask(specs[k - b.nextId], id, Some(k - b.nextId + 1))
  {
    hide ValidateFinal, PlanTask;
  }

  lemma ConvertIff(b: Board, id: TaskId, shape: Shape, rationale: string, specs: seq<PhaseSpec>, now: int)
    requires FreshIntent(b, id)
    ensures ConvertIntent(b, id, shape, rationale, specs, now).Ok? <==> ValidateFinal(shape, PhasesOf(specs), rationale).None?
    ensures ConvertIntent(b, id, shape, rationale, specs, now).Ok? ==>
              forall k :: b.nextId <= k < b.nextId + |specs| ==>
                k in ConvertIntent(b, id, shape, rationale, specs, now).value.tasks
                && ConvertIntent(b, id, shape, rationale, specs, now).value.tasks[k] == PlanTask(specs[k - b.nextId], id, None)
  {
    hide PlanTask, CreateAll, ValidateFinal, FreshIntent, PhasesOf;
    ConvertUnfolds(b, id, shape, rationale, specs, now);
    if ConvertIntent(b, id, shape, rationale, specs, now).Ok? {
      CreateAllFacts(Marked(b, id, shape, rationale, now), id, specs);
    }
  }

  lemma ConvertUnfolds(b: Board, id: TaskId, shape: Shape, rationale: string, specs: seq<PhaseSpec>, now: int)
    requires FreshIntent(b, id)
    ensures ConvertIntent(b, id, shape, rationale, specs, now).Ok? <==> ValidateFinal(shape, PhasesOf(specs), rationale).None?
    ensures ConvertIntent(b, id, shape, rationale, specs, now).Ok? ==>
              ConvertIntent(b, id, shape, rationale, specs, now).value == CreateAll(Marked(b, id, shape, rationale, now), id, specs)
    ensures Marked(b, id, shape, rationale, now).nextId == b.nextId
    ensures forall i :: i in Marked(b, id, shape, rationale, now).tasks ==> i < b.nextId
  {
    hide CreateAll, Merge;
  }

  /** What a dispatcher reads of a plan task: everything but the running count. */
  ghost predicate SameRole(a: Task, b: Task) {
    && a.kind == b.kind && a.status == b.status
    && a.subject == b.subject && a.description == b.description && a.activeForm == b.activeForm
    && (forall k :: k != CumulativeCount ==> (k in a.meta <==> k in b.meta) && (k in a.meta ==> a.meta[k] == b.meta[k]))
  }

  /** Planning, adding and closing yields the same ordered tasks as one conversion, for every shape but
      multi-track on exactly the same plans. */
  lemma StepByStepEqualsConvert(b: Board, id: TaskId, shape: Shape, rationale: string, specs: seq<PhaseSpec>, now: int)
    requires FreshIntent(b, id)
    ensures StepByStep(b, id, shape, rationale, specs, now).Ok? ==> ConvertIntent(b, id, shape, rationale, specs, now).Ok?
    ensures shape != MultiTrack && ConvertIntent(b, id, shape, rationale, specs, now).Ok? ==>
              StepByStep(b, id, shape, rationale, specs, now).Ok?
    ensures StepByStep(b, id, shape, rationale, specs, now).Ok? ==>
              forall k :: b.nextId <= k < b.nextId + |specs| ==>
                && k in StepByStep(b, id, shape, rationale, specs, now).value.tasks
                && k in ConvertIntent(b, id, shape, rationale, specs, now).value.tasks
                && SameRole(StepByStep(b, id, shape, rationale, specs, now).value.tasks[k],
                            ConvertIntent(b, id, shape, rationale, specs, now).value.tasks[k])
  {
    hide StepByStep, ConvertIntent, PlanTask, SameRole, Buildable, ValidateFinal;
    StepByStepIff(b, id, shape, rationale, specs, now);
    ConvertIff(b, id, shape, rationale, specs, now);
    if shape != MultiTrack {
      IncrementalIffAtomic(shape, PhasesOf(specs), rationale);
    }
    forall i | 0 <= i < |specs|
      ensures SameRole(PlanTask(specs[i], id, Some(i + 1)), PlanTask(specs[i], id, None))
    {
      CountIsTheOnlyDifference(specs[i], id, i + 1);
    }
  }

  lemma CountIsTheOnlyDifference(spec: PhaseSpec, intent: TaskId, count: nat)
    ensures SameRole(PlanTask(spec, intent, Some(count)), PlanTask(spec, intent, None))
  {
  }
}
