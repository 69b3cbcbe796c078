// The task file and the four tools that write it, step by step as they do.
module PlanBoard {
  import opened Common
  import opened PhaseValidation
  import opened PlanTools

  class TaskStore {
    var tasks: map<TaskId, Task>
    var nextId: TaskId

    ghost function Abs(): Board
      reads this
    {
      Board(tasks, nextId)
    }

    constructor ()
      ensures Abs() == Board(map[], 1) && Sound(Abs())
    {
      tasks, nextId := map[], 1;
    }

    method CreateTask(t: Task) returns (id: TaskId)
      modifies this
      ensures Abs() == Create(old(Abs()), t) && id == old(nextId)
    {
      id := nextId;
      nextId := nextId + 1;
      tasks := tasks[id := t];
    }

    /** Key by key, as the store merges metadata. */
    method MergeMetadata(meta: Metadata, fields: Metadata) returns (merged: Metadata)
      ensures merged == Merge(meta, fields)
    {
      merged := meta;
      var todo := fields.Keys;
      while todo != {}
        invariant todo <= fields.Keys
        invariant forall k :: k in merged <==> if k in fields && k !in todo then !fields[k].Null? else k in meta
        invariant forall k :: k in merged ==> merged[k] == if k in fields && k !in todo then fields[k] else meta[k]
        decreases todo
      {
        var k :| k in todo;
        if fields[k].Null? {
          merged := merged - {k};
        } else {
          merged := merged[k := fields[k]];
        }
        todo := todo - {k};
      }
    }

    method UpdateTask(id: TaskId, status: Option<TaskStatus>, fields: Metadata)
      modifies this`tasks
      ensures Abs() == UpdateMeta(old(Abs()), id, status, fields)
    {
      hide Merge;
      if id in tasks {
        var t := tasks[id];
        if status.Some? {
          t := t.(status := status.value);
        }
        var merged := MergeMetadata(t.meta, fields);
        tasks := tasks[id := t.(meta := merged)];
      }
    }

    method FindPhases(p: Planning) returns (phases: seq<Phase>)
      ensures phases == RunningPhases(Abs(), p)
    {
      if p.phases.Some? {
        return p.phases.value;
      }
      phases := [];
      var i := |p.planTaskIds|;
      while i > 0
        invariant 0 <= i <= |p.planTaskIds|
        invariant phases == Reconstruct(Abs(), p.planTaskIds[i..])
      {
        i := i - 1;
        assert p.planTaskIds[i..][1..] == p.planTaskIds[i + 1..];
        var id := p.planTaskIds[i];
        if id in tasks && PhaseKey in tasks[id].meta && tasks[id].meta[PhaseKey].PhaseName? {
          phases := [tasks[id].meta[PhaseKey].p] + phases;
        }
      }
    }

    method TaskPlanIntent(id: TaskId, shape: Shape, rationale: string, now: int) returns (r: Result<TaskId, ToolError>)
      modifies this
      ensures PlanIntent(old(Abs()), id, shape, rationale, now) == if r.Ok? then Ok(Abs()) else Err(r.error)
      ensures r.Err? ==> Abs() == old(Abs())
    {
      if id !in tasks {
        return Err(IntentNotFound);
      }
      if tasks[id].kind != Intent {
        return Err(NotIntent);
      }
      if Truthy(tasks[id].meta, PlanningKey) {
        return Err(AlreadyPlanned);
      }
      var verdict := ValidateRationale(rationale);
      if verdict.Some? {
        return Err(ShapeViolation(verdict.value));
      }
      UpdateTask(id, None, map[PlanningKey := PlanningState(Planning(shape, rationale, 0, [], None, now))]);
      return Ok(id);
    }

    /** The checks that adding and closing share. */
    method FindOpenPlanning(id: TaskId) returns (r: Result<Planning, ToolError>)
      ensures r == OpenPlanning(Abs(), id)
    {
      if id !in tasks {
        return Err(IntentNotFound);
      }
      var t := tasks[id];
      if t.kind != Intent {
        return Err(NotIntent);
      }
      if !Truthy(t.meta, PlanningKey) {
        return Err(NotPlanned);
      }
      if Truthy(t.meta, Converted) || t.status == Completed {
        return Err(AlreadyClosed);
      }
      if !t.meta[PlanningKey].PlanningState? {
        return Err(Malformed);
      }
      return Ok(t.meta[PlanningKey].planning);
    }

    method TaskAddPhase(id: TaskId, spec: PhaseSpec) returns (r: Result<TaskId, ToolError>)
      modifies this
      ensures AddPhase(old(Abs()), id, spec) == if r.Ok? then Ok(Abs()) else Err(r.error)
      ensures r.Err? ==> Abs() == old(Abs())
      ensures r.Ok? ==> r.value == old(nextId)
    {
      hide ValidateCumulative, PlanTask, Merge, Reconstruct, OpenPlanning;
      var found := FindOpenPlanning(id);
      if found.Err? {
        return Err(found.error);
      }
      var p := found.value;
      var running := FindPhases(p);
      var phases := running + [spec.phase];
      var verdict := ValidateCumulative(p.shape, phases);
      if verdict.Some? {
        return Err(ShapeViolation(verdict.value));
      }
      var count := p.phasesAdded + 1;
      var planTask := CreateTask(PlanTask(spec, id, Some(count)));
      UpdateTask(id, None, map[PlanningKey := PlanningState(
        p.(phasesAdded := count, planTaskIds := p.planTaskIds + [planTask], phases := Some(phases)))]);
      return Ok(planTask);
    }

    method TaskCloseIntent(id: TaskId, now: int) returns (r: Result<seq<TaskId>, ToolError>)
      modifies this
      ensures CloseIntent(old(Abs()), id, now) == if r.Ok? then Ok(Abs()) else Err(r.error)
      ensures r.Err? ==> Abs() == old(Abs())
      ensures r.Ok? ==> OpenPlanning(old(Abs()), id).Ok? && r.value == OpenPlanning(old(Abs()), id).value.planTaskIds
    {
      hide ValidateFinal, Merge, Reconstruct, OpenPlanning;
      var found := FindOpenPlanning(id);
      if found.Err? {
        return Err(found.error);
      }
      var p := found.value;
      var accumulated := FindPhases(p);
      var verdict := ValidateFinal(p.shape, accumulated, p.rationale);
      if verdict.Some? {
        return Err(ShapeViolation(verdict.value));
      }
      UpdateTask(id, Some(Completed), map[Converted := Flag(true), ConvertedAt := Number(now),
        ConvertedBy := Text("task_close_intent"), PlanTaskIds := TaskRefs(p.planTaskIds)]);
      return Ok(p.planTaskIds);
    }

    method TaskConvertIntent(id: TaskId, shape: Shape, rationale: string, specs: seq<PhaseSpec>, now: int)
      returns (r: Result<seq<TaskId>, ToolError>)
      modifies this
      ensures ConvertIntent(old(Abs()), id, shape, rationale, specs, now) == if r.Ok? then Ok(Abs()) else Err(r.error)
      ensures r.Err? ==> Abs() == old(Abs())
      ensures r.Ok? ==> |r.value| == |specs| && forall i :: 0 <= i < |specs| ==> r.value[i] == old(nextId) + i
    {
      hide ValidateFinal, Merge, PlanTask;
      if id !in tasks {
        return Err(IntentNotFound);
      }
      if tasks[id].kind != Intent {
        return Err(NotIntent);
      }
      if Truthy(tasks[id].meta, Converted) {
        return Err(AlreadyConverted);
      }
      if |specs| == 0 {
        return Err(NoPhases);
      }
      var verdict := ValidateFinal(shape, PhasesOf(specs), rationale);
      if verdict.Some? {
        return Err(ShapeViolation(verdict.value));
      }
      UpdateTask(id, Some(Completed), map[Converted := Flag(true), ConvertedAt := Number(now),
        ShapeKey := ShapeName(shape), RationaleKey := Text(rationale)]);
      assert Abs() == Marked(old(Abs()), id, shape, rationale, now);
      var ids := CreatePlanTasks(id, specs);
      return Ok(ids);
    }

    /** One plan task a phase, in order. */
    method CreatePlanTasks(id: TaskId, specs: seq<PhaseSpec>) returns (ids: seq<TaskId>)
      modifies this
      ensures Abs() == CreateAll(old(Abs()), id, specs)
      ensures |ids| == |specs| && forall i :: 0 <= i < |specs| ==> ids[i] == old(nextId) + i
    {
      hide PlanTask;
      ids := [];
      for i := 0 to |specs|
        invariant Abs() == CreateAll(old(Abs()), id, specs[..i])
        invariant nextId == old(nextId) + i
        invariant |ids| == i && forall j :: 0 <= j < i ==> ids[j] == old(nextId) + j
      {
        assert specs[..i + 1][..i] == specs[..i];
        var created := CreateTask(PlanTask(specs[i], id, None));
        ids := ids + [created];
      }
      assert specs[..|specs|] == specs;
    }
  }
}
