/**
 * Durable task intent and plan relations (application/tasks.py): the latest version of each
 * task, immutable dependency and conflict relations, and the operations that decide on them.
 */
module Tasks {
  import opened Common
  import opened Sorting
  import opened Records
  import opened Chain
  import opened Decisions
  import opened Graphs
  import opened GraphSearch
  import opened TaskIntents

  type TaskMap = map<Id, Task>

  type RelationMap = map<Entity, Payload>

  /** The identity a stored relation must carry; `None` if it does not decode. */
  type Identity = Payload -> Option<Entity>

  /** `_latest_tasks`; `None` is its error on a malformed record or a wrong identity. */
  function LatestTasks(log: seq<Entry>): Option<TaskMap> {
    if log == [] then Some(map[])
    else
      match LatestTasks(log[..|log| - 1])
      case None => None
      case Some(m) =>
        var d := log[|log| - 1].draft;
        if d.kind != TaskKind then Some(m)
        else if d.payload.TaskPayload? && d.entity == Named(d.payload.task.id) then Some(m[d.payload.task.id := d.payload.task])
        else None
  }

  /** `_immutable_relations`; `None` is its error on a wrong identity or a rewritten relation. */
  function Relations(log: seq<Entry>, kind: Kind, identity: Identity): Option<RelationMap> {
    if log == [] then Some(map[])
    else
      match Relations(log[..|log| - 1], kind, identity)
      case None => None
      case Some(m) =>
        var d := log[|log| - 1].draft;
        if d.kind != kind then Some(m)
        else if identity(d.payload) != Some(d.entity) then None
        else if d.entity in m && m[d.entity] != d.payload then None
        else Some(m[d.entity := d.payload])
  }

  function DependencyIdentity(p: Payload): Option<Entity> {
    if p.DependencyPayload? && p.dependency.taskId != p.dependency.dependsOn
    then Some(Pair(p.dependency.taskId, p.dependency.dependsOn))
    else None
  }

  function ConflictIdentity(p: Payload): Option<Entity> {
    if p.ConflictPayload? && p.conflict.first != p.conflict.second && LexLeq(p.conflict.first, p.conflict.second)
    then Some(Pair(p.conflict.first, p.conflict.second))
    else None
  }

  function Dependencies(log: seq<Entry>): Option<RelationMap> {
    Relations(log, DependencyKind, DependencyIdentity)
  }

  function Conflicts(log: seq<Entry>): Option<RelationMap> {
    Relations(log, ConflictKind, ConflictIdentity)
  }

  /** The pairs a relation map is about. */
  function PairsOf(m: RelationMap): set<(Id, Id)> {
    set k | k in m && k.Pair? :: (k.first, k.second)
  }

  method CollectTasks(log: seq<Entry>) returns (r: Option<TaskMap>)
    ensures r == LatestTasks(log)
  {
    var tasks: TaskMap := map[];
    var i := 0;
    while i < |log|
      invariant 0 <= i <= |log| && LatestTasks(log[..i]) == Some(tasks)
    {
      var d := log[i].draft;
      assert log[..i + 1][..i] == log[..i];
      if d.kind == TaskKind {
        if !d.payload.TaskPayload? || d.entity != Named(d.payload.task.id) {
          TasksStayMalformed(log, i + 1);
          return None;
        }
        tasks := tasks[d.payload.task.id := d.payload.task];
      }
      i := i + 1;
    }
    assert log[..i] == log;
    return Some(tasks);
  }

  method CollectRelations(log: seq<Entry>, kind: Kind, identity: Identity) returns (r: Option<RelationMap>)
    ensures r == Relations(log, kind, identity)
  {
    var values: RelationMap := map[];
    var i := 0;
    while i < |log|
      invariant 0 <= i <= |log| && Relations(log[..i], kind, identity) == Some(values)
    {
      var d := log[i].draft;
      assert log[..i + 1][..i] == log[..i];
      if d.kind == kind {
        if identity(d.payload) != Some(d.entity) || (d.entity in values && values[d.entity] != d.payload) {
          RelationsStayMalformed(log, kind, identity, i + 1);
          return None;
        }
        values := values[d.entity := d.payload];
      }
      i := i + 1;
    }
    assert log[..i] == log;
    return Some(values);
  }

  lemma {:induction false} TasksStayMalformed(log: seq<Entry>, i: nat)
    requires i <= |log| && LatestTasks(log[..i]).None?
    ensures LatestTasks(log).None?
  {
    if i < |log| {
      assert log[..|log| - 1][..i] == log[..i];
      TasksStayMalformed(log[..|log| - 1], i);
    } else {
      assert log[..i] == log;
    }
  }

  lemma {:induction false} RelationsStayMalformed(log: seq<Entry>, kind: Kind, identity: Identity, i: nat)
    requires i <= |log| && Relations(log[..i], kind, identity).None?
    ensures Relations(log, kind, identity).None?
  {
    if i < |log| {
      assert log[..|log| - 1][..i] == log[..i];
      RelationsStayMalformed(log[..|log| - 1], kind, identity, i);
    } else {
      assert log[..i] == log;
    }
  }

  lemma TasksAfter(log: seq<Entry>, e: Entry)
    requires LatestTasks(log).Some?
    ensures e.draft.kind != TaskKind ==> LatestTasks(log + [e]) == LatestTasks(log)
    ensures e.draft.kind == TaskKind && e.draft.payload.TaskPayload? && e.draft.entity == Named(e.draft.payload.task.id) ==>
              LatestTasks(log + [e]) == Some(LatestTasks(log).value[e.draft.payload.task.id := e.draft.payload.task])
  {
    assert (log + [e])[..|log|] == log;
  }

  lemma RelationsAfter(log: seq<Entry>, kind: Kind, identity: Identity, e: Entry)
    requires Relations(log, kind, identity).Some?
    ensures e.draft.kind != kind ==> Relations(log + [e], kind, identity) == Relations(log, kind, identity)
    ensures e.draft.kind == kind && identity(e.draft.payload) == Some(e.draft.entity)
            && e.draft.entity !in Relations(log, kind, identity).value ==>
              Relations(log + [e], kind, identity) == Some(Relations(log, kind, identity).value[e.draft.entity := e.draft.payload])
  {
    assert (log + [e])[..|log|] == log;
  }

  /** Every collected relation carries its own identity. */
  lemma {:induction false} RelationsIdentified(log: seq<Entry>, kind: Kind, identity: Identity)
    requires Relations(log, kind, identity).Some?
    ensures forall k :: k in Relations(log, kind, identity).value ==> identity(Relations(log, kind, identity).value[k]) == Some(k)
  {
    if log != [] {
      RelationsIdentified(log[..|log| - 1], kind, identity);
    }
  }

  // ----- operations

  datatype TaskOp =
    | CreateTask(task: Task)
    | TransitionTask(id: Id, state: TaskState, actorId: Id, rationale: string, at: Time)
    | AddDependency(taskId: Id, dependsOn: Id, at: Time)
    | AddConflict(left: Id, right: Id, reason: string, at: Time)

  function TaskDraft(t: Task): Draft {
    Draft(TaskKind, Named(t.id), TaskPayload(t), t.updatedAt)
  }

  function DependencyDraft(t: Id, d: Id, at: Time): Draft {
    Draft(DependencyKind, Pair(t, d), DependencyPayload(Dependency(t, d, at)), at)
  }

  /** The two ids in canonical order. */
  function Between(left: Id, right: Id): (Id, Id) {
    if LexLeq(left, right) then (left, right) else (right, left)
  }

  function ConflictDraft(first: Id, second: Id, reason: string, at: Time): Draft {
    Draft(ConflictKind, Pair(first, second), ConflictPayload(Conflict(first, second, reason, at)), at)
  }

  function DecideCreate(task: Task, log: seq<Entry>): Decision<Refusal> {
    if !(task.state == Idea || task.state == Todo) || task.events != [] || !ValidHistory(task) then Refuse(Inconsistent)
    else
      match LatestTasks(log)
      case None => Refuse(Malformed)
      case Some(tasks) => if task.id in tasks then Refuse(AlreadyExists) else Write(TaskDraft(task))
  }

  function DecideTransition(op: TaskOp, log: seq<Entry>): Decision<Refusal>
    requires op.TransitionTask?
  {
    if op.state == Done then Refuse(NotProven)
    else
      match LatestTasks(log)
      case None => Refuse(Malformed)
      case Some(tasks) =>
        if op.id !in tasks then Refuse(NotFound)
        else if !CanTransition(tasks[op.id], op.state, op.at) then Refuse(BadTransition)
        else Write(TaskDraft(Transitioned(tasks[op.id], op.state, op.actorId, op.rationale, op.at)))
  }

  ghost function DecideAddDependency(t: Id, d: Id, at: Time, log: seq<Entry>): Decision<Refusal> {
    if t == d then Refuse(SelfRelation)
    else
      match LatestTasks(log)
      case None => Refuse(Malformed)
      case Some(tasks) =>
        if t !in tasks || d !in tasks then Refuse(MissingTask)
        else
          match Dependencies(log)
          case None => Refuse(Malformed)
          case Some(dependencies) =>
            if Pair(t, d) in dependencies then Existing
            else if Reach(PairsOf(dependencies) + {(t, d)}, d, t) then Refuse(WouldCycle)
            else Write(DependencyDraft(t, d, at))
  }

  function DecideAddConflict(left: Id, right: Id, reason: string, at: Time, log: seq<Entry>): Decision<Refusal> {
    var (first, second) := Between(left, right);
    if first == second then Refuse(SelfRelation)
    else
      match LatestTasks(log)
      case None => Refuse(Malformed)
      case Some(tasks) =>
        if first !in tasks || second !in tasks then Refuse(MissingTask)
        else
          match Conflicts(log)
          case None => Refuse(Malformed)
          case Some(conflicts) =>
            if Pair(first, second) in conflicts then
              if conflicts[Pair(first, second)].ConflictPayload? && conflicts[Pair(first, second)].conflict.reason == reason
              then Existing else Refuse(DifferentReason)
            else Write(ConflictDraft(first, second, reason, at))
  }

  ghost function Decide(op: TaskOp, log: seq<Entry>): Decision<Refusal> {
    match op
    case CreateTask(task) => DecideCreate(task, log)
    case TransitionTask(_, _, _, _, _) => DecideTransition(op, log)
    case AddDependency(t, d, at) => DecideAddDependency(t, d, at, log)
    case AddConflict(left, right, reason, at) => DecideAddConflict(left, right, reason, at, log)
  }

  /** The graph dictionary of `add_dependency`, candidate edge included, and the walk over it. */
  method RefusesEdge(dependencies: RelationMap, t: Id, d: Id) returns (cycle: bool)
    ensures cycle == Reach(PairsOf(dependencies) + {(t, d)}, d, t)
  {
    var graph: Adjacency := map[];
    var rest := dependencies.Keys;
    while rest != {}
      invariant rest <= dependencies.Keys
      invariant EdgesOf(graph) == PairsOf(map k | k in dependencies && k !in rest :: dependencies[k])
      decreases |rest|
    {
      var k :| k in rest;
      var before := map x | x in dependencies && x !in rest :: dependencies[x];
      rest := rest - {k};
      var after := map x | x in dependencies && x !in rest :: dependencies[x];
      assert after == before[k := dependencies[k]];
      if k.Pair? {
        EdgeAdded(graph, k.first, k.second);
        graph := graph[k.first := Neighbours(graph, k.first) + {k.second}];
      }
      PairsGrow(before, k, dependencies[k]);
    }
    assert dependencies == map k | k in dependencies && k !in rest :: dependencies[k];
    EdgeAdded(graph, t, d);
    graph := graph[t := Neighbours(graph, t) + {d}];
    cycle := Reaches(graph, d, t);
  }

  lemma PairsGrow(m: RelationMap, k: Entity, p: Payload)
    ensures PairsOf(m[k := p]) == if k.Pair? then PairsOf(m) + {(k.first, k.second)} else PairsOf(m)
  {
    var n := m[k := p];
    forall a, b
      ensures (a, b) in PairsOf(n) <==> (a, b) in PairsOf(m) || k == Pair(a, b)
    {
      assert (a, b) in PairsOf(n) <==> Pair(a, b) in n;
      assert (a, b) in PairsOf(m) <==> Pair(a, b) in m;
    }
  }

  /** `add_dependency` on one snapshot, with the walk over the graph dictionary. */
  method DecideAddDependencyNow(t: Id, d: Id, at: Time, log: seq<Entry>) returns (r: Decision<Refusal>)
    ensures r == DecideAddDependency(t, d, at, log)
  {
    if t == d {
      return Refuse(SelfRelation);
    }
    var tasks := CollectTasks(log);
    if tasks.None? {
      return Refuse(Malformed);
    }
    if t !in tasks.value || d !in tasks.value {
      return Refuse(MissingTask);
    }
    var dependencies := CollectRelations(log, DependencyKind, DependencyIdentity);
    if dependencies.None? {
      return Refuse(Malformed);
    }
    if Pair(t, d) in dependencies.value {
      return Existing;
    }
    var cycle := RefusesEdge(dependencies.value, t, d);
    if cycle {
      return Refuse(WouldCycle);
    }
    return Write(DependencyDraft(t, d, at));
  }

  // ----- the invariant of every reachable ledger

  ghost predicate EndpointsExist(tasks: TaskMap, relations: RelationMap) {
    forall k :: k in relations ==> k.Pair? && k.first in tasks && k.second in tasks
  }

  ghost predicate TasksWellFormed(tasks: TaskMap) {
    forall id :: id in tasks ==> tasks[id].id == id && ValidHistory(tasks[id])
  }

  /** Everything decodes, relations join existing tasks, and dependencies have no cycle. */
  ghost predicate PlanOk(log: seq<Entry>) {
    && LatestTasks(log).Some? && Dependencies(log).Some? && Conflicts(log).Some?
    && TasksWellFormed(LatestTasks(log).value)
    && EndpointsExist(LatestTasks(log).value, Dependencies(log).value)
    && EndpointsExist(LatestTasks(log).value, Conflicts(log).value)
    && Acyclic(PairsOf(Dependencies(log).value))
  }

  /** A draft that cannot disturb the plan: not one of its kinds. */
  predicate OutsidePlan(d: Draft) {
    d.kind != TaskKind && d.kind != DependencyKind && d.kind != ConflictKind
  }

  lemma OutsideKeepsPlan(log: seq<Entry>, e: Entry)
    requires PlanOk(log) && OutsidePlan(e.draft)
    ensures PlanOk(log + [e])
    ensures LatestTasks(log + [e]) == LatestTasks(log) && Dependencies(log + [e]) == Dependencies(log)
    ensures Conflicts(log + [e]) == Conflicts(log)
  {
    TasksAfter(log, e);
    RelationsAfter(log, DependencyKind, DependencyIdentity, e);
    RelationsAfter(log, ConflictKind, ConflictIdentity, e);
  }

  /** A new version of a task, or a new task, under its own identity. */
  lemma TaskVersionKeepsPlan(log: seq<Entry>, e: Entry)
    requires PlanOk(log) && e.draft.kind == TaskKind && e.draft.payload.TaskPayload?
    requires e.draft.entity == Named(e.draft.payload.task.id) && ValidHistory(e.draft.payload.task)
    ensures PlanOk(log + [e])
    ensures Dependencies(log + [e]) == Dependencies(log) && Conflicts(log + [e]) == Conflicts(log)
    ensures LatestTasks(log + [e]).value == LatestTasks(log).value[e.draft.payload.task.id := e.draft.payload.task]
  {
    hide ValidHistory, LatestTasks, Relations, Acyclic;
    TasksAfter(log, e);
    RelationsAfter(log, DependencyKind, DependencyIdentity, e);
    RelationsAfter(log, ConflictKind, ConflictIdentity, e);
  }

  /** `add_dependency` refuses an edge between existing tasks exactly when it would close a cycle. */
  lemma RefusedExactlyOnCycle(log: seq<Entry>, t: Id, d: Id, at: Time)
    requires PlanOk(log) && t != d && t in LatestTasks(log).value && d in LatestTasks(log).value
    requires Pair(t, d) !in Dependencies(log).value
    ensures var edges := PairsOf(Dependencies(log).value);
            && (DecideAddDependency(t, d, at, log) == Refuse(WouldCycle) <==> !Acyclic(edges + {(t, d)}))
            && (DecideAddDependency(t, d, at, log) == Write(DependencyDraft(t, d, at)) <==> Acyclic(edges + {(t, d)}))
  {
    hide Acyclic, Reach, LatestTasks, Relations;
    var edges := PairsOf(Dependencies(log).value);
    CandidateEdgeIrrelevant(edges, t, d);
    EdgeClosesCycleIff(edges, t, d);
  }

  lemma AddDependencyKeepsPlan(log: seq<Entry>, t: Id, d: Id, at: Time)
    requires PlanOk(log) && DecideAddDependency(t, d, at, log).Write?
    ensures PlanOk(log + [NextEntry(log, DecideAddDependency(t, d, at, log).draft)])
    ensures var next := log + [NextEntry(log, DecideAddDependency(t, d, at, log).draft)];
            && LatestTasks(next) == LatestTasks(log) && Conflicts(next) == Conflicts(log)
            && Dependencies(next) == Some(Dependencies(log).value[Pair(t, d) := DependencyPayload(Dependency(t, d, at))])
  {
    hide Acyclic, Reach, LatestTasks, Relations, ValidHistory;
    var e := NextEntry(log, DependencyDraft(t, d, at));
    RefusedExactlyOnCycle(log, t, d, at);
    TasksAfter(log, e);
    RelationsAfter(log, DependencyKind, DependencyIdentity, e);
    RelationsAfter(log, ConflictKind, ConflictIdentity, e);
    PairsGrow(Dependencies(log).value, Pair(t, d), e.draft.payload);
  }

  lemma AddConflictKeepsPlan(log: seq<Entry>, left: Id, right: Id, reason: string, at: Time)
    requires PlanOk(log) && DecideAddConflict(left, right, reason, at, log).Write?
    ensures PlanOk(log + [NextEntry(log, DecideAddConflict(left, right, reason, at, log).draft)])
    ensures var next := log + [NextEntry(log, DecideAddConflict(left, right, reason, at, log).draft)];
            var (first, second) := Between(left, right);
            && LatestTasks(next) == LatestTasks(log) && Dependencies(next) == Dependencies(log)
            && Conflicts(next) == Some(Conflicts(log).value[Pair(first, second) := ConflictPayload(Conflict(first, second, reason, at))])
  {
    hide Acyclic, LatestTasks, Relations, ValidHistory;
    var (first, second) := Between(left, right);
    LexTotal(left, right);
    var e := NextEntry(log, ConflictDraft(first, second, reason, at));
    TasksAfter(log, e);
    RelationsAfter(log, DependencyKind, DependencyIdentity, e);
    RelationsAfter(log, ConflictKind, ConflictIdentity, e);
  }

  /** Every operation of the task service keeps the plan sound. */
  lemma TaskOpKeepsPlan(log: seq<Entry>, op: TaskOp)
    requires PlanOk(log) && Decide(op, log).Write?
    ensures PlanOk(log + [NextEntry(log, Decide(op, log).draft)])
  {
    hide Acyclic, Reach, LatestTasks, Relations, ValidHistory;
    match op
    case CreateTask(task) =>
      TaskVersionKeepsPlan(log, NextEntry(log, TaskDraft(task)));
    case TransitionTask(id, state, actorId, rationale, at) =>
      var t := LatestTasks(log).value[id];
      TransitionKeepsHistory(t, state, actorId, rationale, at);
      TaskVersionKeepsPlan(log, NextEntry(log, TaskDraft(Transitioned(t, state, actorId, rationale, at))));
    case AddDependency(t, d, at) =>
      AddDependencyKeepsPlan(log, t, d, at);
    case AddConflict(left, right, reason, at) =>
      AddConflictKeepsPlan(log, left, right, reason, at);
  }

  lemma EmptyPlanOk()
    ensures PlanOk([])
  {
  }
}
