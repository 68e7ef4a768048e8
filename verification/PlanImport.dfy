/** What a reviewed source plan asks the native ledger to hold (application/plan_import.py). */
module SourcePlans {
  import opened Common
  import opened Sorting
  import opened Records
  import opened Chain
  import opened Graphs
  import opened GraphSearch
  import opened TaskIntents
  import Tasks
  import Completion
  import Decisions

  const CONFLICT_REASON := "reviewed source-plan semantic conflict"

  datatype Snapshot = Snapshot(digest: string, tasks: seq<PlanTask>)

  /** Tasks that are done in the source are not imported. */
  function Actionable(s: Snapshot): set<Id> {
    set i | 0 <= i < |s.tasks| && s.tasks[i].status != "done" :: s.tasks[i].slug
  }

  /** The task `actionable[slug]` of the source's dictionary. */
  function TaskFor(tasks: seq<PlanTask>, slug: Id): (t: PlanTask)
    requires exists i :: 0 <= i < |tasks| && tasks[i].status != "done" && tasks[i].slug == slug
    ensures t in tasks && t.slug == slug && t.status != "done"
  {
    var n := |tasks| - 1;
    if tasks[n].status != "done" && tasks[n].slug == slug then tasks[n]
    else
      assert forall i :: 0 <= i < n ==> tasks[..n][i] == tasks[i];
      TaskFor(tasks[..n], slug)
  }

  /** `_task_intent` */
  function Expected(s: Snapshot, slug: Id, at: Time): (t: Task)
    requires slug in Actionable(s)
    ensures t.id == slug && t.createdAt == at
  {
    var p := TaskFor(s.tasks, slug);
    Task(slug, Intent(p.title, p.purpose, p.what, None), p.priority, if p.status == "idea" then Idea else Todo,
         p.scopes, at, at, [])
  }

  /** `_same_intent`: neither times nor states count, nor the order of scopes. */
  predicate SameIntent(current: Task, expected: Task) {
    && current.id == expected.id && current.intent == expected.intent && current.priority == expected.priority
    && SortBy(LexLeq, current.scopes) == SortBy(LexLeq, expected.scopes)
  }

  /** The dependencies among actionable tasks. */
  function NativeEdges(s: Snapshot): Edges {
    set e | e in DependencyEdges(s.tasks) && e.0 in Actionable(s) && e.1 in Actionable(s)
  }

  /** Dependencies of actionable tasks on done ones. */
  function SatisfiedEdges(s: Snapshot): Edges {
    set e | e in DependencyEdges(s.tasks) && e.0 in Actionable(s) && e.1 !in Actionable(s)
  }

  function NativeConflicts(s: Snapshot): Edges {
    set i, c | 0 <= i < |s.tasks| && c in s.tasks[i].conflicts && s.tasks[i].slug in Actionable(s) && c in Actionable(s)
      :: Tasks.Between(s.tasks[i].slug, c)
  }

  // ----- what a ledger holds of a plan

  predicate IsIntended(s: Snapshot, slug: Id, t: Task) {
    slug in Actionable(s) && SameIntent(t, Expected(s, slug, t.createdAt))
  }

  /** As it was created by an import: idea or todo as its source says, and nothing done since. */
  predicate IsAsCreated(s: Snapshot, t: Task) {
    && t.id in Actionable(s)
    && t.state == (if TaskFor(s.tasks, t.id).status == "idea" then Idea else Todo)
    && t.events == [] && t.updatedAt == t.createdAt
  }

  ghost predicate AllAsCreated(s: Snapshot, log: seq<Entry>) {
    && Tasks.LatestTasks(log).Some?
    && forall id :: id in Tasks.LatestTasks(log).value ==> IsAsCreated(s, Tasks.LatestTasks(log).value[id])
  }

  predicate IsReviewedConflict(p: Payload) {
    p.ConflictPayload? && p.conflict.reason == CONFLICT_REASON
  }

  predicate HasTask(s: Snapshot, log: seq<Entry>, slug: Id) {
    && Tasks.LatestTasks(log).Some? && slug in Tasks.LatestTasks(log).value
    && IsIntended(s, slug, Tasks.LatestTasks(log).value[slug])
  }

  predicate HasEdge(log: seq<Entry>, e: (Id, Id)) {
    Tasks.Dependencies(log).Some? && Pair(e.0, e.1) in Tasks.Dependencies(log).value
  }

  predicate HasConflict(log: seq<Entry>, e: (Id, Id)) {
    && Tasks.Conflicts(log).Some? && Pair(e.0, e.1) in Tasks.Conflicts(log).value
    && IsReviewedConflict(Tasks.Conflicts(log).value[Pair(e.0, e.1)])
  }

  /** Everything the plan asks for is there. */
  predicate Contains(s: Snapshot, log: seq<Entry>) {
    && (forall slug :: slug in Actionable(s) ==> HasTask(s, log, slug))
    && (forall e :: e in NativeEdges(s) ==> HasEdge(log, e))
    && (forall e :: e in NativeConflicts(s) ==> HasConflict(log, e))
  }

  /** Nothing but parts of the plan is there: a ledger without tasks, or one an import left unfinished. */
  ghost predicate Within(s: Snapshot, log: seq<Entry>) {
    && Tasks.PlanOk(log)
    && (forall id :: id in Tasks.LatestTasks(log).value ==> IsIntended(s, id, Tasks.LatestTasks(log).value[id]))
    && (forall k :: k in Tasks.Dependencies(log).value ==> (k.first, k.second) in NativeEdges(s))
    && (forall k :: k in Tasks.Conflicts(log).value ==>
          (k.first, k.second) in NativeConflicts(s) && IsReviewedConflict(Tasks.Conflicts(log).value[k]))
  }

  /** The ledger holds the plan and nothing else: the subgraph induced by the actionable tasks. */
  lemma ContainedIsInduced(s: Snapshot, log: seq<Entry>)
    requires Within(s, log) && Contains(s, log)
    ensures Tasks.LatestTasks(log).value.Keys == Actionable(s)
    ensures Tasks.PairsOf(Tasks.Dependencies(log).value) == NativeEdges(s)
    ensures Tasks.PairsOf(Tasks.Conflicts(log).value) == NativeConflicts(s)
  {
    hide Tasks.LatestTasks, Tasks.Relations, Acyclic, IsIntended, NativeEdges, NativeConflicts, Actionable;
    forall id
      ensures id in Tasks.LatestTasks(log).value <==> id in Actionable(s)
    {
      if id in Tasks.LatestTasks(log).value {
        IntendedIsActionable(s, id, Tasks.LatestTasks(log).value[id]);
      }
      if id in Actionable(s) {
        assert HasTask(s, log, id);
      }
    }
    PairsAre(Tasks.Dependencies(log).value, NativeEdges(s), e => HasEdge(log, e));
    PairsAre(Tasks.Conflicts(log).value, NativeConflicts(s), e => HasConflict(log, e));
  }

  lemma IntendedIsActionable(s: Snapshot, slug: Id, t: Task)
    requires IsIntended(s, slug, t)
    ensures slug in Actionable(s)
  {
  }

  lemma PairsAre(m: Tasks.RelationMap, es: Edges, has: ((Id, Id)) -> bool)
    requires forall k :: k in m ==> k.Pair? && (k.first, k.second) in es
    requires forall e :: e in es ==> has(e)
    requires forall e :: has(e) ==> Pair(e.0, e.1) in m
    ensures Tasks.PairsOf(m) == es
  {
    forall a, b
      ensures (a, b) in Tasks.PairsOf(m) <==> (a, b) in es
    {
      assert (a, b) in Tasks.PairsOf(m) <==> Pair(a, b) in m;
      if (a, b) in es {
        assert has((a, b));
        assert Pair((a, b).0, (a, b).1) == Pair(a, b);
      }
    }
  }

  /** A ledger without tasks holds nothing outside any plan. */
  lemma TaskFreeIsWithin(s: Snapshot, log: seq<Entry>)
    requires Tasks.PlanOk(log) && Tasks.LatestTasks(log) == Some(map[])
    ensures Within(s, log)
  {
    hide Tasks.LatestTasks, Tasks.Relations, Acyclic, NativeEdges, NativeConflicts;
  }

  // ----- growth

  /** Tasks and relations are only added; what a task is for never changes. */
  ghost predicate Grown(a: seq<Entry>, b: seq<Entry>) {
    && a <= b
    && Tasks.LatestTasks(a).Some? && Tasks.LatestTasks(b).Some?
    && Tasks.Dependencies(a).Some? && Tasks.Dependencies(b).Some?
    && Tasks.Conflicts(a).Some? && Tasks.Conflicts(b).Some?
    && TasksGrown(Tasks.LatestTasks(a).value, Tasks.LatestTasks(b).value)
    && RelationsGrown(Tasks.Dependencies(a).value, Tasks.Dependencies(b).value)
    && RelationsGrown(Tasks.Conflicts(a).value, Tasks.Conflicts(b).value)
  }

  ghost predicate TasksGrown(m: Tasks.TaskMap, n: Tasks.TaskMap) {
    forall id :: id in m ==> id in n && m[id].id == n[id].id && m[id].intent == n[id].intent
                             && m[id].priority == n[id].priority && m[id].scopes == n[id].scopes && m[id].createdAt == n[id].createdAt
  }

  ghost predicate RelationsGrown(m: Tasks.RelationMap, n: Tasks.RelationMap) {
    forall k :: k in m ==> k in n && m[k] == n[k]
  }

  lemma GrownSelf(log: seq<Entry>)
    requires Tasks.PlanOk(log)
    ensures Grown(log, log)
  {
    hide Tasks.LatestTasks, Tasks.Relations, Acyclic;
  }

  lemma GrownTransitive(a: seq<Entry>, b: seq<Entry>, c: seq<Entry>)
    requires Grown(a, b) && Grown(b, c)
    ensures Grown(a, c)
  {
    hide Tasks.LatestTasks, Tasks.Relations;
  }

  lemma HadStays(s: Snapshot, a: seq<Entry>, b: seq<Entry>)
    requires Grown(a, b)
    ensures forall slug :: HasTask(s, a, slug) ==> HasTask(s, b, slug)
    ensures forall e :: HasEdge(a, e) ==> HasEdge(b, e)
    ensures forall e :: HasConflict(a, e) ==> HasConflict(b, e)
    ensures Contains(s, a) ==> Contains(s, b)
  {
    hide Tasks.LatestTasks, Tasks.Relations, Actionable, NativeEdges, NativeConflicts, IsReviewedConflict, Expected;
  }

  lemma VersionGrows(log: seq<Entry>, task: Task)
    requires Tasks.PlanOk(log) && ValidHistory(task)
    requires task.id in Tasks.LatestTasks(log).value ==>
               var t := Tasks.LatestTasks(log).value[task.id];
               t.id == task.id && t.intent == task.intent && t.priority == task.priority && t.scopes == task.scopes && t.createdAt == task.createdAt
    ensures var next := log + [NextEntry(log, Tasks.TaskDraft(task))]; Tasks.PlanOk(next) && Grown(log, next)
  {
    hide Acyclic, Tasks.LatestTasks, Tasks.Relations, ValidHistory;
    Tasks.TaskVersionKeepsPlan(log, NextEntry(log, Tasks.TaskDraft(task)));
  }

  lemma TaskOpGrows(log: seq<Entry>, op: Tasks.TaskOp)
    requires Tasks.PlanOk(log) && Tasks.Decide(op, log).Write?
    ensures Tasks.PlanOk(log + [NextEntry(log, Tasks.Decide(op, log).draft)])
    ensures Grown(log, log + [NextEntry(log, Tasks.Decide(op, log).draft)])
  {
    hide Acyclic, Reach, Tasks.LatestTasks, Tasks.Relations, ValidHistory;
    match op
    case CreateTask(task) =>
      VersionGrows(log, task);
    case TransitionTask(id, state, actorId, rationale, at) =>
      var t := Tasks.LatestTasks(log).value[id];
      TransitionKeepsHistory(t, state, actorId, rationale, at);
      VersionGrows(log, Transitioned(t, state, actorId, rationale, at));
    case AddDependency(t, d, at) =>
      Tasks.AddDependencyKeepsPlan(log, t, d, at);
    case AddConflict(left, right, reason, at) =>
      Tasks.AddConflictKeepsPlan(log, left, right, reason, at);
  }

  // ----- operations that import this plan

  /** An operation some importer of this plan makes, or a change of a task's state. */
  predicate ImportsPart(s: Snapshot, op: Tasks.TaskOp) {
    match op
    case CreateTask(t) => IsIntended(s, t.id, t)
    case TransitionTask(_, _, _, _, _) => true
    case AddDependency(t, d, _) => (t, d) in NativeEdges(s)
    case AddConflict(left, right, reason, _) => Tasks.Between(left, right) in NativeConflicts(s) && reason == CONFLICT_REASON
  }

  lemma PartStaysWithin(s: Snapshot, log: seq<Entry>, op: Tasks.TaskOp)
    requires Within(s, log) && ImportsPart(s, op) && Tasks.Decide(op, log).Write?
    ensures Within(s, log + [NextEntry(log, Tasks.Decide(op, log).draft)])
  {
    hide Within, Tasks.PlanOk, Acyclic, Reach, Tasks.LatestTasks, Tasks.Relations, ValidHistory, IsIntended, CanTransition, Transitioned;
    hide NativeEdges, NativeConflicts;
    WithinIsSound(s, log);
    match op
    case CreateTask(task) =>
      VersionStaysWithin(s, log, task);
    case TransitionTask(id, state, actorId, rationale, at) =>
      var t := Tasks.LatestTasks(log).value[id];
      TransitionKeepsHistory(t, state, actorId, rationale, at);
      TransitionKeepsIntent(s, id, t, state, actorId, rationale, at) by { assert IsIntended(s, id, t) by { WithinIntends(s, log, id); } }
      VersionStaysWithin(s, log, Transitioned(t, state, actorId, rationale, at));
    case AddDependency(t, d, at) =>
      EdgeStaysWithin(s, log, t, d, at);
    case AddConflict(left, right, reason, at) =>
      ConflictStaysWithin(s, log, left, right, at);
  }

  lemma WithinIsSound(s: Snapshot, log: seq<Entry>)
    requires Within(s, log)
    ensures Tasks.PlanOk(log)
    ensures forall id :: id in Tasks.LatestTasks(log).value ==> ValidHistory(Tasks.LatestTasks(log).value[id])
  {
    hide Tasks.LatestTasks, Tasks.Relations, Acyclic, ValidHistory, NativeEdges, NativeConflicts, IsIntended;
  }

  lemma WithinIntends(s: Snapshot, log: seq<Entry>, id: Id)
    requires Within(s, log) && Tasks.LatestTasks(log).Some? && id in Tasks.LatestTasks(log).value
    ensures IsIntended(s, id, Tasks.LatestTasks(log).value[id])
  {
    hide Tasks.LatestTasks, Tasks.Relations, Acyclic, ValidHistory, NativeEdges, NativeConflicts, IsIntended;
  }

  lemma TransitionKeepsIntent(s: Snapshot, id: Id, t: Task, state: TaskState, actorId: Id, rationale: string, at: Time)
    requires IsIntended(s, id, t)
    ensures IsIntended(s, id, Transitioned(t, state, actorId, rationale, at)) && Transitioned(t, state, actorId, rationale, at).id == id
  {
    hide Actionable, Expected;
  }

  lemma VersionStaysWithin(s: Snapshot, log: seq<Entry>, task: Task)
    requires Within(s, log) && IsIntended(s, task.id, task) && ValidHistory(task)
    ensures Within(s, log + [NextEntry(log, Tasks.TaskDraft(task))])
  {
    hide Acyclic, Tasks.LatestTasks, Tasks.Relations, ValidHistory, NativeEdges, NativeConflicts, IsIntended;
    Tasks.TaskVersionKeepsPlan(log, NextEntry(log, Tasks.TaskDraft(task)));
  }

  lemma EdgeStaysWithin(s: Snapshot, log: seq<Entry>, t: Id, d: Id, at: Time)
    requires Within(s, log) && (t, d) in NativeEdges(s) && Tasks.DecideAddDependency(t, d, at, log).Write?
    ensures Within(s, log + [NextEntry(log, Tasks.DecideAddDependency(t, d, at, log).draft)])
  {
    hide Acyclic, Reach, Tasks.LatestTasks, Tasks.Relations, ValidHistory, NativeEdges, NativeConflicts, IsIntended;
    Tasks.AddDependencyKeepsPlan(log, t, d, at);
  }

  lemma ConflictStaysWithin(s: Snapshot, log: seq<Entry>, left: Id, right: Id, at: Time)
    requires Within(s, log) && Tasks.Between(left, right) in NativeConflicts(s)
    requires Tasks.DecideAddConflict(left, right, CONFLICT_REASON, at, log).Write?
    ensures Within(s, log + [NextEntry(log, Tasks.DecideAddConflict(left, right, CONFLICT_REASON, at, log).draft)])
  {
    hide Acyclic, Tasks.LatestTasks, Tasks.Relations, ValidHistory, NativeEdges, NativeConflicts, IsIntended;
    Tasks.AddConflictKeepsPlan(log, left, right, CONFLICT_REASON, at);
  }

  ghost predicate EndpointsReady(op: Tasks.TaskOp, log: seq<Entry>) {
    && Tasks.LatestTasks(log).Some?
    && (op.AddDependency? ==> op.taskId in Tasks.LatestTasks(log).value && op.dependsOn in Tasks.LatestTasks(log).value)
    && (op.AddConflict? ==> op.left in Tasks.LatestTasks(log).value && op.right in Tasks.LatestTasks(log).value)
  }

  /** Only creating can be refused, when another importer was first. No edge of the plan closes a cycle. */
  lemma PartNeverRefused(s: Snapshot, log: seq<Entry>, op: Tasks.TaskOp)
    requires Within(s, log) && AcceptedPlan(s.tasks) && ImportsPart(s, op) && EndpointsReady(op, log)
    requires op.CreateTask? ==> (op.task.state == Idea || op.task.state == Todo) && op.task.events == [] && ValidHistory(op.task)
    requires !op.TransitionTask?
    ensures Tasks.Decide(op, log).Refuse? ==>
              op.CreateTask? && op.task.id in Tasks.LatestTasks(log).value && Tasks.Decide(op, log).error == Decisions.AlreadyExists
  {
    hide Acyclic, Reach, Tasks.LatestTasks, Tasks.Relations, ValidHistory, Actionable, Expected, IsIntended, NativeConflicts;
    match op
    case CreateTask(task) =>
    case AddDependency(t, d, at) =>
      NotItself(s, t, d);
      if Pair(t, d) !in Tasks.Dependencies(log).value {
        Tasks.RefusedExactlyOnCycle(log, t, d, at);
        WithinIsAcyclic(s, log, t, d);
      }
    case AddConflict(left, right, reason, at) =>
      var (first, second) := Tasks.Between(left, right);
      NoSelfConflict(s, first, second);
  }

  lemma NotItself(s: Snapshot, t: Id, d: Id)
    requires AcceptedPlan(s.tasks) && (t, d) in NativeEdges(s)
    ensures t != d
  {
    hide Acyclic;
    var i :| 0 <= i < |s.tasks| && d in s.tasks[i].dependencies && s.tasks[i].slug == t;
    assert TaskResolves(s.tasks, i);
  }

  lemma NoSelfConflict(s: Snapshot, first: Id, second: Id)
    requires AcceptedPlan(s.tasks) && (first, second) in NativeConflicts(s)
    ensures first != second
  {
    hide Acyclic;
    var i, c :| 0 <= i < |s.tasks| && c in s.tasks[i].conflicts && (first, second) == Tasks.Between(s.tasks[i].slug, c);
    assert TaskResolves(s.tasks, i);
    var (least, most) := Tasks.Between(s.tasks[i].slug, c);
    assert first == least && second == most;
  }

  lemma WithinIsAcyclic(s: Snapshot, log: seq<Entry>, t: Id, d: Id)
    requires Within(s, log) && AcceptedPlan(s.tasks) && (t, d) in NativeEdges(s)
    ensures Acyclic(Tasks.PairsOf(Tasks.Dependencies(log).value) + {(t, d)})
  {
    hide Acyclic, Tasks.LatestTasks, Tasks.Relations, IsIntended;
    AcyclicSubset(Tasks.PairsOf(Tasks.Dependencies(log).value) + {(t, d)}, DependencyEdges(s.tasks));
  }

  // ----- receipts

  function ReceiptDraft(r: ImportReceipt, at: Time): Draft {
    Draft(ReceiptKind, Named(r.source), ReceiptPayload(r), at)
  }

  function Receipt(log: seq<Entry>, source: Id): Option<Payload> {
    var e := Completion.LatestEntry(log, ReceiptKind, source, None);
    if e.None? then None else Some(e.value.draft.payload)
  }

  predicate IsReceiptOf(p: Payload, source: Id, digest: string) {
    p.ReceiptPayload? && p.receipt.source == source && p.receipt.digest == digest
  }

  /** A stored receipt of this plan was written when the ledger held it. */
  ghost predicate ReceiptOk(s: Snapshot, source: Id, log: seq<Entry>) {
    Receipt(log, source).Some? ==> IsReceiptOf(Receipt(log, source).value, source, s.digest) && Contains(s, log)
  }

  lemma ReceiptAfter(log: seq<Entry>, e: Entry, source: Id)
    ensures Receipt(log + [e], source) ==
            if e.draft.kind == ReceiptKind && e.draft.entity == Named(source) then Some(e.draft.payload) else Receipt(log, source)
  {
    hide Completion.LatestEntry;
    Completion.LatestAfter(log, e, ReceiptKind, source);
  }

  lemma ReceiptGrows(log: seq<Entry>, e: Entry)
    requires Tasks.PlanOk(log) && e.draft.kind == ReceiptKind
    ensures Tasks.PlanOk(log + [e]) && Grown(log, log + [e])
    ensures forall s :: Within(s, log) ==> Within(s, log + [e])
  {
    hide Acyclic, Tasks.LatestTasks, Tasks.Relations, ValidHistory, NativeEdges, NativeConflicts, IsIntended, TasksGrown, RelationsGrown;
    Tasks.OutsideKeepsPlan(log, e);
    assert TasksGrown(Tasks.LatestTasks(log).value, Tasks.LatestTasks(log).value) by { SameGrown(log); }
    assert RelationsGrown(Tasks.Dependencies(log).value, Tasks.Dependencies(log).value)
           && RelationsGrown(Tasks.Conflicts(log).value, Tasks.Conflicts(log).value) by { SameGrown(log); }
  }

  lemma SameGrown(log: seq<Entry>)
    requires Tasks.PlanOk(log)
    ensures TasksGrown(Tasks.LatestTasks(log).value, Tasks.LatestTasks(log).value)
    ensures RelationsGrown(Tasks.Dependencies(log).value, Tasks.Dependencies(log).value)
    ensures RelationsGrown(Tasks.Conflicts(log).value, Tasks.Conflicts(log).value)
  {
    hide Tasks.LatestTasks, Tasks.Relations;
  }
}

/** The import itself: single appends in a fixed order, any of which may be its last before a crash. */
module PlanImports {
  import opened Common
  import opened Sorting
  import opened Records
  import opened Chain
  import opened Decisions
  import opened LedgerStore
  import opened Graphs
  import opened GraphSearch
  import opened TaskIntents
  import opened SourcePlans
  import opened PlanContents
  import Tasks
  import Planning

  /** What another client does while the import runs. */
  datatype Peer = PeerTask(op: Tasks.TaskOp) | PeerReceipt(receipt: ImportReceipt, at: Time)

  /** The plan, its label, and what others do at the n-th opportunity of the c-th service call. */
  datatype World = World(snapshot: Snapshot, source: Id, peers: (nat, nat) -> seq<Peer>)

  datatype ImportError =
    | Crashed | Busy | Drift | MalformedReceipt | DifferentIntent | ReasonsDiffer | Refused(refusal: Refusal)

  datatype ImportResult = ImportResult(
    imported: bool, createdTasks: seq<Id>, existingTasks: seq<Id>,
    createdDependencies: seq<(Id, Id)>, existingDependencies: seq<(Id, Id)>,
    createdConflicts: seq<(Id, Id)>, existingConflicts: seq<(Id, Id)>,
    skipped: seq<Id>, satisfied: seq<(Id, Id)>)

  // ----- clients that import the same plan

  /** Others import the same plan, move tasks through their states, or record other sources' receipts. */
  predicate IsFriendly(w: World, p: Peer) {
    match p
    case PeerTask(op) => ImportsPart(w.snapshot, op)
    case PeerReceipt(r, _) => r.source == w.source ==> r.digest == w.snapshot.digest
  }

  ghost predicate AllFriendly(w: World, ops: seq<Peer>) {
    forall i :: 0 <= i < |ops| ==> IsFriendly(w, ops[i])
  }

  ghost predicate Friendly(w: World) {
    forall c, n :: AllFriendly(w, w.peers(c, n))
  }

  ghost predicate Alone(w: World) {
    forall c, n :: w.peers(c, n) == []
  }

  /** A ledger that only this plan has been imported into, wholly or in part. */
  ghost predicate Ours(w: World, log: seq<Entry>) {
    AcceptedPlan(w.snapshot.tasks) && Friendly(w) && Within(w.snapshot, log) && ReceiptOk(w.snapshot, w.source, log)
  }

  function MissingTasks(w: World, log: seq<Entry>): set<Id> {
    set slug | slug in Actionable(w.snapshot) && !HasTask(w.snapshot, log, slug)
  }

  function MissingEdges(w: World, log: seq<Entry>): Edges {
    set e | e in NativeEdges(w.snapshot) && !HasEdge(log, e)
  }

  function MissingConflicts(w: World, log: seq<Entry>): Edges {
    set e | e in NativeConflicts(w.snapshot) && !HasConflict(log, e)
  }

  /** How many records the import of this plan still has to append. */
  function Missing(w: World, log: seq<Entry>): nat {
    |MissingTasks(w, log)| + |MissingEdges(w, log)| + |MissingConflicts(w, log)| + (if Receipt(log, w.source).None? then 1 else 0)
  }

  /** What every part of the import keeps. */
  ghost predicate Evolved(w: World, a: seq<Entry>, b: seq<Entry>) {
    && ValidChain(b) && Tasks.PlanOk(b) && Grown(a, b)
    && (Ours(w, a) ==> Ours(w, b))
    && (Ours(w, a) && Alone(w) ==> |b| + Missing(w, b) <= |a| + Missing(w, a))
    && (Alone(w) && AllAsCreated(w.snapshot, a) ==> AllAsCreated(w.snapshot, b))
  }

  lemma EvolvedSelf(w: World, log: seq<Entry>)
    requires ValidChain(log) && Tasks.PlanOk(log)
    ensures Evolved(w, log, log)
  {
    hide Tasks.PlanOk, Ours, Missing, Alone, ValidChain;
    GrownSelf(log);
  }

  lemma EvolvedTransitive(w: World, a: seq<Entry>, b: seq<Entry>, c: seq<Entry>)
    requires Evolved(w, a, b) && Evolved(w, b, c)
    ensures Evolved(w, a, c)
  {
    hide Tasks.PlanOk, Ours, Missing, Alone, ValidChain, Grown;
    GrownTransitive(a, b, c);
  }

  /** What `op` of an importer is for. */
  predicate Holds(s: Snapshot, op: Tasks.TaskOp, log: seq<Entry>) {
    match op
    case CreateTask(t) => HasTask(s, log, t.id)
    case TransitionTask(_, _, _, _, _) => true
    case AddDependency(t, d, _) => HasEdge(log, (t, d))
    case AddConflict(left, right, _, _) => HasConflict(log, Tasks.Between(left, right))
  }

  ghost predicate IsOwn(s: Snapshot, op: Tasks.TaskOp) {
    && ImportsPart(s, op) && !op.TransitionTask?
    && (op.CreateTask? ==> IsAsCreated(s, op.task) && ValidHistory(op.task))
  }

  // ----- steps

  lemma TaskStepOurs(w: World, log: seq<Entry>, op: Tasks.TaskOp)
    requires Ours(w, log) && ImportsPart(w.snapshot, op) && Tasks.Decide(op, log).Write?
    ensures Ours(w, log + [NextEntry(log, Tasks.Decide(op, log).draft)])
  {
    hide Within, Tasks.Decide, AcceptedPlan, Friendly, Contains, ImportsPart, Receipt;
    var e := NextEntry(log, Tasks.Decide(op, log).draft);
    PartStaysWithin(w.snapshot, log, op);
    assert Tasks.PlanOk(log) by { WithinIsSound(w.snapshot, log); }
    TaskOpGrows(log, op);
    HadStays(w.snapshot, log, log + [e]);
    ReceiptAfter(log, e, w.source);
    assert e.draft.kind != ReceiptKind by { TaskOpKinds(log, op); }
  }

  lemma TaskOpKinds(log: seq<Entry>, op: Tasks.TaskOp)
    requires Tasks.Decide(op, log).Write?
    ensures Tasks.Decide(op, log).draft.kind != ReceiptKind
  {
    hide Tasks.LatestTasks, Tasks.Relations, Reach;
  }

  /** After an importer's write, what it is for holds, and it did not before. */
  lemma WriteHolds(s: Snapshot, log: seq<Entry>, op: Tasks.TaskOp)
    requires Tasks.PlanOk(log) && IsOwn(s, op) && Tasks.Decide(op, log).Write?
    ensures !Holds(s, op, log) && Holds(s, op, log + [NextEntry(log, Tasks.Decide(op, log).draft)])
  {
    hide Within, Acyclic, Reach, Tasks.LatestTasks, Tasks.Relations, ValidHistory, NativeEdges, NativeConflicts, IsIntended;
    match op
    case CreateTask(task) =>
      Tasks.TaskVersionKeepsPlan(log, NextEntry(log, Tasks.TaskDraft(task)));
    case AddDependency(t, d, at) =>
      Tasks.AddDependencyKeepsPlan(log, t, d, at);
    case AddConflict(left, right, reason, at) =>
      Tasks.AddConflictKeepsPlan(log, left, right, reason, at);
  }

  lemma MissingShrinks(w: World, a: seq<Entry>, b: seq<Entry>)
    requires Grown(a, b) && (Receipt(a, w.source).Some? ==> Receipt(b, w.source).Some?)
    ensures MissingTasks(w, b) <= MissingTasks(w, a) && |MissingTasks(w, b)| <= |MissingTasks(w, a)|
    ensures MissingEdges(w, b) <= MissingEdges(w, a) && |MissingEdges(w, b)| <= |MissingEdges(w, a)|
    ensures MissingConflicts(w, b) <= MissingConflicts(w, a) && |MissingConflicts(w, b)| <= |MissingConflicts(w, a)|
  {
    hide Grown, HasTask, HasEdge, HasConflict, Receipt, NativeEdges, NativeConflicts, Actionable;
    HadStays(w.snapshot, a, b);
    Subset(MissingTasks(w, b), MissingTasks(w, a));
    Subset(MissingEdges(w, b), MissingEdges(w, a));
    Subset(MissingConflicts(w, b), MissingConflicts(w, a));
  }

  /** Each append of the import is one record less to append. */
  lemma OwnWritePays(w: World, log: seq<Entry>, op: Tasks.TaskOp)
    requires Tasks.PlanOk(log) && IsOwn(w.snapshot, op) && Tasks.Decide(op, log).Write?
    ensures Missing(w, log + [NextEntry(log, Tasks.Decide(op, log).draft)]) < Missing(w, log)
  {
    hide Tasks.PlanOk, Tasks.Decide, HasTask, HasEdge, HasConflict, Receipt, NativeEdges, NativeConflicts, Actionable, Grown;
    hide IsIntended, Tasks.Between, Within;
    var e := NextEntry(log, Tasks.Decide(op, log).draft);
    var next := log + [e];
    TaskOpGrows(log, op);
    WriteHolds(w.snapshot, log, op);
    TaskOpKinds(log, op);
    ReceiptAfter(log, e, w.source);
    MissingShrinks(w, log, next);
    match op
    case CreateTask(task) =>
      assert task.id in MissingTasks(w, log) by { IntendedIsActionable(w.snapshot, task.id, task); }
      Smaller(MissingTasks(w, next), MissingTasks(w, log), task.id);
    case AddDependency(t, d, at) =>
      Smaller(MissingEdges(w, next), MissingEdges(w, log), (t, d));
    case AddConflict(left, right, reason, at) =>
      Smaller(MissingConflicts(w, next), MissingConflicts(w, log), Tasks.Between(left, right));
  }

  lemma OwnStepEvolves(w: World, log: seq<Entry>, op: Tasks.TaskOp)
    requires ValidChain(log) && Tasks.PlanOk(log) && IsOwn(w.snapshot, op) && Tasks.Decide(op, log).Write?
    ensures Evolved(w, log, log + [NextEntry(log, Tasks.Decide(op, log).draft)])
  {
    hide Tasks.PlanOk, Tasks.Decide, Grown, Ours, Missing, Alone, ValidChain, AllAsCreated;
    AppendValid(log, Tasks.Decide(op, log).draft);
    TaskOpGrows(log, op);
    OwnWritePays(w, log, op);
    if Ours(w, log) {
      TaskStepOurs(w, log, op);
    }
    if AllAsCreated(w.snapshot, log) {
      OwnStepAsCreated(w, log, op);
    }
  }

  lemma OwnStepAsCreated(w: World, log: seq<Entry>, op: Tasks.TaskOp)
    requires Tasks.PlanOk(log) && IsOwn(w.snapshot, op) && Tasks.Decide(op, log).Write? && AllAsCreated(w.snapshot, log)
    ensures AllAsCreated(w.snapshot, log + [NextEntry(log, Tasks.Decide(op, log).draft)])
  {
    hide Acyclic, Reach, Tasks.LatestTasks, Tasks.Relations, ValidHistory, ImportsPart, IsAsCreated;
    match op
    case CreateTask(task) =>
      Tasks.TaskVersionKeepsPlan(log, NextEntry(log, Tasks.TaskDraft(task)));
    case AddDependency(t, d, at) =>
      Tasks.AddDependencyKeepsPlan(log, t, d, at);
    case AddConflict(left, right, reason, at) =>
      Tasks.AddConflictKeepsPlan(log, left, right, reason, at);
  }

  /** A receipt of this plan may be written once the ledger holds it. */
  lemma ReceiptStepEvolves(w: World, log: seq<Entry>, receipt: ImportReceipt, at: Time)
    requires ValidChain(log) && Tasks.PlanOk(log)
    ensures var next := log + [NextEntry(log, ReceiptDraft(receipt, at))];
            && ValidChain(next) && Tasks.PlanOk(next) && Grown(log, next)
            && (Ours(w, log) && (receipt.source == w.source ==> receipt.digest == w.snapshot.digest && Contains(w.snapshot, log)) ==> Ours(w, next))
            && (Receipt(log, w.source).None? && receipt.source == w.source ==> Missing(w, next) < Missing(w, log))
  {
    hide Within, Tasks.PlanOk, Grown, Contains, AcceptedPlan, Friendly, ValidChain, Receipt;
    hide MissingTasks, MissingEdges, MissingConflicts;
    var e := NextEntry(log, ReceiptDraft(receipt, at));
    AppendValid(log, ReceiptDraft(receipt, at));
    ReceiptGrows(log, e);
    HadStays(w.snapshot, log, log + [e]);
    ReceiptAfter(log, e, w.source);
    MissingShrinks(w, log, log + [e]);
  }

  // ----- the task service, in small

  method DecideNow(op: Tasks.TaskOp, log: seq<Entry>) returns (d: Decision<Refusal>)
    ensures d == Tasks.Decide(op, log)
  {
    match op {
      case CreateTask(task) =>
        d := Tasks.DecideCreate(task, log);
      case TransitionTask(_, _, _, _, _) =>
        d := Tasks.DecideTransition(op, log);
      case AddDependency(t, dependsOn, at) =>
        d := Tasks.DecideAddDependencyNow(t, dependsOn, at, log);
      case AddConflict(left, right, reason, at) =>
        d := Tasks.DecideAddConflict(left, right, reason, at, log);
    }
  }

  /** Other clients act; one that imports this plan too records its receipt only when it is through. */
  method PeersAct(store: Store, w: World, c: nat, n: nat)
    requires ValidChain(store.log) && Tasks.PlanOk(store.log)
    modifies store
    ensures Evolved(w, old(store.log), store.log)
    ensures w.peers(c, n) == [] ==> store.log == old(store.log)
  {
    hide Tasks.Decide, Ours, Grown, Tasks.PlanOk, Missing, ValidChain, ImportsPart;
    var ops := w.peers(c, n);
    GrownSelf(store.log);
    ghost var friendly := Ours(w, store.log);
    if friendly {
      OursIsFriendly(w, store.log, c, n);
    }
    var i := 0;
    while i < |ops|
      invariant 0 <= i <= |ops|
      invariant ValidChain(store.log) && Tasks.PlanOk(store.log) && Grown(old(store.log), store.log)
      invariant friendly ==> Ours(w, store.log)
      invariant ops == [] ==> store.log == old(store.log)
    {
      ghost var before := store.log;
      assert friendly ==> IsFriendly(w, ops[i]);
      PeerActs(store, w, ops[i]);
      GrownTransitive(old(store.log), before, store.log);
      i := i + 1;
    }
  }

  lemma OursIsFriendly(w: World, log: seq<Entry>, c: nat, n: nat)
    requires Ours(w, log)
    ensures AllFriendly(w, w.peers(c, n))
  {
    hide Within, AcceptedPlan, ReceiptOk;
  }

  method PeerActs(store: Store, w: World, p: Peer)
    requires ValidChain(store.log) && Tasks.PlanOk(store.log)
    modifies store
    ensures ValidChain(store.log) && Tasks.PlanOk(store.log) && Grown(old(store.log), store.log)
    ensures Ours(w, old(store.log)) && IsFriendly(w, p) ==> Ours(w, store.log)
  {
    hide Tasks.Decide, Ours, Grown, Tasks.PlanOk, Missing, ValidChain, ImportsPart, Contains, Receipt;
    GrownSelf(store.log);
    match p {
      case PeerTask(op) =>
        var d := DecideNow(op, store.log);
        if d.Write? {
          AppendValid(store.log, d.draft);
          TaskOpGrows(store.log, op);
          if Ours(w, store.log) && ImportsPart(w.snapshot, op) {
            TaskStepOurs(w, store.log, op);
          }
          store.log := store.log + [NextEntry(store.log, d.draft)];
        }
      case PeerReceipt(receipt, at) =>
        if !(receipt.source == w.source && receipt.digest == w.snapshot.digest) || Contains(w.snapshot, store.log) {
          ReceiptStepEvolves(w, store.log, receipt, at);
          store.log := store.log + [NextEntry(store.log, ReceiptDraft(receipt, at))];
        }
    }
  }

  /** The last record of `log` is the one `op` decides on what is before it. */
  ghost predicate WrittenOn(op: Tasks.TaskOp, prefix: seq<Entry>, log: seq<Entry>) {
    Tasks.Decide(op, prefix).Write? && log == prefix + [NextEntry(prefix, Tasks.Decide(op, prefix).draft)]
  }

  /** One call of the task service: its retry loop, with a crash when `budget` appends are used up. */
  method PerformTask(store: Store, w: World, op: Tasks.TaskOp, c: nat, budget: nat)
    returns (r: Result<bool, ImportError>, left: nat)
    requires ValidChain(store.log) && Tasks.PlanOk(store.log) && IsOwn(w.snapshot, op)
    modifies store
    ensures Evolved(w, old(store.log), store.log)
    ensures r.Ok? ==> Holds(w.snapshot, op, store.log)
    ensures r == Ok(true) ==> exists prefix :: WrittenOn(op, prefix, store.log)
    ensures left <= budget && |store.log| >= |old(store.log)| + budget - left
    ensures r.Err? ==> (r.error == Crashed && left == 0) || r.error == Busy || r.error.Refused?
    ensures r == Err(Busy) ==> !Alone(w)
    ensures r.Err? && r.error.Refused? && Ours(w, old(store.log)) && EndpointsReady(op, old(store.log)) ==>
              op.CreateTask? && r.error.refusal == AlreadyExists && HasTask(w.snapshot, store.log, op.task.id)
  {
    hide Tasks.Decide, Ours, Evolved, IsOwn, Holds, Tasks.PlanOk, ValidChain, EndpointsReady, HasTask, Alone;
    left := budget;
    ghost var start := store.log;
    EvolvedSelf(w, store.log);
    var attempt := 0;
    while attempt < ATTEMPTS
      invariant Evolved(w, start, store.log) && ValidChain(store.log) && Tasks.PlanOk(store.log)
      invariant left == budget
      invariant Alone(w) ==> attempt == 0
    {
      ghost var before := store.log;
      PeersAct(store, w, c, 2 * attempt);
      EvolvedTransitive(w, start, before, store.log);
      EvolvedKeeps(w, start, store.log);
      var entries := store.Snapshot();
      var d := DecideNow(op, entries);
      if d.Refuse? {
        if Ours(w, start) && EndpointsReady(op, start) {
          RefusalExplained(w, start, entries, op);
        }
        return Err(Refused(d.error)), left;
      }
      if d.Existing? {
        ExistingHolds(w.snapshot, entries, op);
        return Ok(false), left;
      }
      PeersAct(store, w, c, 2 * attempt + 1);
      EvolvedTransitive(w, start, entries, store.log);
      EvolvedKeeps(w, start, store.log);
      if left == 0 {
        return Err(Crashed), left;
      }
      ghost var reached := store.log;
      assert Alone(w) ==> reached == entries by { AloneIsQuiet(w, c, 2 * attempt + 1); }
      EvolvedKeeps(w, entries, reached);
      var ok := store.RecordIfHead(d.draft, HeadDigest(entries));
      if ok {
        SameHeadSameLogLater(entries, reached);
        OwnStepEvolves(w, entries, op);
        EvolvedTransitive(w, start, entries, store.log);
        WriteHolds(w.snapshot, entries, op);
        EvolvedKeeps(w, start, entries);
        assert WrittenOn(op, entries, store.log);
        left := left - 1;
        return Ok(true), left;
      }
      attempt := attempt + 1;
    }
    EvolvedKeeps(w, start, store.log);
    return Err(Busy), left;
  }

  lemma EvolvedKeeps(w: World, a: seq<Entry>, b: seq<Entry>)
    requires Evolved(w, a, b)
    ensures ValidChain(b) && Tasks.PlanOk(b) && Grown(a, b) && a <= b && (Ours(w, a) ==> Ours(w, b))
  {
    hide Ours, Missing, ValidChain, Tasks.PlanOk, Tasks.LatestTasks, Tasks.Relations, TasksGrown, RelationsGrown;
  }

  lemma AloneIsQuiet(w: World, c: nat, n: nat)
    ensures Alone(w) ==> w.peers(c, n) == []
  {
  }

  lemma ExistingHolds(s: Snapshot, log: seq<Entry>, op: Tasks.TaskOp)
    requires Tasks.PlanOk(log) && IsOwn(s, op) && Tasks.Decide(op, log).Existing?
    ensures Holds(s, op, log)
  {
    hide Tasks.LatestTasks, Tasks.Relations, Reach, Acyclic, ValidHistory, IsIntended, NativeEdges, NativeConflicts;
  }

  lemma RefusalExplained(w: World, start: seq<Entry>, log: seq<Entry>, op: Tasks.TaskOp)
    requires Ours(w, log) && Grown(start, log) && EndpointsReady(op, start) && IsOwn(w.snapshot, op) && Tasks.Decide(op, log).Refuse?
    ensures op.CreateTask? && Tasks.Decide(op, log).error == AlreadyExists && HasTask(w.snapshot, log, op.task.id)
  {
    hide Tasks.LatestTasks, Tasks.Relations, Tasks.Decide, AcceptedPlan, Friendly, ReceiptOk, ValidHistory, ImportsPart, Within, IsIntended;
    PartNeverRefused(w.snapshot, log, op);
    WithinIntends(w.snapshot, log, op.task.id);
  }

  // ----- the import

  predicate PairLeq(a: (Id, Id), b: (Id, Id)) {
    LexLeq(a.0, b.0) && (a.0 == b.0 ==> LexLeq(a.1, b.1))
  }

  lemma PairLeqIsTotal()
    ensures TotalPreorder(PairLeq)
  {
    LexIsTotalPreorder();
    forall a, b
      ensures PairLeq(a, b) || PairLeq(b, a)
    {
      if a.0 != b.0 && LexLeq(a.0, b.0) && LexLeq(b.0, a.0) {
        LexAntisymmetric(a.0, b.0);
      }
    }
    forall a, b, c | PairLeq(a, b) && PairLeq(b, c)
      ensures PairLeq(a, c)
    {
      LexTransitive(a.0, b.0, c.0);
      if a.0 == c.0 {
        LexAntisymmetric(a.0, b.0);
        LexTransitive(a.1, b.1, c.1);
      }
    }
  }

  /** Each of `all` is listed once, as created or as existing. */
  ghost predicate Accounted<T>(created: seq<T>, existing: seq<T>, all: seq<T>) {
    multiset(created) + multiset(existing) == multiset(all)
  }

  lemma AccountsNext<T>(created: seq<T>, existing: seq<T>, all: seq<T>, i: nat)
    requires i < |all| && Accounted(created, existing, all[..i])
    ensures Accounted(created + [all[i]], existing, all[..i + 1])
    ensures Accounted(created, existing + [all[i]], all[..i + 1])
  {
    assert all[..i + 1] == all[..i] + [all[i]];
  }

  /** Creating one task: a task that another importer of the same plan made first will do. */
  method CreateOne(store: Store, w: World, at: Time, slug: Id, c: nat, budget: nat)
    returns (r: Result<bool, ImportError>, left: nat)
    requires ValidChain(store.log) && Tasks.PlanOk(store.log) && slug in Actionable(w.snapshot)
    modifies store
    ensures Evolved(w, old(store.log), store.log)
    ensures left <= budget && |store.log| >= |old(store.log)| + budget - left
    ensures r.Err? ==> Explained(w, old(store.log), r.error, left)
    ensures r.Ok? ==> HasTask(w.snapshot, store.log, slug)
  {
    hide Ours, Evolved, IsOwn, Tasks.PlanOk, ValidChain, EndpointsReady, HasTask, Alone, Actionable, Expected;
    ghost var start := store.log;
    ExpectedIsOwn(w.snapshot, slug, at);
    var op := Tasks.CreateTask(Expected(w.snapshot, slug, at));
    CreatingIsReady(start, op);
    r, left := PerformTask(store, w, op, c, budget);
    if r.Err? && (r.error.Refused? || r.error == Busy) {
      ghost var refused := store.log;
      EvolvedKeeps(w, start, refused);
      PeersAct(store, w, c, 2 * ATTEMPTS);
      Continues(w, start, refused, store.log);
      if HasTask(w.snapshot, store.log, slug) {
        r := Ok(false);
      }
    }
  }

  /** One part of the import after another. */
  lemma Continues(w: World, a: seq<Entry>, b: seq<Entry>, c: seq<Entry>)
    requires Evolved(w, a, b) && Evolved(w, b, c)
    ensures Evolved(w, a, c) && ValidChain(c) && Tasks.PlanOk(c) && b <= c && (Ours(w, a) ==> Ours(w, b))
    ensures forall slug :: HasTask(w.snapshot, b, slug) ==> HasTask(w.snapshot, c, slug)
    ensures forall op: Tasks.TaskOp :: Holds(w.snapshot, op, b) ==> Holds(w.snapshot, op, c)
    ensures Contains(w.snapshot, b) ==> Contains(w.snapshot, c)
  {
    hide Evolved, Grown, Ours, ValidChain, Tasks.PlanOk, HasTask, Holds, Contains;
    EvolvedTransitive(w, a, b, c);
    EvolvedKeeps(w, a, b);
    EvolvedKeeps(w, b, c);
    HadStays(w.snapshot, b, c);
    HeldStays(w.snapshot, b, c);
  }

  /** The creation loop. `current` is the snapshot the import compared its intents with. */
  method CreateTasks(store: Store, w: World, at: Time, current: Tasks.TaskMap, budget: nat)
    returns (r: Result<(seq<Id>, seq<Id>), ImportError>, left: nat, ghost order: seq<Id>)
    requires ValidChain(store.log) && Tasks.PlanOk(store.log)
    requires forall slug :: slug in Actionable(w.snapshot) && slug in current ==> HasTask(w.snapshot, store.log, slug)
    modifies store
    ensures Evolved(w, old(store.log), store.log)
    ensures left <= budget && |store.log| >= |old(store.log)| + budget - left
    ensures r.Err? ==> Explained(w, old(store.log), r.error, left)
    ensures r.Ok? ==> (forall slug :: slug in Actionable(w.snapshot) ==> HasTask(w.snapshot, store.log, slug))
    ensures forall slug :: slug in order <==> slug in Actionable(w.snapshot)
    ensures r.Ok? ==> Accounted(r.value.0, r.value.1, order)
  {
    hide Ours, Evolved, IsOwn, Tasks.PlanOk, ValidChain, EndpointsReady, HasTask, Alone, Actionable, Expected;
    left := budget;
    ghost var start := store.log;
    EvolvedSelf(w, store.log);
    var slugs := Sorted(Actionable(w.snapshot));
    order := slugs;
    var created, existing := [], [];
    var i := 0;
    while i < |slugs|
      invariant 0 <= i <= |slugs|
      invariant Evolved(w, start, store.log) && ValidChain(store.log) && Tasks.PlanOk(store.log)
      invariant left <= budget && |store.log| >= |start| + budget - left
      invariant forall slug :: slug in current && slug in slugs ==> HasTask(w.snapshot, store.log, slug)
      invariant forall k :: 0 <= k < i ==> HasTask(w.snapshot, store.log, slugs[k])
      invariant Accounted(created, existing, slugs[..i])
    {
      AccountsNext(created, existing, slugs, i);
      var slug := slugs[i];
      if slug in current {
        existing := existing + [slug];
      } else {
        ghost var before := store.log;
        var made: Result<bool, ImportError>;
        made, left := CreateOne(store, w, at, slug, i + 1, left);
        Continues(w, start, before, store.log);
        if made.Err? {
          return Err(made.error), left, order;
        }
        if made.value {
          created := created + [slug];
        } else {
          existing := existing + [slug];
        }
      }
      i := i + 1;
    }
    assert slugs[..i] == slugs;
    return Ok((created, existing)), left, order;
  }

  /** Why a part of the import may stop: it crashed, others kept it busy, or the ledger holds something else. */
  ghost predicate Explained(w: World, start: seq<Entry>, e: ImportError, left: nat) {
    || (e == Crashed && left == 0)
    || (e == Busy && !Alone(w))
    || (e != Crashed && e != Busy && !Ours(w, start))
  }

  lemma ExpectedIsOwn(s: Snapshot, slug: Id, at: Time)
    requires slug in Actionable(s)
    ensures Expected(s, slug, at).id == slug && IsOwn(s, Tasks.CreateTask(Expected(s, slug, at)))
  {
    hide Actionable;
  }

  lemma CreatingIsReady(log: seq<Entry>, op: Tasks.TaskOp)
    requires Tasks.PlanOk(log) && op.CreateTask?
    ensures EndpointsReady(op, log)
  {
    hide Tasks.LatestTasks, Tasks.Relations, Acyclic;
  }

  /** The two relation loops; `operation` builds the call for a pair. */
  method AddRelations(store: Store, w: World, all: seq<(Id, Id)>, known: set<(Id, Id)>, operation: ((Id, Id)) -> Tasks.TaskOp,
                      c: nat, budget: nat)
    returns (r: Result<(seq<(Id, Id)>, seq<(Id, Id)>), ImportError>, left: nat)
    requires ValidChain(store.log) && Tasks.PlanOk(store.log)
    requires forall slug :: slug in Actionable(w.snapshot) ==> HasTask(w.snapshot, store.log, slug)
    requires forall e :: e in all ==> JoinsTasks(w, operation, e)
    requires forall e :: e in all && e in known ==> Holds(w.snapshot, operation(e), store.log)
    modifies store
    ensures Evolved(w, old(store.log), store.log)
    ensures left <= budget && |store.log| >= |old(store.log)| + budget - left
    ensures r.Err? ==> Explained(w, old(store.log), r.error, left)
    ensures r.Ok? ==> (forall e :: e in all ==> Holds(w.snapshot, operation(e), store.log))
    ensures r.Ok? ==> Accounted(r.value.0, r.value.1, all)
  {
    hide Ours, Evolved, IsOwn, Tasks.PlanOk, ValidChain, EndpointsReady, HasTask, Alone, Actionable, Expected, Holds, JoinsTasks;
    left := budget;
    ghost var start := store.log;
    EvolvedSelf(w, store.log);
    var created, existing := [], [];
    var i := 0;
    while i < |all|
      invariant 0 <= i <= |all|
      invariant Evolved(w, start, store.log) && ValidChain(store.log) && Tasks.PlanOk(store.log)
      invariant left <= budget && |store.log| >= |start| + budget - left
      invariant forall e :: e in all && e in known ==> Holds(w.snapshot, operation(e), store.log)
      invariant forall k :: 0 <= k < i ==> Holds(w.snapshot, operation(all[k]), store.log)
      invariant Accounted(created, existing, all[..i])
    {
      AccountsNext(created, existing, all, i);
      if all[i] in known {
        existing := existing + [all[i]];
      } else {
        var op := operation(all[i]);
        ghost var before := store.log;
        EvolvedKeeps(w, start, before);
        HadStays(w.snapshot, start, before);
        RelationIsReady(w, operation, all[i], before);
        var made: Result<bool, ImportError>;
        made, left := PerformTask(store, w, op, c + i, left);
        EvolvedTransitive(w, start, before, store.log);
        EvolvedKeeps(w, before, store.log);
        HeldStays(w.snapshot, before, store.log);
        if made.Err? {
          return Err(made.error), left;
        }
        if made.value {
          created := created + [all[i]];
        } else {
          existing := existing + [all[i]];
        }
      }
      i := i + 1;
    }
    assert all[..i] == all;
    return Ok((created, existing)), left;
  }

  /** The call for `e` is the importer's own, and joins tasks the plan creates. */
  ghost predicate JoinsTasks(w: World, operation: ((Id, Id)) -> Tasks.TaskOp, e: (Id, Id)) {
    var op := operation(e);
    && IsOwn(w.snapshot, op) && !op.CreateTask?
    && (op.AddDependency? ==> op.taskId in Actionable(w.snapshot) && op.dependsOn in Actionable(w.snapshot))
    && (op.AddConflict? ==> op.left in Actionable(w.snapshot) && op.right in Actionable(w.snapshot))
  }

  lemma RelationIsReady(w: World, operation: ((Id, Id)) -> Tasks.TaskOp, e: (Id, Id), log: seq<Entry>)
    requires JoinsTasks(w, operation, e) && Tasks.PlanOk(log)
    requires forall slug :: slug in Actionable(w.snapshot) ==> HasTask(w.snapshot, log, slug)
    ensures IsOwn(w.snapshot, operation(e)) && EndpointsReady(operation(e), log) && !operation(e).CreateTask?
  {
    hide IsOwn, Actionable, Tasks.LatestTasks, Tasks.Relations, IsIntended, Acyclic;
  }

  lemma HeldStays(s: Snapshot, a: seq<Entry>, b: seq<Entry>)
    requires Grown(a, b)
    ensures forall op: Tasks.TaskOp :: Holds(s, op, a) ==> Holds(s, op, b)
  {
    hide Grown, HasTask, HasEdge, HasConflict;
    HadStays(s, a, b);
  }

  function ReceiptFrom(w: World, result: ImportResult): ImportReceipt {
    ImportReceipt(w.source, w.snapshot.digest, SortBy(LexLeq, result.createdTasks + result.existingTasks),
                  result.skipped, result.satisfied)
  }

  /** `_repeated_result` */
  function Repeated(r: ImportReceipt): ImportResult {
    ImportResult(false, [], r.nativeIds, [], [], [], [], r.skipped, r.satisfied)
  }

  /** What a stored receipt answers without anything being appended. */
  function FromReceipt(w: World, p: Payload): Result<ImportResult, ImportError> {
    if !p.ReceiptPayload? || p.receipt.source != w.source then Err(MalformedReceipt)
    else if p.receipt.digest != w.snapshot.digest then Err(Drift)
    else Ok(Repeated(p.receipt))
  }

  ghost predicate IsReceipted(w: World, log: seq<Entry>) {
    Receipt(log, w.source).Some? && IsReceiptOf(Receipt(log, w.source).value, w.source, w.snapshot.digest)
  }

  /** `_record_receipt` */
  method RecordReceipt(store: Store, w: World, result: ImportResult, at: Time, c: nat, budget: nat)
    returns (r: Result<ImportResult, ImportError>, left: nat)
    requires ValidChain(store.log) && Tasks.PlanOk(store.log) && Contains(w.snapshot, store.log) && result.imported
    modifies store
    ensures Evolved(w, old(store.log), store.log)
    ensures left <= budget && |store.log| >= |old(store.log)| + budget - left
    ensures r.Err? ==> Explained(w, old(store.log), r.error, left)
    ensures r.Ok? ==> IsReceipted(w, store.log) && Contains(w.snapshot, store.log)
    ensures r.Ok? && r.value.imported ==>
              r.value == result && Receipt(store.log, w.source) == Some(ReceiptPayload(ReceiptFrom(w, result)))
  {
    hide Ours, Evolved, Tasks.PlanOk, ValidChain, Alone, Receipt, Contains, Explained;
    left := budget;
    ghost var start := store.log;
    EvolvedSelf(w, store.log);
    var attempt := 0;
    while attempt < ATTEMPTS
      invariant Evolved(w, start, store.log) && ValidChain(store.log) && Tasks.PlanOk(store.log) && Contains(w.snapshot, store.log)
      invariant left == budget
      invariant Alone(w) ==> attempt == 0
    {
      ghost var before := store.log;
      PeersAct(store, w, c, 2 * attempt);
      Continues(w, start, before, store.log);
      var entries := store.Snapshot();
      var previous := Receipt(entries, w.source);
      if previous.Some? {
        r := FromReceipt(w, previous.value);
        EvolvedKeeps(w, start, entries);
        ReceiptExplained(w, start, entries, left);
        return;
      }
      PeersAct(store, w, c, 2 * attempt + 1);
      Continues(w, start, entries, store.log);
      if left == 0 {
        r := Err(Crashed);
        EvolvedKeeps(w, start, store.log);
        CrashExplained(w, start);
        return;
      }
      ghost var reached := store.log;
      assert Alone(w) ==> reached == entries by { AloneIsQuiet(w, c, 2 * attempt + 1); }
      var ok := store.RecordIfHead(ReceiptDraft(ReceiptFrom(w, result), at), HeadDigest(entries));
      if ok {
        EvolvedKeeps(w, entries, reached);
        EvolvedKeeps(w, start, entries);
        SameHeadSameLogLater(entries, reached);
        OwnReceiptEvolves(w, entries, ReceiptFrom(w, result), at);
        Continues(w, start, entries, store.log);
        left := left - 1;
        r := Ok(result);
        return;
      }
      attempt := attempt + 1;
    }
    r := Err(Busy);
    EvolvedKeeps(w, start, store.log);
    BusyExplained(w, start, left);
  }

  lemma CrashExplained(w: World, start: seq<Entry>)
    ensures Explained(w, start, Crashed, 0)
  {
  }

  lemma BusyExplained(w: World, start: seq<Entry>, left: nat)
    requires !Alone(w)
    ensures Explained(w, start, Busy, left)
  {
  }

  lemma ReceiptExplained(w: World, start: seq<Entry>, log: seq<Entry>, left: nat)
    requires Receipt(log, w.source).Some? && (Ours(w, start) ==> Ours(w, log))
    ensures var r := FromReceipt(w, Receipt(log, w.source).value);
            && (r.Err? ==> Explained(w, start, r.error, left))
            && (r.Ok? ==> IsReceipted(w, log) && !r.value.imported)
  {
    hide Within, AcceptedPlan, Friendly, Contains, Receipt;
  }

  lemma OwnReceiptEvolves(w: World, log: seq<Entry>, receipt: ImportReceipt, at: Time)
    requires ValidChain(log) && Tasks.PlanOk(log) && Contains(w.snapshot, log) && Receipt(log, w.source).None?
    requires receipt.source == w.source && receipt.digest == w.snapshot.digest
    ensures var next := log + [NextEntry(log, ReceiptDraft(receipt, at))];
            && Evolved(w, log, next) && IsReceipted(w, next) && Receipt(next, w.source) == Some(ReceiptPayload(receipt))
  {
    hide Ours, Grown, Tasks.PlanOk, ValidChain, Receipt, Missing, Contains;
    ReceiptStepEvolves(w, log, receipt, at);
    ReceiptAfter(log, NextEntry(log, ReceiptDraft(receipt, at)), w.source);
  }

  /** The facts the import reads before it appends anything. */
  datatype Known = Known(tasks: Tasks.TaskMap, dependencies: Edges, conflicts: Edges)

  ghost predicate StillKnown(s: Snapshot, k: Known, log: seq<Entry>) {
    && (forall slug :: slug in Actionable(s) && slug in k.tasks ==> HasTask(s, log, slug))
    && (forall e :: e in k.dependencies ==> HasEdge(log, e))
    && (forall e :: e in k.conflicts && e in NativeConflicts(s) ==> HasConflict(log, e))
  }

  /** Tasks of the plan that exist with another intent. */
  predicate Mismatched(s: Snapshot, tasks: Tasks.TaskMap, at: Time) {
    exists slug :: slug in Actionable(s) && slug in tasks && !SameIntent(tasks[slug], Expected(s, slug, at))
  }

  /** Conflicts of the plan that exist for another reason. */
  predicate Misreasoned(s: Snapshot, conflicts: Tasks.RelationMap) {
    exists e :: e in NativeConflicts(s) && Pair(e.0, e.1) in conflicts && !IsReviewedConflict(conflicts[Pair(e.0, e.1)])
  }

  lemma MatchedIsIntended(s: Snapshot, log: seq<Entry>, at: Time)
    requires Tasks.LatestTasks(log).Some?
    ensures !Mismatched(s, Tasks.LatestTasks(log).value, at) ==>
              forall slug :: slug in Actionable(s) && slug in Tasks.LatestTasks(log).value ==> HasTask(s, log, slug)
    ensures Mismatched(s, Tasks.LatestTasks(log).value, at) ==> !Within(s, log)
  {
    hide Tasks.LatestTasks, Tasks.PlanOk, NativeEdges, NativeConflicts, Tasks.Relations, Actionable;
    var tasks := Tasks.LatestTasks(log).value;
    forall slug | slug in Actionable(s)
      ensures forall t: Task :: SameIntent(t, Expected(s, slug, at)) <==> IsIntended(s, slug, t)
    {
    }
  }

  lemma ReasonedIsReviewed(s: Snapshot, log: seq<Entry>)
    requires Tasks.Conflicts(log).Some?
    ensures !Misreasoned(s, Tasks.Conflicts(log).value) ==>
              forall e :: e in Tasks.PairsOf(Tasks.Conflicts(log).value) && e in NativeConflicts(s) ==> HasConflict(log, e)
    ensures Misreasoned(s, Tasks.Conflicts(log).value) ==> !Within(s, log)
  {
    hide Tasks.LatestTasks, Tasks.PlanOk, NativeEdges, NativeConflicts, Tasks.Relations, Actionable, IsReviewedConflict;
  }

  lemma MismatchedIff(s: Snapshot, tasks: Tasks.TaskMap, at: Time)
    ensures Mismatched(s, tasks, at) <==> HasDifferentTask(s, tasks)
  {
    hide Actionable, IsTaken, Stores, SameIntent, Expected;
    if Mismatched(s, tasks, at) {
      var slug :| slug in Actionable(s) && slug in tasks && !SameIntent(tasks[slug], Expected(s, slug, at));
      var i := ActionableIsTaken(s, slug);
      IntendedIff(s, i, tasks[slug], at);
      HasDifferent(s, tasks, i);
    }
    if HasDifferentTask(s, tasks) {
      var i := DifferentTask(s, tasks);
      IntendedIff(s, i, tasks[s.tasks[i].slug], at);
    }
  }

  lemma ActionableIsTaken(s: Snapshot, slug: Id) returns (i: nat)
    requires slug in Actionable(s)
    ensures IsTaken(s, i) && i < |s.tasks| && s.tasks[i].slug == slug
  {
    i := TakenIs(s.tasks, slug);
  }

  lemma MisreasonedIff(s: Snapshot, conflicts: Tasks.RelationMap)
    ensures Misreasoned(s, conflicts) <==> HasDifferentReason(s, conflicts)
  {
    hide NativeConflicts, IsConflict, HasReason, IsReviewedConflict;
    if Misreasoned(s, conflicts) {
      var e :| e in NativeConflicts(s) && Pair(e.0, e.1) in conflicts && !IsReviewedConflict(conflicts[Pair(e.0, e.1)]);
      NativeIsConflict(s, Pair(e.0, e.1));
      ReviewedHasReason(conflicts[Pair(e.0, e.1)]);
    }
    if k :| k in conflicts && k.Pair? && IsConflict(s, k) && !HasReason(conflicts[k]) {
      NativeIsConflict(s, k);
      ReviewedHasReason(conflicts[k]);
      var e := (k.first, k.second);
      assert Pair(e.0, e.1) == k;
    }
  }

  lemma EdgesAreThere(log: seq<Entry>)
    requires Tasks.Dependencies(log).Some?
    ensures forall e :: e in Tasks.PairsOf(Tasks.Dependencies(log).value) ==> HasEdge(log, e)
  {
    hide Tasks.Relations;
  }

  /** The reads and checks of `import_snapshot`. */
  method Survey(store: Store, w: World, at: Time) returns (r: Result<Known, ImportError>)
    requires ValidChain(store.log) && Tasks.PlanOk(store.log)
    modifies store
    ensures Evolved(w, old(store.log), store.log)
    ensures Alone(w) ==> store.log == old(store.log)
    ensures r.Err? ==> Explained(w, old(store.log), r.error, 0) && r.error != Crashed && r.error != Busy
    ensures r.Ok? ==> StillKnown(w.snapshot, r.value, store.log)
    ensures Decodes(old(store.log)) && Decodes(store.log)
    ensures HasDifferentTask(w.snapshot, Tasks.LatestTasks(old(store.log)).value) ==> r == Err(DifferentIntent)
    ensures r == Err(DifferentIntent) ==> HasDifferentTask(w.snapshot, Tasks.LatestTasks(store.log).value)
    ensures HasDifferentReason(w.snapshot, Tasks.Conflicts(old(store.log)).value) ==> r.Err?
    ensures r.Err? && r.error != DifferentIntent ==>
              r.error == ReasonsDiffer && HasDifferentReason(w.snapshot, Tasks.Conflicts(store.log).value)
  {
    hide Ours, Evolved, Tasks.PlanOk, ValidChain, Contains, HasTask, HasEdge, HasConflict, Mismatched, Misreasoned;
    hide Actionable, NativeConflicts, Holds, Alone, HasDifferentTask, HasDifferentReason;
    ghost var start := store.log;
    PeersAct(store, w, 0, 0);
    ghost var first := store.log;
    EvolvedKeeps(w, start, first);
    PlanDecodes(first);
    OursIsWithin(w, first);
    var tasks := Tasks.CollectTasks(store.log);
    MatchedIsIntended(w.snapshot, first, at);
    MismatchedIff(w.snapshot, tasks.value, at);
    DifferencesStay(w, start, first);
    if Mismatched(w.snapshot, tasks.value, at) {
      AloneIsQuiet(w, 0, 0);
      return Err(DifferentIntent);
    }
    PeersAct(store, w, 0, 1);
    Continues(w, start, first, store.log);
    ghost var second := store.log;
    PlanDecodes(second);
    EdgesAreThere(second);
    var dependencies := Tasks.CollectRelations(store.log, DependencyKind, Tasks.DependencyIdentity);
    PeersAct(store, w, 0, 2);
    Continues(w, start, second, store.log);
    HadStays(w.snapshot, second, store.log) by { EvolvedKeeps(w, second, store.log); }
    PlanDecodes(store.log);
    EvolvedKeeps(w, start, store.log);
    OursIsWithin(w, store.log);
    var conflicts := Tasks.CollectRelations(store.log, ConflictKind, Tasks.ConflictIdentity);
    ReasonedIsReviewed(w.snapshot, store.log);
    MisreasonedIff(w.snapshot, conflicts.value);
    DifferencesStay(w, start, store.log);
    AloneIsQuiet(w, 0, 0);
    AloneIsQuiet(w, 0, 1);
    AloneIsQuiet(w, 0, 2);
    if Misreasoned(w.snapshot, conflicts.value) {
      return Err(ReasonsDiffer);
    }
    return Ok(Known(tasks.value, Tasks.PairsOf(dependencies.value), Tasks.PairsOf(conflicts.value)));
  }

  ghost predicate Decodes(log: seq<Entry>) {
    Tasks.LatestTasks(log).Some? && Tasks.Conflicts(log).Some?
  }

  /** Nothing an import or its peers write makes a difference go away. */
  lemma DifferencesStay(w: World, a: seq<Entry>, b: seq<Entry>)
    requires Evolved(w, a, b)
    ensures Decodes(a) && Decodes(b)
    ensures HasDifferentTask(w.snapshot, Tasks.LatestTasks(a).value) ==> HasDifferentTask(w.snapshot, Tasks.LatestTasks(b).value)
    ensures HasDifferentReason(w.snapshot, Tasks.Conflicts(a).value) ==> HasDifferentReason(w.snapshot, Tasks.Conflicts(b).value)
  {
    hide HasDifferentTask, HasDifferentReason, Ours, Alone, Missing, Tasks.PlanOk, Tasks.LatestTasks, Tasks.Relations;
    if HasDifferentTask(w.snapshot, Tasks.LatestTasks(a).value) {
      DifferentTaskStays(w.snapshot, a, b);
    }
    if HasDifferentReason(w.snapshot, Tasks.Conflicts(a).value) {
      DifferentReasonStays(w.snapshot, a, b);
    }
  }

  lemma PlanDecodes(log: seq<Entry>)
    requires Tasks.PlanOk(log)
    ensures Tasks.LatestTasks(log).Some? && Tasks.Dependencies(log).Some? && Tasks.Conflicts(log).Some?
  {
    hide Tasks.LatestTasks, Tasks.Relations, Acyclic;
  }

  lemma OursIsWithin(w: World, log: seq<Entry>)
    ensures Ours(w, log) ==> Within(w.snapshot, log)
  {
    hide Within, AcceptedPlan, ReceiptOk;
  }

  function DependencyCall(at: Time): ((Id, Id)) -> Tasks.TaskOp {
    (e: (Id, Id)) => Tasks.AddDependency(e.0, e.1, at)
  }

  function ConflictCall(at: Time): ((Id, Id)) -> Tasks.TaskOp {
    (e: (Id, Id)) => Tasks.AddConflict(e.0, e.1, CONFLICT_REASON, at)
  }

  lemma DependenciesJoin(w: World, at: Time, e: (Id, Id))
    requires e in NativeEdges(w.snapshot)
    ensures JoinsTasks(w, DependencyCall(at), e)
  {
    hide Actionable;
  }

  lemma ConflictsJoin(w: World, at: Time, e: (Id, Id))
    requires e in NativeConflicts(w.snapshot)
    ensures JoinsTasks(w, ConflictCall(at), e) && Tasks.Between(e.0, e.1) == e
  {
    hide Actionable;
    var i, c :| 0 <= i < |w.snapshot.tasks| && c in w.snapshot.tasks[i].conflicts && w.snapshot.tasks[i].slug in Actionable(w.snapshot)
                && c in Actionable(w.snapshot) && e == Tasks.Between(w.snapshot.tasks[i].slug, c);
    LexTotal(w.snapshot.tasks[i].slug, c);
    if w.snapshot.tasks[i].slug != c && LexLeq(w.snapshot.tasks[i].slug, c) && LexLeq(c, w.snapshot.tasks[i].slug) {
      LexAntisymmetric(w.snapshot.tasks[i].slug, c);
    }
  }

  /** The relations of the plan, in sorted order. */
  method AddPlanDependencies(store: Store, w: World, at: Time, known: Known, c: nat, budget: nat)
    returns (r: Result<(seq<(Id, Id)>, seq<(Id, Id)>), ImportError>, left: nat)
    requires ValidChain(store.log) && Tasks.PlanOk(store.log) && StillKnown(w.snapshot, known, store.log)
    requires forall slug :: slug in Actionable(w.snapshot) ==> HasTask(w.snapshot, store.log, slug)
    modifies store
    ensures Evolved(w, old(store.log), store.log)
    ensures left <= budget && |store.log| >= |old(store.log)| + budget - left
    ensures r.Err? ==> Explained(w, old(store.log), r.error, left)
    ensures r.Ok? ==> forall e :: e in NativeEdges(w.snapshot) ==> HasEdge(store.log, e)
    ensures r.Ok? ==> forall e :: e in r.value.0 + r.value.1 <==> e in NativeEdges(w.snapshot)
  {
    hide Ours, Evolved, Tasks.PlanOk, ValidChain, HasTask, HasEdge, HasConflict, JoinsTasks, NativeEdges, NativeConflicts, Actionable;
    hide Explained, Tasks.Between;
    PairLeqIsTotal();
    var all := SortedBy(PairLeq, NativeEdges(w.snapshot));
    forall e | e in all
      ensures JoinsTasks(w, DependencyCall(at), e)
    {
      DependenciesJoin(w, at, e);
    }
    r, left := AddRelations(store, w, all, known.dependencies, DependencyCall(at), c, budget);
    if r.Ok? {
      forall e | e in NativeEdges(w.snapshot)
        ensures HasEdge(store.log, e)
      {
        assert e in all;
        assert Holds(w.snapshot, DependencyCall(at)(e), store.log);
      }
      AccountedContents(r.value.0, r.value.1, all);
    }
  }

  lemma AccountedContents<T>(created: seq<T>, existing: seq<T>, all: seq<T>)
    requires Accounted(created, existing, all)
    ensures forall x :: x in created + existing <==> x in all
  {
    forall x
      ensures x in created + existing <==> x in all
    {
      assert multiset(created + existing) == multiset(created) + multiset(existing);
      InPermutation(created + existing, all, x);
    }
  }

  method AddPlanConflicts(store: Store, w: World, at: Time, known: Known, c: nat, budget: nat)
    returns (r: Result<(seq<(Id, Id)>, seq<(Id, Id)>), ImportError>, left: nat)
    requires ValidChain(store.log) && Tasks.PlanOk(store.log) && StillKnown(w.snapshot, known, store.log)
    requires forall slug :: slug in Actionable(w.snapshot) ==> HasTask(w.snapshot, store.log, slug)
    modifies store
    ensures Evolved(w, old(store.log), store.log)
    ensures left <= budget && |store.log| >= |old(store.log)| + budget - left
    ensures r.Err? ==> Explained(w, old(store.log), r.error, left)
    ensures r.Ok? ==> forall e :: e in NativeConflicts(w.snapshot) ==> HasConflict(store.log, e)
    ensures r.Ok? ==> forall e :: e in r.value.0 + r.value.1 <==> e in NativeConflicts(w.snapshot)
  {
    hide Ours, Evolved, Tasks.PlanOk, ValidChain, HasTask, HasEdge, HasConflict, JoinsTasks, NativeEdges, NativeConflicts, Actionable;
    hide Explained, Tasks.Between;
    PairLeqIsTotal();
    var all := SortedBy(PairLeq, NativeConflicts(w.snapshot));
    forall e | e in all
      ensures JoinsTasks(w, ConflictCall(at), e) && Tasks.Between(e.0, e.1) == e
    {
      ConflictsJoin(w, at, e);
    }
    r, left := AddRelations(store, w, all, known.conflicts, ConflictCall(at), c, budget);
    if r.Ok? {
      forall e | e in NativeConflicts(w.snapshot)
        ensures HasConflict(store.log, e)
      {
        assert e in all;
        assert Holds(w.snapshot, ConflictCall(at)(e), store.log);
      }
      AccountedContents(r.value.0, r.value.1, all);
    }
  }

  /** What a finished import reports: every task and relation of the plan, and nothing else. */
  ghost predicate Reports(s: Snapshot, r: ImportResult) {
    && r.imported
    && (forall x :: x in r.createdTasks + r.existingTasks <==> IsOpen(s, x))
    && (forall e :: e in r.createdDependencies + r.existingDependencies <==> IsDependency(s, Pair(e.0, e.1)))
    && (forall e :: e in r.createdConflicts + r.existingConflicts <==> IsConflict(s, Pair(e.0, e.1)))
    && (forall x :: x in r.skipped <==> exists i :: 0 <= i < |s.tasks| && s.tasks[i].status == "done" && s.tasks[i].slug == x)
    && (forall e :: e in r.satisfied <==> IsSatisfied(s, e))
  }

  lemma ReportsFrom(s: Snapshot, r: ImportResult)
    requires r.imported
    requires forall x :: x in r.createdTasks + r.existingTasks <==> x in Actionable(s)
    requires forall e :: e in r.createdDependencies + r.existingDependencies <==> e in NativeEdges(s)
    requires forall e :: e in r.createdConflicts + r.existingConflicts <==> e in NativeConflicts(s)
    requires forall x :: x in r.skipped <==> exists i :: 0 <= i < |s.tasks| && s.tasks[i].status == "done" && s.tasks[i].slug == x
    requires forall e :: e in r.satisfied <==> e in SatisfiedEdges(s)
    ensures Reports(s, r)
  {
    hide Actionable, NativeEdges, NativeConflicts, SatisfiedEdges, IsOpen, IsDependency, IsConflict, IsSatisfied;
    forall x
      ensures x in Actionable(s) <==> IsOpen(s, x)
    {
      OpenIsActionable(s, x);
    }
    forall e: (Id, Id)
      ensures e in NativeEdges(s) <==> IsDependency(s, Pair(e.0, e.1))
      ensures e in NativeConflicts(s) <==> IsConflict(s, Pair(e.0, e.1))
      ensures e in SatisfiedEdges(s) <==> IsSatisfied(s, e)
    {
      NativeIsDependency(s, Pair(e.0, e.1));
      NativeIsConflict(s, Pair(e.0, e.1));
      SatisfiedIs(s, e);
    }
  }

  function DoneSlugs(s: Snapshot): set<Id> {
    set i | 0 <= i < |s.tasks| && s.tasks[i].status == "done" :: s.tasks[i].slug
  }

  lemma ExplainedFrom(w: World, start: seq<Entry>, log: seq<Entry>, e: ImportError, left: nat)
    requires Evolved(w, start, log) && Explained(w, log, e, left)
    ensures Explained(w, start, e, left)
  {
    hide Ours, Alone, Missing, ValidChain, Tasks.PlanOk, Grown;
  }

  lemma KnownStays(w: World, k: Known, a: seq<Entry>, b: seq<Entry>)
    requires Evolved(w, a, b) && StillKnown(w.snapshot, k, a)
    ensures StillKnown(w.snapshot, k, b)
  {
    hide Evolved, Grown, HasTask, HasEdge, HasConflict, Actionable, NativeConflicts;
    EvolvedKeeps(w, a, b);
    HadStays(w.snapshot, a, b);
  }

  /** The tasks, then their dependencies, then their conflicts. */
  method ImportParts(store: Store, w: World, at: Time, known: Known, budget: nat)
    returns (r: Result<ImportResult, ImportError>, left: nat)
    requires ValidChain(store.log) && Tasks.PlanOk(store.log) && StillKnown(w.snapshot, known, store.log)
    modifies store
    ensures Evolved(w, old(store.log), store.log)
    ensures left <= budget && |store.log| >= |old(store.log)| + budget - left
    ensures r.Err? ==> Explained(w, old(store.log), r.error, left)
    ensures r.Ok? ==> Contains(w.snapshot, store.log) && Reports(w.snapshot, r.value) && r.value.imported
  {
    hide Ours, Evolved, Tasks.PlanOk, ValidChain, HasTask, HasEdge, HasConflict, NativeEdges, NativeConflicts, Actionable;
    hide Explained, SatisfiedEdges, StillKnown, DoneSlugs, Holds, Reports;
    ghost var start := store.log;
    var tasks, dependencies, conflicts;
    ghost var order;
    tasks, left, order := CreateTasks(store, w, at, known.tasks, budget) by { KnownTasks(w.snapshot, known, start); }
    if tasks.Err? {
      return Err(tasks.error), left;
    }
    AccountedContents(tasks.value.0, tasks.value.1, order);
    ghost var first := store.log;
    KnownStays(w, known, start, first);
    EvolvedKeeps(w, start, first);
    dependencies, left := AddPlanDependencies(store, w, at, known, |w.snapshot.tasks| + 1, left);
    ghost var second := store.log;
    Continues(w, start, first, second);
    if dependencies.Err? {
      ExplainedFrom(w, start, first, dependencies.error, left);
      return Err(dependencies.error), left;
    }
    KnownStays(w, known, first, second);
    conflicts, left := AddPlanConflicts(store, w, at, known, |w.snapshot.tasks| + |NativeEdges(w.snapshot)| + 1, left);
    Continues(w, start, second, store.log);
    if conflicts.Err? {
      ExplainedFrom(w, start, second, conflicts.error, left);
      return Err(conflicts.error), left;
    }
    EvolvedKeeps(w, second, store.log);
    HadStays(w.snapshot, second, store.log);
    var skipped := Sorted(DoneSlugs(w.snapshot));
    PairLeqIsTotal();
    var satisfied := SortedBy(PairLeq, SatisfiedEdges(w.snapshot));
    r := Ok(ImportResult(true, tasks.value.0, tasks.value.1, dependencies.value.0, dependencies.value.1,
                         conflicts.value.0, conflicts.value.1, skipped, satisfied));
    SkippedAreDone(w.snapshot);
    ReportsFrom(w.snapshot, r.value);
  }

  lemma KnownTasks(s: Snapshot, k: Known, log: seq<Entry>)
    requires StillKnown(s, k, log)
    ensures forall slug :: slug in Actionable(s) && slug in k.tasks ==> HasTask(s, log, slug)
  {
    hide Actionable, HasTask, NativeConflicts;
  }

  lemma SkippedAreDone(s: Snapshot)
    ensures forall x :: x in DoneSlugs(s) <==> exists i :: 0 <= i < |s.tasks| && s.tasks[i].status == "done" && s.tasks[i].slug == x
  {
  }

  /** `import_snapshot`; `budget` is the number of its appends before it crashes. */
  method ImportSnapshot(store: Store, w: World, at: Time, budget: nat) returns (r: Result<ImportResult, ImportError>, left: nat)
    requires ValidChain(store.log) && Tasks.PlanOk(store.log)
    modifies store
    ensures Evolved(w, old(store.log), store.log)
    ensures left <= budget && |store.log| >= |old(store.log)| + budget - left
    ensures Receipt(old(store.log), w.source).Some? ==>
              store.log == old(store.log) && left == budget && r == FromReceipt(w, Receipt(old(store.log), w.source).value)
    ensures r.Err? ==> Explained(w, old(store.log), r.error, left)
    ensures Decodes(old(store.log))
    ensures Receipt(old(store.log), w.source).None? && HasDifferentTask(w.snapshot, Tasks.LatestTasks(old(store.log)).value) ==>
              r == Err(DifferentIntent) && left == budget
    ensures Receipt(old(store.log), w.source).None? && HasDifferentReason(w.snapshot, Tasks.Conflicts(old(store.log)).value) ==>
              r.Err? && left == budget
    ensures r.Ok? ==> IsReceipted(w, store.log)
    ensures r.Ok? && (r.value.imported || Ours(w, old(store.log))) ==> Contains(w.snapshot, store.log) && StoresPlan(w.snapshot, store.log)
    ensures r.Ok? && r.value.imported ==>
              Reports(w.snapshot, r.value) && Receipt(store.log, w.source) == Some(ReceiptPayload(ReceiptFrom(w, r.value)))
  {
    hide Ours, Evolved, Tasks.PlanOk, ValidChain, Contains, HasTask, HasEdge, HasConflict, NativeEdges, NativeConflicts, Actionable;
    hide Receipt, Explained, SatisfiedEdges, StoresPlan, Reports, HasDifferentTask, HasDifferentReason;
    left := budget;
    ghost var start := store.log;
    EvolvedSelf(w, start);
    PlanDecodes(start);
    var previous := Receipt(store.log, w.source);
    if previous.Some? {
      r := FromReceipt(w, previous.value);
      ReceiptExplained(w, start, start, left);
      if Ours(w, start) {
        OursReceipted(w, start);
        ContainedIsStored(w.snapshot, start);
      }
      return;
    }
    var known := Survey(store, w, at);
    if known.Err? {
      SurveyExplained(w, start, known.error, left);
      EvolvedKeeps(w, start, store.log);
      return Err(known.error), left;
    }
    ghost var surveyed := store.log;
    EvolvedKeeps(w, start, surveyed);
    r, left := ImportParts(store, w, at, known.value, budget);
    ghost var held := store.log;
    Continues(w, start, surveyed, held);
    if r.Err? {
      ExplainedFrom(w, start, surveyed, r.error, left);
      return;
    }
    r, left := RecordReceipt(store, w, r.value, at,
                             |w.snapshot.tasks| + |NativeEdges(w.snapshot)| + |NativeConflicts(w.snapshot)| + 1, left);
    Continues(w, start, held, store.log);
    if r.Err? {
      ExplainedFrom(w, start, held, r.error, left);
    } else {
      EvolvedKeeps(w, start, store.log);
      ContainedIsStored(w.snapshot, store.log);
    }
  }

  lemma OursReceipted(w: World, log: seq<Entry>)
    requires Ours(w, log) && Receipt(log, w.source).Some?
    ensures Contains(w.snapshot, log)
  {
    hide Contains, Within, Receipt;
  }

  lemma SurveyExplained(w: World, start: seq<Entry>, e: ImportError, left: nat)
    requires Explained(w, start, e, 0) && e != Crashed && e != Busy
    ensures Explained(w, start, e, left)
  {
    hide Ours, Alone;
  }

  // ----- crashing and running again

  /**
   * Importing into a ledger without tasks, crashing any number of times and after any append, and
   * running again: the import gets through, leaves exactly the plan, and never appends a record twice.
   */
  method ImportUntilDone(store: Store, w: World, at: nat -> Time, crashes: nat -> nat) returns (r: Result<ImportResult, ImportError>)
    requires ValidChain(store.log) && Ours(w, store.log) && Alone(w)
    modifies store
    ensures r.Ok? && IsReceipted(w, store.log) && Contains(w.snapshot, store.log) && Within(w.snapshot, store.log)
    ensures StoresPlan(w.snapshot, store.log) && StoresOnly(w.snapshot, store.log)
    ensures |store.log| <= |old(store.log)| + Missing(w, old(store.log))
    ensures AllAsCreated(w.snapshot, old(store.log)) ==>
              AllAsCreated(w.snapshot, store.log) && AllUntouched(w.snapshot, store.log)
  {
    hide Ours, Evolved, Tasks.PlanOk, ValidChain, Contains, Missing, Alone, Receipt, Within, Explained, AllAsCreated;
    hide StoresPlan, StoresOnly, AllUntouched;
    ghost var start := store.log;
    OursSound(w, start);
    EvolvedSelf(w, start);
    var left;
    var tries := 0;
    r, left := ImportSnapshot(store, w, at(0), crashes(0) + 1);
    Continues(w, start, start, store.log);
    CrashesPay(w, start, store.log);
    if r.Err? {
      OnlyCrashes(w, start, r.error, left);
    }
    while r.Err?
      invariant Evolved(w, start, store.log) && ValidChain(store.log) && Tasks.PlanOk(store.log) && Ours(w, store.log)
      invariant r.Err? ==> r == Err(Crashed)
      invariant r.Ok? ==> IsReceipted(w, store.log) && Contains(w.snapshot, store.log)
      decreases Missing(w, store.log), r.Err?
    {
      tries := tries + 1;
      ghost var before := store.log;
      r, left := ImportSnapshot(store, w, at(tries), crashes(tries) + 1);
      Continues(w, start, before, store.log);
      CrashesPay(w, before, store.log);
      if r.Err? {
        OnlyCrashes(w, before, r.error, left);
      }
    }
    CrashesPay(w, start, store.log);
    OursIsWithin(w, store.log);
    ContainedIsStored(w.snapshot, store.log);
    WithinIsStored(w.snapshot, store.log);
    if AllAsCreated(w.snapshot, store.log) {
      AsCreatedAreUntouched(w.snapshot, store.log);
    }
  }

  /** Importing again under the same label: what was reported, if the source is the same, and drift otherwise. */
  lemma ImportAgain(w: World, result: ImportResult, again: World, log: seq<Entry>)
    requires Reports(w.snapshot, result) && Receipt(log, w.source) == Some(ReceiptPayload(ReceiptFrom(w, result)))
    requires again.source == w.source
    ensures var r := FromReceipt(again, Receipt(log, again.source).value);
            if again.snapshot.digest != w.snapshot.digest then r == Err(Drift)
            else
              && r.Ok? && !r.value.imported && r.value.skipped == result.skipped && r.value.satisfied == result.satisfied
              && r.value.createdTasks == [] && (forall x :: x in r.value.existingTasks <==> IsOpen(w.snapshot, x))
              && r.value.createdDependencies == r.value.existingDependencies == []
              && r.value.createdConflicts == r.value.existingConflicts == []
  {
    hide Receipt, IsOpen, IsDependency, IsConflict, IsSatisfied;
    var ids := SortBy(LexLeq, result.createdTasks + result.existingTasks);
    forall x
      ensures x in ids <==> IsOpen(w.snapshot, x)
    {
      InPermutation(ids, result.createdTasks + result.existingTasks, x);
    }
  }

  /** An accepted plan may start on any sound ledger without tasks and without a receipt. */
  lemma TaskFreeIsOurs(w: World, log: seq<Entry>)
    requires AcceptedPlan(w.snapshot.tasks) && Friendly(w) && Tasks.PlanOk(log)
    requires Tasks.LatestTasks(log) == Some(map[]) && Receipt(log, w.source).None?
    ensures Ours(w, log)
    ensures Missing(w, log) == |Actionable(w.snapshot)| + |NativeEdges(w.snapshot)| + |NativeConflicts(w.snapshot)| + 1
    ensures AllAsCreated(w.snapshot, log)
  {
    NoTasksYet(w.snapshot, log);
    hide Within, AcceptedPlan, Friendly, Tasks.PlanOk, Receipt, Contains, Actionable, NativeEdges, NativeConflicts, Tasks.LatestTasks;
    TaskFreeIsWithin(w.snapshot, log);
    NoRelationsYet(log);
    assert MissingTasks(w, log) == Actionable(w.snapshot);
    assert MissingEdges(w, log) == NativeEdges(w.snapshot);
    assert MissingConflicts(w, log) == NativeConflicts(w.snapshot);
  }

  /** A plan just imported is idle: every task is idea or todo as its source says, and nobody works on any. */
  lemma ImportedIsIdle(s: Snapshot, log: seq<Entry>)
    requires Within(s, log) && Contains(s, log) && AllAsCreated(s, log)
    ensures Planning.PlanOf(log).Some?
    ensures var p := Planning.PlanOf(log).value;
            && Planning.Idle(p) && p.tasks.Keys == Actionable(s) == Planning.Unfinished(p)
            && p.dependencies == NativeEdges(s) && p.conflicts == NativeConflicts(s)
            && forall id :: id in p.tasks ==> IsIntended(s, id, p.tasks[id]) && IsAsCreated(s, p.tasks[id])
  {
    hide Tasks.LatestTasks, Tasks.Relations, Acyclic, IsIntended, NativeEdges, NativeConflicts, Actionable, Contains, Planning.Consistent;
    ContainedIsInduced(s, log);
    Planning.SoundLedgerPlans(log);
  }

  /** A ledger without tasks has none that is not as it was created. */
  lemma NoTasksYet(s: Snapshot, log: seq<Entry>)
    requires Tasks.LatestTasks(log) == Some(map[])
    ensures AllAsCreated(s, log)
  {
  }

  lemma NoRelationsYet(log: seq<Entry>)
    requires Tasks.PlanOk(log) && Tasks.LatestTasks(log) == Some(map[])
    ensures forall e :: !HasEdge(log, e)
    ensures forall e :: !HasConflict(log, e)
  {
    hide Tasks.LatestTasks, Tasks.Relations, Acyclic;
  }

  lemma OursSound(w: World, log: seq<Entry>)
    requires Ours(w, log)
    ensures Tasks.PlanOk(log)
  {
    hide AcceptedPlan, Friendly, ReceiptOk, Tasks.PlanOk;
  }

  /** On a ledger of this plan only, without others, a crash is the only thing that can go wrong. */
  lemma OnlyCrashes(w: World, start: seq<Entry>, e: ImportError, left: nat)
    requires Explained(w, start, e, left) && Ours(w, start) && Alone(w)
    ensures e == Crashed && left == 0
  {
    hide Ours, Alone;
  }

  lemma CrashesPay(w: World, a: seq<Entry>, b: seq<Entry>)
    requires Evolved(w, a, b) && Ours(w, a) && Alone(w)
    ensures |b| + Missing(w, b) <= |a| + Missing(w, a) && Ours(w, b)
    ensures AllAsCreated(w.snapshot, a) ==> AllAsCreated(w.snapshot, b)
  {
    hide AllAsCreated, Ours, Grown, Alone, Missing, Tasks.PlanOk, ValidChain;
  }
}
