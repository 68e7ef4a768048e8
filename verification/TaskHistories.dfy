/** What happens to a task over a whole run (domain/task.py, application/tasks.py). */
module TaskHistories {
  import opened Common
  import opened Records
  import opened Chain
  import opened Decisions
  import opened TaskIntents
  import Leases
  import Graphs
  import Tasks
  import Claims
  import WorkBindings
  import Completion
  import Services

  /** The moves of a task, state by state. */
  const MOVES := {
    (Idea, Todo), (Idea, Abandoned),
    (Todo, InProgress), (Todo, TaskState.Blocked), (Todo, Abandoned),
    (InProgress, Todo), (InProgress, TaskState.Blocked), (InProgress, Done), (InProgress, Abandoned),
    (TaskState.Blocked, Todo), (TaskState.Blocked, InProgress), (TaskState.Blocked, Abandoned)
  }

  /** From an idea or todo, one move after the other in time, to the present state. */
  ghost predicate Lawful(t: Task) {
    var n := |t.events|;
    && (forall k :: 0 <= k < n ==> (t.events[k].previous, t.events[k].state) in MOVES)
    && (forall k :: 0 < k < n ==> t.events[k].previous == t.events[k - 1].state && t.events[k - 1].at <= t.events[k].at)
    && (if n == 0 then (t.state == Idea || t.state == Todo) && t.updatedAt == t.createdAt
        else (t.events[0].previous == Idea || t.events[0].previous == Todo) && t.createdAt <= t.events[0].at
             && t.events[n - 1].state == t.state && t.events[n - 1].at == t.updatedAt)
  }

  lemma AllowedIs(before: TaskState, after: TaskState)
    ensures AllowedTransition(before, after) <==> (before, after) in MOVES
  {
  }

  lemma ValidIsLawful(t: Task)
    ensures ValidHistory(t) <==> Lawful(t)
  {
    hide AllowedTransition, MOVES;
    forall k | 0 <= k < |t.events|
      ensures AllowedTransition(t.events[k].previous, t.events[k].state) <==> (t.events[k].previous, t.events[k].state) in MOVES
    {
      AllowedIs(t.events[k].previous, t.events[k].state);
    }
  }

  /** What is done was in progress just before, and nothing follows done or abandoned. */
  lemma LawfulEnds(t: Task)
    requires Lawful(t)
    ensures t.state == Done ==> t.events != [] && t.events[|t.events| - 1].previous == InProgress
    ensures forall k :: 0 <= k < |t.events| && (t.events[k].state == Done || t.events[k].state == Abandoned) ==> k == |t.events| - 1
  {
    forall k | 0 <= k < |t.events| - 1
      ensures t.events[k].state != Done && t.events[k].state != Abandoned
    {
      assert (t.events[k + 1].previous, t.events[k + 1].state) in MOVES;
    }
  }

  /** The same task later: its events only grow, and done or abandoned it stays as it is. */
  ghost predicate Continues(before: Task, after: Task) {
    && after.id == before.id && after.intent == before.intent && after.priority == before.priority
    && after.scopes == before.scopes && after.createdAt == before.createdAt
    && before.events <= after.events && before.updatedAt <= after.updatedAt
    && (before.state == Done || before.state == Abandoned ==> after == before)
  }

  /** The version of `t` in which `actorId` moved it. */
  ghost predicate MovedTo(t: Task, u: Task, state: TaskState, actorId: Id, rationale: string, at: Time) {
    && u.id == t.id && u.intent == t.intent && u.priority == t.priority && u.scopes == t.scopes && u.createdAt == t.createdAt
    && u.state == state && u.updatedAt == at && u.events == t.events + [StateEvent(t.state, state, actorId, rationale, at)]
  }

  /**
   * A transition is accepted exactly for a move of the table other than to done, not dated before the
   * last change, and leaves that one task moved.
   */
  lemma TransitionAcceptedIff(log: seq<Entry>, op: Tasks.TaskOp)
    requires Tasks.PlanOk(log) && op.TransitionTask?
    ensures var tasks := Tasks.LatestTasks(log).value;
            && (Tasks.Decide(op, log).Write? <==>
                  op.id in tasks && op.state != Done && (tasks[op.id].state, op.state) in MOVES && tasks[op.id].updatedAt <= op.at)
            && (Tasks.Decide(op, log).Write? ==>
                  var next := Tasks.LatestTasks(log + [NextEntry(log, Tasks.Decide(op, log).draft)]);
                  && next.Some? && next.value.Keys == tasks.Keys
                  && (forall id :: id in tasks && id != op.id ==> next.value[id] == tasks[id])
                  && MovedTo(tasks[op.id], next.value[op.id], op.state, op.actorId, op.rationale, op.at))
  {
    hide MOVES, Tasks.LatestTasks, Tasks.Relations, ValidHistory, AllowedTransition, Graphs.Acyclic;
    var tasks := Tasks.LatestTasks(log).value;
    if op.id in tasks {
      AllowedIs(tasks[op.id].state, op.state);
      if Tasks.Decide(op, log).Write? {
        Tasks.TasksAfter(log, NextEntry(log, Tasks.Decide(op, log).draft));
      }
    }
  }

  lemma MovedContinues(t: Task, u: Task, state: TaskState, actorId: Id, rationale: string, at: Time)
    requires MovedTo(t, u, state, actorId, rationale, at) && t.updatedAt <= at && (t.state, state) in MOVES
    ensures Continues(t, u)
  {
  }

  lemma ContinuesItself(t: Task)
    ensures Continues(t, t)
  {
  }

  lemma ContinuesTransitive(a: Task, b: Task, c: Task)
    requires Continues(a, b) && Continues(b, c)
    ensures Continues(a, c)
  {
  }

  ghost predicate AllContinue(m: Tasks.TaskMap, n: Tasks.TaskMap) {
    forall id :: id in m ==> id in n && Continues(m[id], n[id])
  }

  lemma IntendingContinues(log: seq<Entry>, op: Tasks.TaskOp)
    requires Tasks.PlanOk(log) && Tasks.Decide(op, log).Write?
    ensures var next := log + [NextEntry(log, Tasks.Decide(op, log).draft)];
            Tasks.LatestTasks(next).Some? && AllContinue(Tasks.LatestTasks(log).value, Tasks.LatestTasks(next).value)
  {
    hide MOVES, Tasks.LatestTasks, Tasks.Relations, ValidHistory, AllowedTransition, Graphs.Acyclic, Graphs.Reach, Continues;
    var tasks := Tasks.LatestTasks(log).value;
    var e := NextEntry(log, Tasks.Decide(op, log).draft);
    forall id | id in tasks
      ensures Continues(tasks[id], tasks[id])
    {
      ContinuesItself(tasks[id]);
    }
    Tasks.TasksAfter(log, e);
    if op.TransitionTask? {
      TransitionAcceptedIff(log, op);
      MovedContinues(tasks[op.id], Tasks.LatestTasks(log + [e]).value[op.id], op.state, op.actorId, op.rationale, op.at);
    }
  }

  lemma CompletingContinues(log: seq<Entry>, op: Completion.CompleteOp)
    requires Tasks.PlanOk(log) && Completion.Decide(op, log).Write?
    ensures var next := log + [NextEntry(log, Completion.Decide(op, log).draft)];
            Tasks.LatestTasks(next).Some? && AllContinue(Tasks.LatestTasks(log).value, Tasks.LatestTasks(next).value)
  {
    hide Completion.Proves, Completion.LatestEntry, Tasks.LatestTasks, Tasks.Relations, ValidHistory, Graphs.Acyclic, Completion.ProofFrom, Continues;
    hide Completion.Stands;
    Completion.CompletionIsProven(op, log);
    var tasks := Tasks.LatestTasks(log).value;
    var e := NextEntry(log, Completion.Decide(op, log).draft);
    var p := Completion.ProofFrom(log, op.binding, op.at, true).value;
    Completion.LatestTaskEntry(log, op.binding.taskId);
    assert p.task.id == op.binding.taskId by { Services.ProvesItsTask(log, op.binding, p); }
    forall id | id in tasks
      ensures Continues(tasks[id], tasks[id])
    {
      ContinuesItself(tasks[id]);
    }
    Tasks.TasksAfter(log, e);
    MovedContinues(p.task, e.draft.payload.task, Done, op.actorId, op.reason, op.at);
  }

  lemma StepContinues(glob: Leases.Glob, log: seq<Entry>, op: Services.Op)
    requires Services.Sound(log) && Services.Decide(glob, op, log).Write?
    ensures var next := log + [NextEntry(log, Services.Decide(glob, op, log).draft)];
            Tasks.LatestTasks(next).Some? && AllContinue(Tasks.LatestTasks(log).value, Tasks.LatestTasks(next).value)
  {
    hide Services.DoneOk, Tasks.PlanOk, WorkBindings.BindingsOk, Claims.Decide, Tasks.Decide, WorkBindings.Decide, Completion.Decide;
    hide Tasks.LatestTasks, ValidChain, AllContinue;
    match op
    case Claiming(o) =>
      Claims.WritesAClaim(glob, o, log);
      OutsideContinues(log, NextEntry(log, Services.Decide(glob, op, log).draft));
    case Intending(o) =>
      IntendingContinues(log, o);
    case Binding(o) =>
      Services.BindingHarmless(log, o);
      OutsideContinues(log, NextEntry(log, Services.Decide(glob, op, log).draft));
    case Completing(o) =>
      CompletingContinues(log, o);
    case Recording(d) =>
      OutsideContinues(log, NextEntry(log, Services.Decide(glob, op, log).draft));
  }

  lemma OutsideContinues(log: seq<Entry>, e: Entry)
    requires Tasks.PlanOk(log) && e.draft.kind != TaskKind
    ensures Tasks.LatestTasks(log + [e]).Some? && AllContinue(Tasks.LatestTasks(log).value, Tasks.LatestTasks(log + [e]).value)
  {
    hide Tasks.LatestTasks, Tasks.Relations, ValidHistory, Graphs.Acyclic, Continues;
    Tasks.TasksAfter(log, e);
    forall id | id in Tasks.LatestTasks(log).value
      ensures Continues(Tasks.LatestTasks(log).value[id], Tasks.LatestTasks(log).value[id])
    {
      ContinuesItself(Tasks.LatestTasks(log).value[id]);
    }
  }

  /** Every task of every reachable ledger got where it is by lawful moves. */
  lemma ReachableIsLawful(glob: Leases.Glob, ops: seq<Services.Op>)
    ensures Tasks.LatestTasks(Services.Run(glob, ops)).Some?
    ensures forall id :: id in Tasks.LatestTasks(Services.Run(glob, ops)).value ==>
              Tasks.LatestTasks(Services.Run(glob, ops)).value[id].id == id && Lawful(Tasks.LatestTasks(Services.Run(glob, ops)).value[id])
  {
    hide Services.Run, Services.DoneOk, WorkBindings.BindingsOk, Tasks.LatestTasks, Tasks.Relations, ValidHistory, Graphs.Acyclic, Lawful;
    Services.RunIsSound(glob, ops);
    var tasks := Tasks.LatestTasks(Services.Run(glob, ops)).value;
    forall id | id in tasks
      ensures Lawful(tasks[id])
    {
      ValidIsLawful(tasks[id]);
    }
  }

  /**
   * Over every run a task keeps what it is for and every event of its history, and done or abandoned
   * it never changes again.
   */
  lemma {:induction false} TaskIsForever(glob: Leases.Glob, ops: seq<Services.Op>, m: nat)
    requires m <= |ops|
    ensures Tasks.LatestTasks(Services.Run(glob, ops[..m])).Some? && Tasks.LatestTasks(Services.Run(glob, ops)).Some?
    ensures AllContinue(Tasks.LatestTasks(Services.Run(glob, ops[..m])).value, Tasks.LatestTasks(Services.Run(glob, ops)).value)
  {
    hide Services.Decide, Tasks.LatestTasks, AllContinue, Services.Sound;
    ReachableIsLawful(glob, ops);
    ReachableIsLawful(glob, ops[..m]);
    if m == |ops| {
      assert ops[..m] == ops;
      AllContinueThemselves(Tasks.LatestTasks(Services.Run(glob, ops)).value);
    } else {
      var shorter := ops[..|ops| - 1];
      assert shorter[..m] == ops[..m];
      TaskIsForever(glob, shorter, m);
      Services.RunIsSound(glob, shorter);
      if Services.Decide(glob, ops[|ops| - 1], Services.Run(glob, shorter)).Write? {
        StepContinues(glob, Services.Run(glob, shorter), ops[|ops| - 1]);
        AllContinueOn(Tasks.LatestTasks(Services.Run(glob, ops[..m])).value, Tasks.LatestTasks(Services.Run(glob, shorter)).value,
                      Tasks.LatestTasks(Services.Run(glob, ops)).value);
      }
    }
  }

  lemma AllContinueThemselves(m: Tasks.TaskMap)
    ensures AllContinue(m, m)
  {
  }

  lemma AllContinueOn(a: Tasks.TaskMap, b: Tasks.TaskMap, c: Tasks.TaskMap)
    requires AllContinue(a, b) && AllContinue(b, c)
    ensures AllContinue(a, c)
  {
    hide Continues;
    forall id | id in a
      ensures Continues(a[id], c[id])
    {
      ContinuesTransitive(a[id], b[id], c[id]);
    }
  }
}
