/**
 * Draining the plan of a ledger: rounds of ledger operations, each of which takes the first choice
 * of the planner to done and leaves the other tasks alone.
 */
module Draining {
  import opened Common
  import opened Records
  import opened Chain
  import opened Graphs
  import opened TaskIntents
  import opened Planning
  import opened Services
  import Leases
  import Tasks
  import Completion
  import Claims
  import WorkBindings
  import ChangeSets
  import opened Decisions

  // ----- what one operation does to the plan

  predicate TouchesOnly(d: Draft, id: Id) {
    Tasks.OutsidePlan(d) || (d.kind == TaskKind && d.entity == Named(id))
  }

  /** Another version of one task. */
  predicate Versions(t: Task, u: Task) {
    u.id == t.id && u.priority == t.priority && u.createdAt == t.createdAt
  }

  /** Only task `id` may differ, and only in its state and history. */
  ghost predicate OnlyMoved(p: Plan, q: Plan, id: Id) {
    && q.tasks.Keys == p.tasks.Keys && q.dependencies == p.dependencies && q.conflicts == p.conflicts
    && (forall x :: x in p.tasks && x != id ==> q.tasks[x] == p.tasks[x])
    && (id in p.tasks ==> Versions(p.tasks[id], q.tasks[id]))
  }

  lemma VersionMoves(log: seq<Entry>, task: Task)
    requires Tasks.PlanOk(log) && ValidHistory(task) && task.id in Tasks.LatestTasks(log).value
    requires Versions(Tasks.LatestTasks(log).value[task.id], task)
    ensures var next := log + [NextEntry(log, Tasks.TaskDraft(task))];
            && PlanOf(log).Some? && PlanOf(next).Some? && OnlyMoved(PlanOf(log).value, PlanOf(next).value, task.id)
  {
    hide Tasks.LatestTasks, Tasks.Relations, Acyclic, ValidHistory;
    Tasks.TaskVersionKeepsPlan(log, NextEntry(log, Tasks.TaskDraft(task)));
  }

  lemma TouchingIsTransition(log: seq<Entry>, op: Tasks.TaskOp, id: Id)
    requires Tasks.PlanOk(log) && Tasks.Decide(op, log).Write? && id in Tasks.LatestTasks(log).value
    requires TouchesOnly(Tasks.Decide(op, log).draft, id)
    ensures op.TransitionTask? && op.id == id && CanTransition(Tasks.LatestTasks(log).value[id], op.state, op.at)
    ensures Tasks.Decide(op, log).draft
            == Tasks.TaskDraft(Transitioned(Tasks.LatestTasks(log).value[id], op.state, op.actorId, op.rationale, op.at))
  {
    hide Tasks.LatestTasks, Tasks.Relations, Acyclic, Reach, ValidHistory;
  }

  lemma IntendingMoves(log: seq<Entry>, op: Tasks.TaskOp, id: Id)
    requires Tasks.PlanOk(log) && Tasks.Decide(op, log).Write? && id in Tasks.LatestTasks(log).value
    requires TouchesOnly(Tasks.Decide(op, log).draft, id)
    ensures var next := log + [NextEntry(log, Tasks.Decide(op, log).draft)];
            PlanOf(log).Some? && PlanOf(next).Some? && OnlyMoved(PlanOf(log).value, PlanOf(next).value, id)
  {
    hide Tasks.LatestTasks, Tasks.Relations, Acyclic, OnlyMoved, PlanOf, Tasks.Decide;
    TouchingIsTransition(log, op, id);
    var t := Tasks.LatestTasks(log).value[id];
    TransitionKeepsHistory(t, op.state, op.actorId, op.rationale, op.at);
    VersionMoves(log, Transitioned(t, op.state, op.actorId, op.rationale, op.at));
  }

  lemma CompletingMoves(log: seq<Entry>, op: Completion.CompleteOp, id: Id)
    requires Tasks.PlanOk(log) && Completion.Decide(op, log).Write? && id in Tasks.LatestTasks(log).value
    requires TouchesOnly(Completion.Decide(op, log).draft, id)
    ensures var next := log + [NextEntry(log, Completion.Decide(op, log).draft)];
            PlanOf(log).Some? && PlanOf(next).Some? && OnlyMoved(PlanOf(log).value, PlanOf(next).value, id)
  {
    hide Tasks.LatestTasks, Tasks.Relations, Acyclic, ValidHistory, OnlyMoved, PlanOf, Completion.LatestEntry, Completion.ProofFrom;
    Completion.CompletionIsProven(op, log);
    var p := Completion.ProofFrom(log, op.binding, op.at, true).value;
    ProvesItsTask(log, op.binding, p);
    Completion.LatestTaskEntry(log, op.binding.taskId);
    TransitionKeepsHistory(p.task, Done, op.actorId, op.reason, op.at);
    VersionMoves(log, Transitioned(p.task, Done, op.actorId, op.reason, op.at));
  }

  lemma OutsideMoves(log: seq<Entry>, e: Entry, id: Id)
    requires Tasks.PlanOk(log) && Tasks.OutsidePlan(e.draft)
    ensures PlanOf(log).Some? && PlanOf(log + [e]).Some? && OnlyMoved(PlanOf(log).value, PlanOf(log + [e]).value, id)
  {
    hide Tasks.LatestTasks, Tasks.Relations, Acyclic;
    Tasks.OutsideKeepsPlan(log, e);
  }

  /** An operation that writes nothing, or nothing of the plan but task `id`, moves only that task. */
  lemma StepMoves(glob: Leases.Glob, log: seq<Entry>, op: Op, id: Id)
    requires Sound(log) && Tasks.LatestTasks(log).Some? && id in Tasks.LatestTasks(log).value
    requires Decide(glob, op, log).Write? ==> TouchesOnly(Decide(glob, op, log).draft, id)
    ensures PlanOf(log).Some? && PlanOf(Apply(glob, log, op)).Some?
    ensures OnlyMoved(PlanOf(log).value, PlanOf(Apply(glob, log, op)).value, id)
  {
    hide DoneOk, Tasks.PlanOk, WorkBindings.BindingsOk, Claims.Decide, Tasks.Decide, WorkBindings.Decide, Completion.Decide;
    hide OnlyMoved, PlanOf, Tasks.LatestTasks, ValidChain;
    if !Decide(glob, op, log).Write? {
      NothingMoves(log, id);
    } else if Tasks.OutsidePlan(Decide(glob, op, log).draft) {
      OutsideMoves(log, NextEntry(log, Decide(glob, op, log).draft), id);
    } else {
      OnlyTasksTouch(glob, log, op, id);
      if op.Intending? {
        IntendingMoves(log, op.task, id);
      } else {
        CompletingMoves(log, op.complete, id);
      }
    }
  }

  lemma NothingMoves(log: seq<Entry>, id: Id)
    requires Tasks.PlanOk(log)
    ensures PlanOf(log).Some? && OnlyMoved(PlanOf(log).value, PlanOf(log).value, id)
  {
    hide Tasks.LatestTasks, Tasks.Relations, Acyclic;
  }

  lemma OnlyTasksTouch(glob: Leases.Glob, log: seq<Entry>, op: Op, id: Id)
    requires Sound(log) && Decide(glob, op, log).Write?
    requires TouchesOnly(Decide(glob, op, log).draft, id) && !Tasks.OutsidePlan(Decide(glob, op, log).draft)
    ensures op.Intending? || op.Completing?
  {
    hide DoneOk, Tasks.PlanOk, WorkBindings.BindingsOk, Claims.Decide, Tasks.Decide, WorkBindings.Decide, Completion.Decide, ValidChain;
    if op.Claiming? {
      Claims.WritesAClaim(glob, op.claim, log);
    } else if op.Binding? {
      BindingHarmless(log, op.work);
    }
  }

  // ----- rounds

  ghost function PlanAfter(glob: Leases.Glob, ops: seq<Op>): Plan {
    match PlanOf(Run(glob, ops))
    case Some(p) => p
    case None => Plan(map[], {}, {})
  }

  lemma PlanAfterIs(glob: Leases.Glob, ops: seq<Op>)
    ensures PlanOf(Run(glob, ops)) == Some(PlanAfter(glob, ops))
    ensures Sound(Run(glob, ops)) && PlanAfter(glob, ops).tasks == Tasks.LatestTasks(Run(glob, ops)).value
    ensures Tasks.LatestTasks(Run(glob, ops)).Some?
    ensures Consistent(PlanAfter(glob, ops)) && ReferencesExist(PlanAfter(glob, ops)) && Acyclic(PlanAfter(glob, ops).dependencies)
  {
    hide Tasks.LatestTasks, Tasks.Relations, Acyclic, Run, DoneOk, WorkBindings.BindingsOk;
    RunIsSound(glob, ops);
    SoundLedgerPlans(Run(glob, ops));
  }

  /** After `ops`, the operations of `round` write nothing of the plan but versions of task `id`. */
  ghost predicate Tends(glob: Leases.Glob, ops: seq<Op>, round: seq<Op>, id: Id) {
    forall m :: 0 <= m < |round| ==> TendsAt(glob, ops, round, id, m)
  }

  ghost predicate TendsAt(glob: Leases.Glob, ops: seq<Op>, round: seq<Op>, id: Id, m: nat)
    requires m < |round|
  {
    var log := Run(glob, ops + round[..m]);
    Decide(glob, round[m], log).Write? ==> TouchesOnly(Decide(glob, round[m], log).draft, id)
  }

  lemma MovedTwice(p: Plan, q: Plan, r: Plan, id: Id)
    requires OnlyMoved(p, q, id) && OnlyMoved(q, r, id)
    ensures OnlyMoved(p, r, id)
  {
  }

  lemma {:induction false} TendingMoves(glob: Leases.Glob, ops: seq<Op>, round: seq<Op>, id: Id)
    requires Tends(glob, ops, round, id) && id in PlanAfter(glob, ops).tasks
    ensures OnlyMoved(PlanAfter(glob, ops), PlanAfter(glob, ops + round), id)
    decreases |round|
  {
    hide Run, PlanAfter, TendsAt, OnlyMoved, Sound, Tasks.LatestTasks, Consistent, ReferencesExist, Acyclic;
    PlanAfterIs(glob, ops);
    if round == [] {
      assert ops + round == ops;
      StaysPut(PlanAfter(glob, ops), id);
    } else {
      var n := |round| - 1;
      var shorter := round[..n];
      forall m | 0 <= m < n
        ensures TendsAt(glob, ops, shorter, id, m)
      {
        assert shorter[..m] == round[..m];
        TendsSame(glob, ops, round, shorter, id, m);
      }
      TendingMoves(glob, ops, shorter, id);
      KeysStay(PlanAfter(glob, ops), PlanAfter(glob, ops + shorter), id);
      PlanAfterIs(glob, ops + shorter);
      PlanAfterIs(glob, ops + round);
      LastTends(glob, ops, round, id);
      StepMoves(glob, Run(glob, ops + shorter), round[n], id);
      RunNext(glob, ops, round);
      MovedTwice(PlanAfter(glob, ops), PlanAfter(glob, ops + shorter), PlanAfter(glob, ops + round), id);
    }
  }

  lemma StaysPut(p: Plan, id: Id)
    ensures OnlyMoved(p, p, id)
  {
  }

  lemma KeysStay(p: Plan, q: Plan, id: Id)
    requires OnlyMoved(p, q, id)
    ensures q.tasks.Keys == p.tasks.Keys
  {
  }

  lemma TendsSame(glob: Leases.Glob, ops: seq<Op>, round: seq<Op>, shorter: seq<Op>, id: Id, m: nat)
    requires m < |shorter| <= |round| && shorter[..m] == round[..m] && shorter[m] == round[m] && TendsAt(glob, ops, round, id, m)
    ensures TendsAt(glob, ops, shorter, id, m)
  {
  }

  lemma LastTends(glob: Leases.Glob, ops: seq<Op>, round: seq<Op>, id: Id)
    requires round != [] && TendsAt(glob, ops, round, id, |round| - 1)
    ensures var log := Run(glob, ops + round[..|round| - 1]);
            Decide(glob, round[|round| - 1], log).Write? ==> TouchesOnly(Decide(glob, round[|round| - 1], log).draft, id)
  {
  }

  lemma RunUnfolds(glob: Leases.Glob, ops: seq<Op>)
    requires ops != []
    ensures Run(glob, ops) == Apply(glob, Run(glob, ops[..|ops| - 1]), ops[|ops| - 1])
  {
    hide Apply;
  }

  lemma RunNext(glob: Leases.Glob, ops: seq<Op>, round: seq<Op>)
    requires round != []
    ensures Run(glob, ops + round) == Apply(glob, Run(glob, ops + round[..|round| - 1]), round[|round| - 1])
  {
    hide Apply, Run;
    var all := ops + round;
    RunUnfolds(glob, all);
    assert all[..|all| - 1] == ops + round[..|round| - 1];
  }

  /** A round: whoever takes part, only the first choice is worked on, and in the end it is done. */
  ghost predicate Round(glob: Leases.Glob, ops: seq<Op>, round: seq<Op>, id: Id) {
    && FirstChoice(PlanAfter(glob, ops), id) && Tends(glob, ops, round, id)
    && id in PlanAfter(glob, ops + round).tasks && PlanAfter(glob, ops + round).tasks[id].state == Done
  }

  function Flat(rounds: seq<seq<Op>>): seq<Op> {
    if rounds == [] then [] else Flat(rounds[..|rounds| - 1]) + rounds[|rounds| - 1]
  }

  ghost predicate Rounds(glob: Leases.Glob, ops: seq<Op>, rounds: seq<seq<Op>>, ids: seq<Id>) {
    |rounds| == |ids| && (rounds != [] ==>
      var n := |rounds| - 1;
      Rounds(glob, ops, rounds[..n], ids[..n]) && Round(glob, ops + Flat(rounds[..n]), rounds[n], ids[n]))
  }

  /** Finishing on the ledger is finishing on the plan, as far as states go. */
  lemma RoundFinishes(start: Plan, p: Plan, q: Plan, order: seq<Id>, id: Id)
    requires Idle(p) && FirstChoice(p, id) && OnlyMoved(p, q, id) && id in q.tasks && q.tasks[id].state == Done
    requires Drained(start, p, order)
    requires Consistent(q)
    ensures Idle(q) && Drained(start, q, order + [id]) && Unfinished(q) == Unfinished(p) - {id} && id in Unfinished(p)
  {
    hide Acyclic, FinishesInOrder, Eligible;
    assert Eligible(p, id);
    FinishKeepsIdle(p, id);
    IdleIsConsistent(p);
    DrainStep(start, p, order, id);
    assert Unfinished(q) == Unfinished(Finish(p, id));
  }

  /**
   * Rounds over the ledger drain its plan: each finishes an unfinished task after all its
   * dependencies, no task twice; while work is left there is a first choice for another round, and
   * after as many rounds as there were unfinished tasks everything is done.
   */
  lemma {:induction false} RoundsDrain(glob: Leases.Glob, ops: seq<Op>, rounds: seq<seq<Op>>, ids: seq<Id>)
    requires Idle(PlanAfter(glob, ops)) && Rounds(glob, ops, rounds, ids)
    ensures var start, end := PlanAfter(glob, ops), PlanAfter(glob, ops + Flat(rounds));
            && Idle(end) && Drained(start, end, ids)
            && |rounds| + |Unfinished(end)| == |Unfinished(start)|
            && (Unfinished(end) != {} ==> exists id :: Eligible(end, id))
    decreases |rounds|
  {
    hide PlanAfter, Tends, Drained, Idle, FirstChoice, OnlyMoved, Eligible, Unfinished, Consistent, ReferencesExist, Acyclic, Sound;
    hide Tasks.LatestTasks, Run;
    var start := PlanAfter(glob, ops);
    if rounds == [] {
      assert ops + Flat(rounds) == ops;
      assert ids == [];
      DrainStarts(start);
    } else {
      var n := |rounds| - 1;
      var before := ops + Flat(rounds[..n]);
      RoundsDrain(glob, ops, rounds[..n], ids[..n]);
      assert ops + Flat(rounds) == before + rounds[n];
      assert ids == ids[..n] + [ids[n]];
      RoundDrains(glob, start, before, rounds[n], ids[..n], ids[n]);
    }
    if Unfinished(PlanAfter(glob, ops + Flat(rounds))) != {} {
      NeverDeadlocks(PlanAfter(glob, ops + Flat(rounds)));
    }
  }

  lemma RoundDrains(glob: Leases.Glob, start: Plan, ops: seq<Op>, round: seq<Op>, order: seq<Id>, id: Id)
    requires Round(glob, ops, round, id) && Idle(PlanAfter(glob, ops)) && Drained(start, PlanAfter(glob, ops), order)
    ensures var p, q := PlanAfter(glob, ops), PlanAfter(glob, ops + round);
            Idle(q) && Drained(start, q, order + [id]) && |Unfinished(q)| + 1 == |Unfinished(p)|
  {
    hide PlanAfter, Tends, Drained, Idle, OnlyMoved, Eligible, Unfinished, Consistent, ReferencesExist, Acyclic, Sound, Tasks.LatestTasks, Run;
    ChosenIsTask(PlanAfter(glob, ops), id);
    TendingMoves(glob, ops, round, id);
    PlanAfterIs(glob, ops + round);
    RoundFinishes(start, PlanAfter(glob, ops), PlanAfter(glob, ops + round), order, id);
  }

  lemma ChosenIsTask(p: Plan, id: Id)
    requires FirstChoice(p, id)
    ensures id in p.tasks
  {
  }

  // ----- a round that can always be taken

  /** What it takes to do a task: its work, with a merged Change Set and a releasable review of its head. */
  datatype Effort = Effort(
    claimId: Id, agentId: Id, sessionId: Id, base: string, scopes: seq<Leases.Scope>, seconds: int, at: Time,
    merged: ChangeSets.ChangeBinding, review: ReviewRecord, actorId: Id, reason: string)

  function ChangeSetOf(f: Effort): Id {
    f.merged.changeSet.id
  }

  function AcquireOp(f: Effort): Claims.ClaimOp {
    Claims.Acquire(f.claimId, ChangeSetOf(f), f.agentId, f.sessionId, f.scopes, f.at, f.seconds)
  }

  function ReserveOp(f: Effort, id: Id): WorkBindings.WorkOp {
    WorkBindings.Reserve(id, ChangeSetOf(f), f.claimId, f.agentId, f.sessionId, f.base, f.at)
  }

  function Bound(f: Effort, id: Id): WorkBinding {
    WorkBindings.Reservation(ReserveOp(f, id)).(completed := true)
  }

  function StartOp(f: Effort, id: Id): Tasks.TaskOp {
    Tasks.TransitionTask(id, InProgress, f.actorId, "started", f.at)
  }

  function Started(f: Effort, t: Task): Task {
    Transitioned(t, InProgress, f.actorId, "started", f.at)
  }

  /** Reserve, bind, merge, claim, release, review, start, complete. */
  function WorkThrough(f: Effort, id: Id): seq<Op> {
    [Binding(ReserveOp(f, id)), Binding(WorkBindings.CompleteWork(id, f.at)), Recording(MergedDraft(f)), Claiming(AcquireOp(f)),
     Claiming(Claims.Release(f.claimId, f.agentId, f.sessionId, f.at)), Recording(ReviewDraft(f)), Intending(StartOp(f, id)),
     Completing(Completion.CompleteTask(Bound(f, id), f.actorId, f.reason, f.at))]
  }

  function MergedDraft(f: Effort): Draft {
    Draft(ChangeSetKind, Named(ChangeSetOf(f)), ChangeSetPayload(f.merged), f.at)
  }

  function ReviewDraft(f: Effort): Draft {
    Draft(ReviewKind, Named(f.review.id), ReviewPayload(f.review), f.at)
  }

  function ReleasedAfterAcquire(f: Effort): Leases.Claim {
    Claims.ReleasedClaim(Claims.AcquiredClaim(AcquireOp(f)), Claims.Release(f.claimId, f.agentId, f.sessionId, f.at))
  }

  function WrittenThrough(f: Effort, t: Task): seq<Draft> {
    [WorkBindings.WorkDraft(WorkBindings.Reservation(ReserveOp(f, t.id)), f.at), WorkBindings.WorkDraft(Bound(f, t.id), f.at),
     MergedDraft(f), Claims.ClaimDraft(Claims.AcquiredClaim(AcquireOp(f))), Claims.ClaimDraft(ReleasedAfterAcquire(f)), ReviewDraft(f),
     Tasks.TaskDraft(Started(f, t)), Tasks.TaskDraft(Transitioned(Started(f, t), Done, f.actorId, f.reason, f.at))]
  }

  /** The effort suffices: its Change Set is merged, its review releasable, its lease acceptable and free. */
  ghost predicate Suffices(glob: Leases.Glob, log: seq<Entry>, f: Effort, t: Task) {
    && t.state == Todo && t.updatedAt <= f.at
    && WorkBindings.History(log, t.id) == []
    && f.merged.changeSet.state == ChangeSets.Merged
    && Completion.ObservedHead(f.merged).Some?
    && Completion.Releasable(f.review, ChangeSetOf(f), Completion.ObservedHead(f.merged).value)
    && Claims.LatestClaims(log).Some?
    && Claims.DecideAcquire(glob, Claims.LatestClaims(log).value, AcquireOp(f)).Write?
  }

  function After(log: seq<Entry>, d: Draft): seq<Entry> {
    log + [NextEntry(log, d)]
  }

  function Built(log: seq<Entry>, ds: seq<Draft>): seq<Entry> {
    if ds == [] then log else After(Built(log, ds[..|ds| - 1]), ds[|ds| - 1])
  }

  ghost predicate Writes(glob: Leases.Glob, log: seq<Entry>, round: seq<Op>, ds: seq<Draft>) {
    |round| == |ds| && forall i :: 0 <= i < |ds| ==> Decide(glob, round[i], Built(log, ds[..i])) == Write(ds[i])
  }

  lemma BuiltNext(log: seq<Entry>, ds: seq<Draft>, i: nat)
    requires i < |ds|
    ensures Built(log, ds[..i + 1]) == After(Built(log, ds[..i]), ds[i])
  {
    assert ds[..i + 1][..i] == ds[..i];
  }

  lemma {:induction false} WritesRun(glob: Leases.Glob, ops: seq<Op>, round: seq<Op>, ds: seq<Draft>, m: nat)
    requires Writes(glob, Run(glob, ops), round, ds) && m <= |round|
    ensures Run(glob, ops + round[..m]) == Built(Run(glob, ops), ds[..m])
  {
    hide Run, Decide, Built;
    if m == 0 {
      assert ops + round[..0] == ops && ds[..0] == [];
      NothingBuilt(Run(glob, ops));
    } else {
      WritesRun(glob, ops, round, ds, m - 1);
      assert round[..m][..m - 1] == round[..m - 1] && round[..m][m - 1] == round[m - 1];
      RunNext(glob, ops, round[..m]);
      BuiltNext(Run(glob, ops), ds, m - 1);
    }
  }

  lemma WorkDecides(log: seq<Entry>, f: Effort, id: Id)
    requires WorkBindings.History(log, id) == []
    ensures var r, b := WorkBindings.WorkDraft(WorkBindings.Reservation(ReserveOp(f, id)), f.at), WorkBindings.WorkDraft(Bound(f, id), f.at);
            && WorkBindings.Decide(ReserveOp(f, id), log) == Write(r)
            && WorkBindings.Decide(WorkBindings.CompleteWork(id, f.at), After(log, r)) == Write(b)
  {
    hide WorkBindings.History;
    var r := WorkBindings.WorkDraft(WorkBindings.Reservation(ReserveOp(f, id)), f.at);
    WorkBindings.HistoryAfter(log, NextEntry(log, r), id);
  }

  lemma ClaimDecides(glob: Leases.Glob, log: seq<Entry>, f: Effort)
    requires Claims.LatestClaims(log).Some?
    requires Claims.DecideAcquire(glob, Claims.LatestClaims(log).value, AcquireOp(f)).Write?
    ensures var a := Claims.ClaimDraft(Claims.AcquiredClaim(AcquireOp(f)));
            && Claims.Decide(glob, AcquireOp(f), log) == Write(a)
            && Claims.Decide(glob, Claims.Release(f.claimId, f.agentId, f.sessionId, f.at), After(log, a)) == Write(Claims.ClaimDraft(ReleasedAfterAcquire(f)))
            && ReleasedAfterAcquire(f).locks != [] && ReleasedAfterAcquire(f).changeSetId == ChangeSetOf(f)
            && (forall i :: 0 <= i < |ReleasedAfterAcquire(f).locks| ==> ReleasedAfterAcquire(f).locks[i].state == Leases.Released)
            && ReleasedAfterAcquire(f).id == f.claimId
  {
    hide Claims.LatestClaims, Claims.Blocked;
    var claim := Claims.AcquiredClaim(AcquireOp(f));
    Claims.LatestAfter(log, NextEntry(log, Claims.ClaimDraft(claim)));
    assert forall i :: 0 <= i < |claim.locks| ==> Leases.HoldsActiveLease(claim.locks[i], f.at);
    assert ReleasedAfterAcquire(f).locks != [];
    assert Leases.ClaimAccepted(ReleasedAfterAcquire(f));
  }

  lemma {:induction false} BuiltJoin(log: seq<Entry>, ds: seq<Draft>, i: nat, n: nat)
    requires i <= n <= |ds|
    ensures Built(log, ds[..n]) == Built(Built(log, ds[..i]), ds[i..n])
  {
    if i < n {
      BuiltJoin(log, ds, i, n - 1);
      BuiltNext(log, ds, n - 1);
      var tail := ds[i..n];
      assert tail[..|tail| - 1] == ds[i..n - 1] && tail[|tail| - 1] == ds[n - 1];
    }
  }

  /** Records of other kinds do not change what is latest of a kind. */
  lemma {:induction false} Passes(log: seq<Entry>, ds: seq<Draft>, kind: Kind, name: Id)
    requires forall i :: 0 <= i < |ds| ==> ds[i].kind != kind
    ensures Completion.LatestEntry(Built(log, ds), kind, name, None) == Completion.LatestEntry(log, kind, name, None)
  {
    hide Completion.LatestEntry;
    if ds != [] {
      var n := |ds| - 1;
      Passes(log, ds[..n], kind, name);
      Completion.LatestAfter(Built(log, ds[..n]), NextEntry(Built(log, ds[..n]), ds[n]), kind, name);
    }
  }

  lemma {:induction false} PassesClaimsAndTasks(log: seq<Entry>, ds: seq<Draft>)
    ensures Claims.LatestClaims(log).Some? && (forall i :: 0 <= i < |ds| ==> ds[i].kind != ClaimKind) ==>
              Claims.LatestClaims(Built(log, ds)) == Claims.LatestClaims(log)
    ensures Tasks.LatestTasks(log).Some? && (forall i :: 0 <= i < |ds| ==> ds[i].kind != TaskKind) ==>
              Tasks.LatestTasks(Built(log, ds)) == Tasks.LatestTasks(log)
  {
    hide Claims.LatestClaims, Tasks.LatestTasks;
    if ds != [] {
      var n := |ds| - 1;
      PassesClaimsAndTasks(log, ds[..n]);
      var before := Built(log, ds[..n]);
      Claims.LatestAfter(before, NextEntry(before, ds[n]));
      if Tasks.LatestTasks(before).Some? {
        Tasks.TasksAfter(before, NextEntry(before, ds[n]));
      }
    }
  }

  lemma ReviewAfter(log: seq<Entry>, d: Draft, changeSetId: Id)
    ensures Completion.LastReview(After(log, d), changeSetId, None)
            == if d.kind == ReviewKind && d.payload.ReviewPayload? && d.payload.review.changeSetId == changeSetId
               then Some(d.payload.review) else Completion.LastReview(log, changeSetId, None)
  {
    assert After(log, d)[..|log|] == log;
  }

  /** What the completion service finds after the effort. */
  ghost predicate Ready(log: seq<Entry>, f: Effort, started: Task, claim: Leases.Claim) {
    && Latest(log, WorkKind, started.id, WorkPayload(Bound(f, started.id)))
    && Latest(log, TaskKind, started.id, TaskPayload(started))
    && Latest(log, ChangeSetKind, ChangeSetOf(f), ChangeSetPayload(f.merged))
    && Latest(log, ClaimKind, f.claimId, ClaimPayload(claim))
    && Completion.LastReview(log, ChangeSetOf(f), None) == Some(f.review)
  }

  ghost predicate Latest(log: seq<Entry>, kind: Kind, name: Id, p: Payload) {
    var e := Completion.LatestEntry(log, kind, name, None);
    e.Some? && e.value.draft.payload == p
  }

  lemma ReadyDecides(log: seq<Entry>, f: Effort, started: Task, claim: Leases.Claim)
    requires Ready(log, f, started, claim) && started.state == InProgress && started.updatedAt <= f.at
    requires f.merged.changeSet.state == ChangeSets.Merged && Completion.ObservedHead(f.merged).Some?
    requires Completion.Releasable(f.review, ChangeSetOf(f), Completion.ObservedHead(f.merged).value)
    requires claim.changeSetId == ChangeSetOf(f) && claim.agentId == f.agentId && claim.sessionId == f.sessionId && claim.locks != []
    requires forall i :: 0 <= i < |claim.locks| ==> claim.locks[i].state == Leases.Released
    ensures Completion.Decide(Completion.CompleteTask(Bound(f, started.id), f.actorId, f.reason, f.at), log)
            == Write(Tasks.TaskDraft(Transitioned(started, Done, f.actorId, f.reason, f.at)))
  {
    hide Completion.LatestEntry, Completion.LastReview, Completion.Releasable, Completion.ObservedHead;
    Completion.ReleasedIsReleased(claim, f.at);
  }

  lemma Appears(log: seq<Entry>, ds: seq<Draft>, i: nat, n: nat, name: Id)
    requires i < n <= |ds| && ds[i].entity == Named(name)
    requires forall j :: i < j < n ==> ds[j].kind != ds[i].kind
    ensures Latest(Built(log, ds[..n]), ds[i].kind, name, ds[i].payload)
  {
    hide Completion.LatestEntry;
    BuiltNext(log, ds, i);
    BuiltJoin(log, ds, i + 1, n);
    var before := Built(log, ds[..i]);
    Completion.LatestAfter(before, NextEntry(before, ds[i]), ds[i].kind, name);
    Passes(Built(log, ds[..i + 1]), ds[i + 1..n], ds[i].kind, name);
  }

  lemma EffortIsReady(glob: Leases.Glob, log: seq<Entry>, f: Effort, t: Task)
    requires Suffices(glob, log, f, t) && ReleasedAfterAcquire(f).id == f.claimId
    ensures Ready(Built(log, WrittenThrough(f, t)[..7]), f, Started(f, t), ReleasedAfterAcquire(f))
  {
    hide Built, Latest, Completion.LastReview, ReleasedAfterAcquire, Claims.AcquiredClaim, Claims.DecideAcquire, Completion.Releasable;
    var ds := WrittenThrough(f, t);
    Appears(log, ds, 1, 7, t.id);
    Appears(log, ds, 2, 7, ChangeSetOf(f));
    Appears(log, ds, 4, 7, f.claimId);
    Appears(log, ds, 6, 7, t.id);
    BuiltNext(log, ds, 5);
    BuiltNext(log, ds, 6);
    ReviewAfter(Built(log, ds[..5]), ds[5], ChangeSetOf(f));
    ReviewAfter(Built(log, ds[..6]), ds[6], ChangeSetOf(f));
    assert f.review.changeSetId == ChangeSetOf(f) by { ReviewIsOf(f); }
  }

  lemma ReviewIsOf(f: Effort)
    requires Completion.ObservedHead(f.merged).Some?
    requires Completion.Releasable(f.review, ChangeSetOf(f), Completion.ObservedHead(f.merged).value)
    ensures f.review.changeSetId == ChangeSetOf(f)
  {
  }

  lemma FirstFive(glob: Leases.Glob, log: seq<Entry>, f: Effort, t: Task)
    requires Suffices(glob, log, f, t)
    ensures var round, ds := WorkThrough(f, t.id), WrittenThrough(f, t);
            && (forall i :: 0 <= i < 6 ==> Decide(glob, round[i], Built(log, ds[..i])) == Write(ds[i]))
            && ReleasedAfterAcquire(f).id == f.claimId && ReleasedAfterAcquire(f).locks != []
            && (forall i :: 0 <= i < |ReleasedAfterAcquire(f).locks| ==> ReleasedAfterAcquire(f).locks[i].state == Leases.Released)
  {
    hide Built, Claims.Decide, WorkBindings.Decide, ReleasedAfterAcquire, Claims.AcquiredClaim, Claims.DecideAcquire, Completion.Releasable;
    hide Claims.LatestClaims, WorkBindings.History;
    var ds := WrittenThrough(f, t);
    assert ds[..0] == [];
    NothingBuilt(log);
    BuiltNext(log, ds, 0);
    BuiltNext(log, ds, 3);
    WorkDecides(log, f, t.id);
    PassesClaimsAndTasks(log, ds[..3]);
    ClaimDecides(glob, Built(log, ds[..3]), f);
  }

  lemma NothingBuilt(log: seq<Entry>)
    ensures Built(log, []) == log
  {
  }

  lemma StartDecides(log: seq<Entry>, f: Effort, t: Task)
    requires Tasks.LatestTasks(log).Some? && t.id in Tasks.LatestTasks(log).value && Tasks.LatestTasks(log).value[t.id] == t
    requires t.state == Todo && t.updatedAt <= f.at
    ensures Tasks.Decide(StartOp(f, t.id), log) == Write(Tasks.TaskDraft(Started(f, t)))
  {
    hide Tasks.LatestTasks;
  }

  lemma LastTwo(glob: Leases.Glob, log: seq<Entry>, f: Effort, t: Task)
    requires Suffices(glob, log, f, t)
    requires Tasks.LatestTasks(log).Some? && t.id in Tasks.LatestTasks(log).value && Tasks.LatestTasks(log).value[t.id] == t
    ensures var round, ds := WorkThrough(f, t.id), WrittenThrough(f, t);
            && Decide(glob, round[6], Built(log, ds[..6])) == Write(ds[6])
            && Decide(glob, round[7], Built(log, ds[..7])) == Write(ds[7])
  {
    hide Built, Tasks.Decide, Completion.Decide, Claims.DecideAcquire, Completion.Releasable, Tasks.LatestTasks, Claims.LatestClaims, Ready;
    hide WorkBindings.History;
    var ds := WrittenThrough(f, t);
    FirstFive(glob, log, f, t);
    PassesClaimsAndTasks(log, ds[..6]);
    StartDecides(Built(log, ds[..6]), f, t);
    EffortIsReady(glob, log, f, t);
    OwnersStay(f);
    ReadyDecides(Built(log, ds[..7]), f, Started(f, t), ReleasedAfterAcquire(f));
  }

  lemma OwnersStay(f: Effort)
    ensures ReleasedAfterAcquire(f).changeSetId == ChangeSetOf(f)
    ensures ReleasedAfterAcquire(f).agentId == f.agentId && ReleasedAfterAcquire(f).sessionId == f.sessionId
  {
  }

  lemma EffortWrites(glob: Leases.Glob, log: seq<Entry>, f: Effort, t: Task)
    requires Suffices(glob, log, f, t)
    requires Tasks.LatestTasks(log).Some? && t.id in Tasks.LatestTasks(log).value && Tasks.LatestTasks(log).value[t.id] == t
    ensures Writes(glob, log, WorkThrough(f, t.id), WrittenThrough(f, t))
  {
    hide Built, Decide, Suffices, Tasks.LatestTasks;
    FirstFive(glob, log, f, t);
    LastTwo(glob, log, f, t);
    var round, ds := WorkThrough(f, t.id), WrittenThrough(f, t);
    forall i | 0 <= i < 8
      ensures Decide(glob, round[i], Built(log, ds[..i])) == Write(ds[i])
    {
      assert i < 6 || i == 6 || i == 7;
    }
  }

  lemma EffortTends(glob: Leases.Glob, ops: seq<Op>, f: Effort, t: Task)
    requires Writes(glob, Run(glob, ops), WorkThrough(f, t.id), WrittenThrough(f, t))
    ensures Tends(glob, ops, WorkThrough(f, t.id), t.id)
  {
    hide Built, Decide, Run, Claims.AcquiredClaim, ReleasedAfterAcquire;
    var round, ds := WorkThrough(f, t.id), WrittenThrough(f, t);
    forall m | 0 <= m < |round|
      ensures TendsAt(glob, ops, round, t.id, m)
    {
      WritesRun(glob, ops, round, ds, m);
      assert TouchesOnly(ds[m], t.id);
    }
  }

  /**
   * A todo task that is the first choice can always be taken to done by its own effort: reserve,
   * bind, merge, claim, release, review, start and complete are a round.
   */
  lemma EffortIsRound(glob: Leases.Glob, ops: seq<Op>, id: Id, f: Effort)
    requires FirstChoice(PlanAfter(glob, ops), id) && id in PlanAfter(glob, ops).tasks
    requires Suffices(glob, Run(glob, ops), f, PlanAfter(glob, ops).tasks[id])
    ensures Round(glob, ops, WorkThrough(f, id), id)
  {
    hide Built, Run, PlanAfter, Writes, Tends, Suffices, FirstChoice, Sound, Consistent, ReferencesExist, Acyclic, Tasks.LatestTasks;
    PlanAfterIs(glob, ops);
    var t := PlanAfter(glob, ops).tasks[id];
    assert t.id == id by { NamedById(PlanAfter(glob, ops), id); }
    var log := Run(glob, ops);
    EffortWrites(glob, log, f, t);
    EffortTends(glob, ops, f, t);
    var round, ds := WorkThrough(f, id), WrittenThrough(f, t);
    assert round[..8] == round && ds[..8] == ds;
    PlanAfterIs(glob, ops + round);
    DoneAtLast(glob, ops, f, t);
  }

  lemma NamedById(p: Plan, id: Id)
    requires Consistent(p) && id in p.tasks
    ensures p.tasks[id].id == id
  {
  }

  lemma DoneAtLast(glob: Leases.Glob, ops: seq<Op>, f: Effort, t: Task)
    requires Writes(glob, Run(glob, ops), WorkThrough(f, t.id), WrittenThrough(f, t))
    ensures var after := Tasks.LatestTasks(Run(glob, ops + WorkThrough(f, t.id)));
            after.Some? && t.id in after.value && after.value[t.id].state == Done
  {
    hide Built, Run, Writes, Tasks.LatestTasks, Sound, Consistent, ReferencesExist, Acyclic, Claims.AcquiredClaim, ReleasedAfterAcquire;
    var round, ds := WorkThrough(f, t.id), WrittenThrough(f, t);
    var log := Run(glob, ops);
    WritesRun(glob, ops, round, ds, 7);
    WritesRun(glob, ops, round, ds, 8);
    assert round[..8] == round;
    PlanAfterIs(glob, ops + round[..7]);
    BuiltNext(log, ds, 7);
    var before := Built(log, ds[..7]);
    Tasks.TasksAfter(before, NextEntry(before, ds[7]));
  }
}
