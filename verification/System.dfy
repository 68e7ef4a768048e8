/**
 * All services over one ledger. A run is any sequence of operations, each deciding on the ledger
 * the ones before it left; by `Serial`, so is any interleaving of their clients.
 */
module Services {
  import opened Common
  import opened Records
  import opened Chain
  import opened Decisions
  import opened TaskIntents
  import Leases
  import Claims
  import Tasks
  import WorkBindings
  import Completion
  import Graphs
  import Planning
  import Serial

  datatype Op =
    | Claiming(claim: Claims.ClaimOp)
    | Intending(task: Tasks.TaskOp)
    | Binding(work: WorkBindings.WorkOp)
    | Completing(complete: Completion.CompleteOp)
    | Recording(draft: Draft)   // Change Sets, reviews, receipts and everything else

  predicate IsGuarded(kind: Kind) {
    kind == ClaimKind || kind == TaskKind || kind == DependencyKind || kind == ConflictKind || kind == WorkKind
  }

  /** Each kind of record is written by its own service only. */
  ghost function Decide(glob: Leases.Glob, op: Op, log: seq<Entry>): Decision<Refusal> {
    match op
    case Claiming(o) => Claims.Decide(glob, o, log)
    case Intending(o) => Tasks.Decide(o, log)
    case Binding(o) => WorkBindings.Decide(o, log)
    case Completing(o) => Completion.Decide(o, log)
    case Recording(d) => if IsGuarded(d.kind) then Refuse(Malformed) else Write(d)
  }

  ghost function Apply(glob: Leases.Glob, log: seq<Entry>, op: Op): seq<Entry> {
    match Decide(glob, op, log)
    case Write(d) => log + [NextEntry(log, d)]
    case _ => log
  }

  ghost function Run(glob: Leases.Glob, ops: seq<Op>): seq<Entry> {
    if ops == [] then [] else Apply(glob, Run(glob, ops[..|ops| - 1]), ops[|ops| - 1])
  }

  // ----- interleavings

  ghost function Decider(glob: Leases.Glob): (Op, seq<Entry>) -> Decision<Refusal> {
    (op, log) => Decide(glob, op, log)
  }

  function OpsOf(history: seq<Serial.Done<Op, Refusal>>): seq<Op> {
    seq(|history|, i requires 0 <= i < |history| => history[i].op)
  }

  lemma {:induction false} SerialIsRun(glob: Leases.Glob, history: seq<Serial.Done<Op, Refusal>>)
    ensures Serial.SerialRun(Decider(glob), [], history) == Run(glob, OpsOf(history))
  {
    if history != [] {
      var n := |history| - 1;
      SerialIsRun(glob, history[..n]);
      assert OpsOf(history)[..n] == OpsOf(history[..n]);
      assert OpsOf(history)[n] == history[n].op;
    }
  }

  /** Whatever the clients of all services interleave, the ledger is that of a run. */
  lemma InterleavingsAreRuns(glob: Leases.Glob, events: seq<Serial.Event<Op>>)
    ensures var w := Serial.Execute(Decider(glob), [], events);
            && w.log == Run(glob, OpsOf(w.history))
            && Serial.DecidedSerially(Decider(glob), [], w.history)
  {
    Serial.InterleavingsAreSerial(Decider(glob), [], events);
    SerialIsRun(glob, Serial.Execute(Decider(glob), [], events).history);
  }

  // ----- the invariant

  predicate IsDone(e: Entry) {
    e.draft.kind == TaskKind && e.draft.payload.TaskPayload? && e.draft.payload.task.state == Done
  }

  /** Entry `n` finished a task on a ledger that proved its work, and nothing has touched it since. */
  ghost predicate Justified(log: seq<Entry>, n: nat, b: WorkBinding, p: Completion.Proof)
    requires n < |log| && IsDone(log[n])
  {
    var task := log[n].draft.payload.task;
    && task.id == b.taskId
    && Completion.Proves(log[..n], b, p) && p.task.state == InProgress
    && task.events != []
    && (var last := task.events[|task.events| - 1];
        task == p.task.(state := Done, updatedAt := last.at,
                        events := p.task.events + [StateEvent(InProgress, Done, last.actorId, last.rationale, last.at)]))
    && p.task.updatedAt <= task.updatedAt
    && Completion.CurrentBinding(log, b)
    && Completion.LatestEntry(log, TaskKind, b.taskId, None) == Some(log[n])
  }

  ghost predicate JustifiedAt(log: seq<Entry>, n: nat)
    requires n < |log|
  {
    IsDone(log[n]) ==> exists b, p :: Justified(log, n, b, p)
  }

  ghost predicate DoneOk(log: seq<Entry>) {
    forall n :: 0 <= n < |log| ==> JustifiedAt(log, n)
  }

  ghost predicate Sound(log: seq<Entry>) {
    && ValidChain(log)
    && Tasks.PlanOk(log)
    && WorkBindings.BindingsOk(log)
    && DoneOk(log)
  }

  /** What a step writes as far as completed tasks are concerned. */
  ghost predicate Harmless(log: seq<Entry>, d: Draft) {
    && (d.kind == TaskKind ==>
          && d.payload.TaskPayload? && d.entity == Named(d.payload.task.id)
          && Tasks.LatestTasks(log).Some?
          && (d.payload.task.id in Tasks.LatestTasks(log).value ==>
                Tasks.LatestTasks(log).value[d.payload.task.id].state != Done))
    && (d.kind == WorkKind ==>
          forall taskId :: d.entity == Named(taskId) ==>
            var h := WorkBindings.History(log, taskId); h != [] ==> WorkBindings.Last(h).WorkPayload? && !WorkBindings.Last(h).binding.completed)
  }

  /** A harmless entry leaves a justified completion justified. */
  lemma JustifiedStays(log: seq<Entry>, e: Entry, n: nat, b: WorkBinding, p: Completion.Proof)
    requires Tasks.PlanOk(log) && n < |log| && IsDone(log[n]) && Justified(log, n, b, p) && Harmless(log, e.draft)
    ensures Justified(log + [e], n, b, p)
  {
    hide Completion.Proves, Completion.LatestEntry, Tasks.LatestTasks, WorkBindings.History, Tasks.Relations;
    hide Graphs.Acyclic, ValidHistory;
    assert (log + [e])[..n] == log[..n];
    Completion.LatestAfter(log, e, TaskKind, b.taskId);
    Completion.LatestAfter(log, e, WorkKind, b.taskId);
    Completion.LatestTaskEntry(log, b.taskId);
    Completion.LatestWorkEntry(log, b.taskId);
  }

  lemma EarlierStayJustified(log: seq<Entry>, e: Entry)
    requires Tasks.PlanOk(log) && DoneOk(log) && Harmless(log, e.draft)
    ensures forall n :: 0 <= n < |log| ==> JustifiedAt(log + [e], n)
  {
    hide Justified, Tasks.PlanOk, Harmless;
    forall n | 0 <= n < |log|
      ensures JustifiedAt(log + [e], n)
    {
      assert JustifiedAt(log, n);
      if IsDone(log[n]) {
        var b, p :| Justified(log, n, b, p);
        JustifiedStays(log, e, n, b, p);
      }
    }
  }

  lemma HarmlessKeepsDone(log: seq<Entry>, e: Entry)
    requires Tasks.PlanOk(log) && DoneOk(log) && Harmless(log, e.draft) && !IsDone(e)
    ensures DoneOk(log + [e])
  {
    hide JustifiedAt, Tasks.PlanOk, Harmless;
    EarlierStayJustified(log, e);
    assert JustifiedAt(log + [e], |log|) by { NotDone(log + [e], |log|); }
  }

  lemma NotDone(log: seq<Entry>, n: nat)
    requires n < |log| && !IsDone(log[n])
    ensures JustifiedAt(log, n)
  {
  }

  // ----- every step

  lemma CompletingHarmless(log: seq<Entry>, op: Completion.CompleteOp)
    requires Tasks.PlanOk(log) && WorkBindings.BindingsOk(log) && Completion.Decide(op, log).Write?
    ensures Harmless(log, Completion.Decide(op, log).draft)
    ensures Tasks.PlanOk(log + [NextEntry(log, Completion.Decide(op, log).draft)])
  {
    hide Completion.Proves, Completion.LatestEntry, Tasks.LatestTasks, WorkBindings.History, Tasks.Relations;
    hide Graphs.Acyclic, ValidHistory, Completion.ProofFrom;
    Completion.CompletionIsProven(op, log);
    var p := Completion.ProofFrom(log, op.binding, op.at, true).value;
    assert p.task.id == op.binding.taskId by { ProvesItsTask(log, op.binding, p); }
    Completion.LatestTaskEntry(log, op.binding.taskId);
    TransitionKeepsHistory(p.task, Done, op.actorId, op.reason, op.at);
    Tasks.TaskVersionKeepsPlan(log, NextEntry(log, Completion.Decide(op, log).draft));
  }

  lemma ProvesItsTask(log: seq<Entry>, b: WorkBinding, p: Completion.Proof)
    requires Completion.Proves(log, b, p)
    ensures p.task.id == b.taskId && Completion.CurrentBinding(log, b)
  {
    hide Completion.Stands, Completion.ReviewStands, Completion.LatestEntry;
    Completion.LatestStands(log, WorkKind, b.taskId, WorkPayload(b.(completed := true)));
  }

  lemma CompletingKeepsDone(log: seq<Entry>, op: Completion.CompleteOp)
    requires Tasks.PlanOk(log) && WorkBindings.BindingsOk(log) && DoneOk(log) && Completion.Decide(op, log).Write?
    ensures DoneOk(log + [NextEntry(log, Completion.Decide(op, log).draft)])
  {
    hide Completion.Proves, Completion.LatestEntry, Tasks.PlanOk, Harmless, DoneOk, Completion.ProofFrom;
    CompletingHarmless(log, op);
    Completion.CompletionIsProven(op, log);
    var p := Completion.ProofFrom(log, op.binding, op.at, true).value;
    var e := NextEntry(log, Completion.Decide(op, log).draft);
    ProvesItsTask(log, op.binding, p);
    EarlierStayJustified(log, e);
    assert (log + [e])[..|log|] == log;
    Completion.LatestAfter(log, e, TaskKind, op.binding.taskId);
    Completion.LatestAfter(log, e, WorkKind, op.binding.taskId);
    assert Justified(log + [e], |log|, op.binding, p);
    assert JustifiedAt(log + [e], |log|);
    assert DoneOk(log + [e]) by { DoneOkFrom(log, e); }
  }

  lemma DoneOkFrom(log: seq<Entry>, e: Entry)
    requires forall n :: 0 <= n < |log| ==> JustifiedAt(log + [e], n)
    requires JustifiedAt(log + [e], |log|)
    ensures DoneOk(log + [e])
  {
    hide JustifiedAt;
  }

  lemma IntendingHarmless(log: seq<Entry>, op: Tasks.TaskOp)
    requires Tasks.PlanOk(log) && Tasks.Decide(op, log).Write?
    ensures var d := Tasks.Decide(op, log).draft;
            Harmless(log, d) && !IsDone(NextEntry(log, d)) && d.kind != WorkKind && d.kind != ClaimKind
  {
    hide Tasks.LatestTasks, Tasks.Relations, Graphs.Acyclic, Graphs.Reach, ValidHistory;
  }

  lemma BindingHarmless(log: seq<Entry>, op: WorkBindings.WorkOp)
    requires WorkBindings.BindingsOk(log) && WorkBindings.Decide(op, log).Write?
    ensures var d := WorkBindings.Decide(op, log).draft; Harmless(log, d) && d.kind == WorkKind
  {
    hide WorkBindings.History;
    assert WorkBindings.OneBinding(WorkBindings.History(log, op.taskId), op.taskId);
  }

  lemma StepKeepsDone(glob: Leases.Glob, log: seq<Entry>, op: Op)
    requires Sound(log) && Decide(glob, op, log).Write?
    ensures DoneOk(log + [NextEntry(log, Decide(glob, op, log).draft)])
  {
    hide DoneOk, Tasks.PlanOk, WorkBindings.BindingsOk, Claims.Decide, Tasks.Decide, WorkBindings.Decide, Completion.Decide;
    var e := NextEntry(log, Decide(glob, op, log).draft);
    match op
    case Claiming(o) =>
      Claims.WritesAClaim(glob, o, log);
      HarmlessKeepsDone(log, e);
    case Intending(o) =>
      IntendingHarmless(log, o);
      HarmlessKeepsDone(log, e);
    case Binding(o) =>
      BindingHarmless(log, o);
      HarmlessKeepsDone(log, e);
    case Completing(o) =>
      CompletingKeepsDone(log, o);
    case Recording(d) =>
      HarmlessKeepsDone(log, e);
  }

  lemma StepKeepsPlanAndBindings(glob: Leases.Glob, log: seq<Entry>, op: Op)
    requires Sound(log) && Decide(glob, op, log).Write?
    ensures var next := log + [NextEntry(log, Decide(glob, op, log).draft)];
            Tasks.PlanOk(next) && WorkBindings.BindingsOk(next)
  {
    hide DoneOk, Tasks.PlanOk, WorkBindings.BindingsOk, Claims.Decide, Tasks.Decide, WorkBindings.Decide, Completion.Decide;
    var e := NextEntry(log, Decide(glob, op, log).draft);
    match op
    case Claiming(o) =>
      Claims.WritesAClaim(glob, o, log);
      Tasks.OutsideKeepsPlan(log, e);
      WorkBindings.OutsideKeepsBindings(log, e);
    case Intending(o) =>
      IntendingHarmless(log, o);
      Tasks.TaskOpKeepsPlan(log, o);
      WorkBindings.OutsideKeepsBindings(log, e);
    case Binding(o) =>
      BindingHarmless(log, o);
      Tasks.OutsideKeepsPlan(log, e);
      WorkBindings.WorkOpKeepsBindings(log, o);
    case Completing(o) =>
      CompletingHarmless(log, o);
      Completion.CompletionIsProven(o, log);
      WorkBindings.OutsideKeepsBindings(log, e);
    case Recording(d) =>
      Tasks.OutsideKeepsPlan(log, e);
      WorkBindings.OutsideKeepsBindings(log, e);
  }

  /** Every reachable ledger is a chain with a sound plan, fixed bindings and proven completions. */
  lemma {:induction false} RunIsSound(glob: Leases.Glob, ops: seq<Op>)
    ensures Sound(Run(glob, ops))
  {
    hide DoneOk, Tasks.PlanOk, WorkBindings.BindingsOk, Decide;
    if ops == [] {
      Tasks.EmptyPlanOk();
      assert Sound([]) by { EmptySound(); }
    } else {
      var log, op := Run(glob, ops[..|ops| - 1]), ops[|ops| - 1];
      RunIsSound(glob, ops[..|ops| - 1]);
      if Decide(glob, op, log).Write? {
        AppendValid(log, Decide(glob, op, log).draft);
        StepKeepsDone(glob, log, op);
        StepKeepsPlanAndBindings(glob, log, op);
      }
    }
  }

  lemma EmptySound()
    ensures Sound([])
  {
    Tasks.EmptyPlanOk();
  }

  /**
   * A task that is done in some reachable ledger was proven there, stays its task's last word, and
   * its proof evaluates to the same Change Set, claim and review in that ledger at any later time.
   */
  lemma DoneStaysProven(glob: Leases.Glob, ops: seq<Op>, n: nat)
    requires n < |Run(glob, ops)| && IsDone(Run(glob, ops)[n])
    ensures var log := Run(glob, ops);
            exists b, p ::
              && Justified(log, n, b, p) && Completion.IsLast(log, n, TaskKind, b.taskId)
              && forall at, released :: Completion.ProofFrom(log, b, at, released) == Ok(p.(task := log[n].draft.payload.task))
  {
    hide Completion.Proves, Completion.LatestEntry, Completion.CurrentBinding, Completion.ProofFrom, Transitioned;
    hide Tasks.PlanOk, WorkBindings.BindingsOk;
    var log := Run(glob, ops);
    RunIsSound(glob, ops);
    assert JustifiedAt(log, n);
    var b, p :| Justified(log, n, b, p);
    Completion.LatestIsLast(log, n, TaskKind, b.taskId);
    forall at, released
      ensures Completion.ProofFrom(log, b, at, released) == Ok(p.(task := log[n].draft.payload.task))
    {
      Completion.ProofIsStable(log, n, b, p, at, released);
    }
  }

  /** Once bound, a task keeps its Change Set, claim, agent and session over every later run. */
  lemma BindingIsForever(glob: Leases.Glob, ops: seq<Op>, m: nat, taskId: Id)
    requires m <= |ops| && WorkBindings.History(Run(glob, ops[..m]), taskId) != []
    ensures WorkBindings.History(Run(glob, ops), taskId) != []
    ensures var before := WorkBindings.Last(WorkBindings.History(Run(glob, ops[..m]), taskId));
            var after := WorkBindings.Last(WorkBindings.History(Run(glob, ops), taskId));
            && before.WorkPayload? && after.WorkPayload?
            && WorkBindings.SameIdentity(before.binding, after.binding) && after.binding.taskId == taskId
            && (before.binding.completed ==> after.binding == before.binding)
  {
    hide Run, WorkBindings.History, WorkBindings.BindingsOk, Tasks.PlanOk, DoneOk, ValidChain;
    var before, after := Run(glob, ops[..m]), Run(glob, ops);
    RunIsSound(glob, ops[..m]);
    RunIsSound(glob, ops);
    RunGrows(glob, ops, m);
    assert before == after[..|before|];
    WorkBindings.IdentityNeverChanges(after, |before|, taskId);
  }

  lemma {:induction false} RunGrows(glob: Leases.Glob, ops: seq<Op>, m: nat)
    requires m <= |ops|
    ensures Run(glob, ops[..m]) <= Run(glob, ops)
  {
    hide Decide;
    if m == |ops| {
      assert ops[..m] == ops;
    } else {
      var shorter := ops[..|ops| - 1];
      assert shorter[..m] == ops[..m];
      RunGrows(glob, shorter, m);
      assert Run(glob, shorter) <= Run(glob, ops);
    }
  }

  /** In every reachable plan that nobody is working on, something can start while work is left. */
  lemma ReachablePlansNeverDeadlock(glob: Leases.Glob, ops: seq<Op>)
    ensures Planning.PlanOf(Run(glob, ops)).Some?
    ensures var p := Planning.PlanOf(Run(glob, ops)).value;
            && Graphs.Acyclic(p.dependencies)
            && ((forall id :: id in p.tasks ==> p.tasks[id].state in {Idea, Todo, Done}) ==>
                  Planning.Idle(p) && (Planning.Unfinished(p) != {} ==> exists id :: Planning.Eligible(p, id)))
  {
    hide Tasks.PlanOk, WorkBindings.BindingsOk, DoneOk, ValidChain, Planning.PlanOf, Run, Graphs.Acyclic, Planning.Eligible;
    RunIsSound(glob, ops);
    Planning.SoundLedgerPlans(Run(glob, ops));
    var p := Planning.PlanOf(Run(glob, ops)).value;
    if (forall id :: id in p.tasks ==> p.tasks[id].state in {Idea, Todo, Done}) && Planning.Unfinished(p) != {} {
      Planning.NeverDeadlocks(p);
    }
  }

  // ----- exclusion of claims

  lemma OnlyClaimsWriteClaims(glob: Leases.Glob, log: seq<Entry>, op: Op)
    requires Sound(log) && Decide(glob, op, log).Write? && !op.Claiming?
    ensures Decide(glob, op, log).draft.kind != ClaimKind
  {
    hide DoneOk, Tasks.PlanOk, WorkBindings.BindingsOk, Tasks.Decide, WorkBindings.Decide, Completion.Decide, ValidChain;
    match op
    case Intending(o) => IntendingHarmless(log, o);
    case Binding(o) => BindingHarmless(log, o);
    case Completing(o) => Completion.CompletionIsProven(o, log);
    case Recording(d) =>
  }

  lemma ClaimingDecides(glob: Leases.Glob, log: seq<Entry>, op: Op)
    requires op.Claiming?
    ensures Decide(glob, op, log) == Claims.Decide(glob, op.claim, log)
  {
    hide Claims.Decide;
  }

  /** The claims of a ledger, each with its own name, lock names and one state for all its locks. */
  ghost predicate ClaimsKept(log: seq<Entry>) {
    Claims.LatestClaims(log).Some? && Claims.AllWellKept(Claims.LatestClaims(log).value)
  }

  /** Whatever the operation times, every claim of every reachable ledger is well kept. */
  lemma {:induction false} RunKeepsClaims(glob: Leases.Glob, ops: seq<Op>)
    ensures ClaimsKept(Run(glob, ops))
  {
    hide Decide, Claims.LatestClaims, Claims.AllWellKept, Claims.Decide, Sound;
    if ops == [] {
      assert ClaimsKept([]) by { NoClaims(glob, 0); }
    } else {
      var log, op := Run(glob, ops[..|ops| - 1]), ops[|ops| - 1];
      RunKeepsClaims(glob, ops[..|ops| - 1]);
      RunIsSound(glob, ops[..|ops| - 1]);
      if Decide(glob, op, log).Write? {
        if op.Claiming? {
          ClaimingDecides(glob, log, op);
          Claims.WrittenIsKept(glob, op.claim, log);
        } else {
          OnlyClaimsWriteClaims(glob, log, op);
          Claims.LatestAfter(log, NextEntry(log, Decide(glob, op, log).draft));
        }
      }
    }
  }

  /** In every reachable ledger the locks of a claim agree at any time: its state is always defined. */
  lemma ClaimStateIsDefined(glob: Leases.Glob, ops: seq<Op>, id: Id, at: Time)
    requires Claims.LatestClaims(Run(glob, ops)).Some? && id in Claims.LatestClaims(Run(glob, ops)).value
    ensures Leases.ClaimStateAt(Claims.LatestClaims(Run(glob, ops)).value[id], at).Some?
  {
    hide Run, Claims.LatestClaims, Claims.WellKept, Leases.ClaimStateAt;
    RunKeepsClaims(glob, ops);
    Claims.LocksAgree(id, Claims.LatestClaims(Run(glob, ops)).value[id], at);
  }

  /** After every run each claim operation that is written obtains exactly what it asked for. */
  lemma RunsObtain(glob: Leases.Glob, ops: seq<Op>, op: Claims.ClaimOp)
    requires Claims.Decide(glob, op, Run(glob, ops)).Write?
    ensures Claims.LatestClaims(Run(glob, ops)).Some? && Claims.Decide(glob, op, Run(glob, ops)).draft.payload.ClaimPayload?
    ensures Claims.Obtains(op, Claims.LatestClaims(Run(glob, ops)).value, Claims.Decide(glob, op, Run(glob, ops)).draft.payload.claim)
  {
    hide Run, Claims.LatestClaims, Claims.AllWellKept, Claims.Decide, Claims.Obtains;
    RunKeepsClaims(glob, ops);
    Claims.WritesObtain(glob, op, Run(glob, ops));
  }

  /** A renewal that takes what another claim holds at the latest time so far. */
  ghost predicate Encroaches(glob: Leases.Glob, log: seq<Entry>, op: Op) {
    op.Claiming? && Claims.Encroaches(glob, op.claim, log)
  }

  lemma OutsideSettles(glob: Leases.Glob, log: seq<Entry>, e: Entry)
    requires Claims.Settled(glob, log) && e.draft.kind != ClaimKind
    ensures Claims.Settled(glob, log + [e])
  {
    hide Claims.Exclusive, Claims.AllWellKept, Claims.LatestClaims, Claims.NotAfter;
    Claims.LatestAfter(log, e);
    forall now | Claims.NotAfter(log + [e], now)
      ensures Claims.NotAfter(log, now)
    {
      Claims.NotAfterNext(log, e, now);
    }
  }

  lemma StepSettlesIff(glob: Leases.Glob, log: seq<Entry>, op: Op)
    requires Sound(log) && Claims.Settled(glob, log)
    ensures Claims.Settled(glob, Apply(glob, log, op)) <==> !Encroaches(glob, log, op)
  {
    hide Sound, Claims.Settled, Decide, Claims.Decide;
    if op.Claiming? {
      ClaimingDecides(glob, log, op);
      if Decide(glob, op, log).Write? {
        Claims.SettlesIff(glob, op.claim, log);
      } else {
        RefusedDoesNotEncroach(glob, op.claim, log);
      }
    } else if Decide(glob, op, log).Write? {
      OnlyClaimsWriteClaims(glob, log, op);
      OutsideSettles(glob, log, NextEntry(log, Decide(glob, op, log).draft));
    }
  }

  lemma RefusedDoesNotEncroach(glob: Leases.Glob, op: Claims.ClaimOp, log: seq<Entry>)
    requires !Claims.Decide(glob, op, log).Write?
    ensures !Claims.Encroaches(glob, op, log)
  {
  }

  ghost predicate AllSettled(glob: Leases.Glob, ops: seq<Op>) {
    forall m :: 0 <= m <= |ops| ==> Claims.Settled(glob, Run(glob, ops[..m]))
  }

  ghost predicate NoneEncroaches(glob: Leases.Glob, ops: seq<Op>) {
    forall m :: 0 <= m < |ops| ==> !Encroaches(glob, Run(glob, ops[..m]), ops[m])
  }

  /**
   * Exactly which runs are exclusive: after every prefix of a run no two claims hold overlapping
   * scopes active at one instant, from its latest claim record on, if and only if none of its
   * written renewals is blocked, for its renewed locks, at the latest time so far.
   */
  lemma {:induction false} LeasesExcludeIff(glob: Leases.Glob, ops: seq<Op>)
    ensures AllSettled(glob, ops) <==> NoneEncroaches(glob, ops)
  {
    hide Claims.Settled, Encroaches, Apply, Sound, AllSettled, NoneEncroaches;
    if ops == [] {
      NothingRun(glob);
    } else {
      var n := |ops| - 1;
      var shorter := ops[..n];
      LeasesExcludeIff(glob, shorter);
      RunIsSound(glob, shorter);
      LastIsSettled(glob, shorter);
      if AllSettled(glob, shorter) {
        StepSettlesIff(glob, Run(glob, shorter), ops[n]);
      }
      PrefixesSettled(glob, ops);
      PrefixesEncroach(glob, ops);
    }
  }

  lemma NothingRun(glob: Leases.Glob)
    ensures AllSettled(glob, []) && NoneEncroaches(glob, [])
  {
    hide Claims.Settled;
    var none: seq<Op> := [];
    assert none[..0] == none;
    NoClaimsSettled(glob);
  }

  lemma LastIsSettled(glob: Leases.Glob, ops: seq<Op>)
    ensures AllSettled(glob, ops) ==> Claims.Settled(glob, Run(glob, ops))
  {
    hide Claims.Settled, Run;
    assert ops[..|ops|] == ops;
  }

  lemma PrefixesSettled(glob: Leases.Glob, ops: seq<Op>)
    requires ops != []
    ensures AllSettled(glob, ops) <==> AllSettled(glob, ops[..|ops| - 1]) && Claims.Settled(glob, Run(glob, ops))
  {
    hide Claims.Settled, Run;
    var n := |ops| - 1;
    var shorter := ops[..n];
    if AllSettled(glob, ops) {
      assert ops[..|ops|] == ops;
      forall m | 0 <= m <= n
        ensures Claims.Settled(glob, Run(glob, shorter[..m]))
      {
        assert shorter[..m] == ops[..m];
      }
    }
    if AllSettled(glob, shorter) && Claims.Settled(glob, Run(glob, ops)) {
      forall m | 0 <= m <= |ops|
        ensures Claims.Settled(glob, Run(glob, ops[..m]))
      {
        if m <= n {
          assert shorter[..m] == ops[..m];
        } else {
          assert ops[..m] == ops;
        }
      }
    }
  }

  lemma PrefixesEncroach(glob: Leases.Glob, ops: seq<Op>)
    requires ops != []
    ensures NoneEncroaches(glob, ops) <==>
            NoneEncroaches(glob, ops[..|ops| - 1]) && !Encroaches(glob, Run(glob, ops[..|ops| - 1]), ops[|ops| - 1])
  {
    hide Encroaches, Run;
    var n := |ops| - 1;
    var shorter := ops[..n];
    if NoneEncroaches(glob, ops) {
      forall m | 0 <= m < n
        ensures !Encroaches(glob, Run(glob, shorter[..m]), shorter[m])
      {
        assert shorter[..m] == ops[..m] && shorter[m] == ops[m];
      }
    }
    if NoneEncroaches(glob, shorter) && !Encroaches(glob, Run(glob, shorter), ops[n]) {
      forall m | 0 <= m < |ops|
        ensures !Encroaches(glob, Run(glob, ops[..m]), ops[m])
      {
        if m < n {
          assert shorter[..m] == ops[..m] && shorter[m] == ops[m];
        }
      }
    }
  }

  lemma NoClaimsSettled(glob: Leases.Glob)
    ensures Claims.Settled(glob, [])
  {
  }

  /** Each written renewal is dated after all claim records before it; other operations at will. */
  ghost predicate RenewalsInOrder(glob: Leases.Glob, ops: seq<Op>) {
    forall m :: 0 <= m < |ops| && ops[m].Claiming? && ops[m].claim.Renew? ==>
      Decide(glob, ops[m], Run(glob, ops[..m])).Write? ==> Claims.NotAfter(Run(glob, ops[..m]), ops[m].claim.at)
  }

  /**
   * In every run whose renewals are in time order no two claims hold overlapping scopes active at
   * one instant, from the latest claim record on: no scope twice, and no file twice but by patterns
   * that come apart inside a path segment.
   */
  lemma {:induction false} LeasesExclude(glob: Leases.Glob, ops: seq<Op>, now: Time)
    requires RenewalsInOrder(glob, ops) && Claims.NotAfter(Run(glob, ops), now)
    ensures Claims.ClaimsOk(glob, Run(glob, ops), now)
    ensures Claims.ScopesHeldOnce(Claims.LatestClaims(Run(glob, ops)).value, now)
    ensures Leases.MatchesHead(glob) && Leases.MatchesItself(glob) ==>
              Claims.FilesHeldOnce(glob, Claims.LatestClaims(Run(glob, ops)).value, now)
  {
    hide Decide, Claims.LatestClaims, Claims.Exclusive, Claims.AllWellKept, Claims.NotAfter, Run;
    hide Claims.ScopesHeldOnce, Claims.FilesHeldOnce, Leases.MatchesHead, Leases.MatchesItself;
    OrderedSettles(glob, ops);
    Claims.ExclusiveHoldsOnce(glob, Claims.LatestClaims(Run(glob, ops)).value, now);
  }

  lemma {:induction false} OrderedSettles(glob: Leases.Glob, ops: seq<Op>)
    requires RenewalsInOrder(glob, ops)
    ensures Claims.Settled(glob, Run(glob, ops))
  {
    hide Decide, Claims.Settled, Sound, Claims.NotAfter, Claims.Encroaches, Apply;
    if ops == [] {
      NoClaimsSettled(glob);
    } else {
      var n := |ops| - 1;
      var shorter, op := ops[..n], ops[n];
      assert forall m :: 0 <= m <= n ==> shorter[..m] == ops[..m];
      OrderedSettles(glob, shorter);
      RunIsSound(glob, shorter);
      StepSettlesIff(glob, Run(glob, shorter), op);
      if Encroaches(glob, Run(glob, shorter), op) {
        EncroachingIsWritten(glob, Run(glob, shorter), op);
        Claims.TimelyDoesNotEncroach(glob, op.claim, Run(glob, shorter));
      }
    }
  }

  lemma EncroachingIsWritten(glob: Leases.Glob, log: seq<Entry>, op: Op)
    requires Encroaches(glob, log, op)
    ensures op.Claiming? && op.claim.Renew? && Decide(glob, op, log).Write?
  {
    hide Claims.Decide;
  }

  // ----- claims for all time

  lemma StepKeepsClaims(glob: Leases.Glob, log: seq<Entry>, op: Op)
    requires Sound(log) && Claims.ClaimsNamed(log) && Decide(glob, op, log).Write?
    ensures var next := log + [NextEntry(log, Decide(glob, op, log).draft)];
            && Claims.ClaimsNamed(next)
            && forall id :: id in Claims.LatestClaims(log).value ==>
                 && id in Claims.LatestClaims(next).value
                 && Claims.Succeeds(Claims.LatestClaims(log).value[id], Claims.LatestClaims(next).value[id])
  {
    hide Sound, Claims.LatestClaims, Claims.Succeeds, Claims.Decide, Tasks.Decide, WorkBindings.Decide, Completion.Decide;
    var e := NextEntry(log, Decide(glob, op, log).draft);
    Claims.LatestAfter(log, e);
    if op.Claiming? {
      Claims.VersionSucceeds(glob, op.claim, log);
    } else {
      OnlyClaimsWriteClaims(glob, log, op);
    }
    forall id | id in Claims.LatestClaims(log).value
      ensures Claims.Succeeds(Claims.LatestClaims(log).value[id], Claims.LatestClaims(log).value[id])
    {
      SucceedsItself(Claims.LatestClaims(log).value[id]);
    }
  }

  lemma SucceedsItself(c: Leases.Claim)
    ensures Claims.Succeeds(c, c)
  {
  }

  lemma {:induction false} RunNamesClaims(glob: Leases.Glob, ops: seq<Op>)
    ensures Claims.ClaimsNamed(Run(glob, ops))
  {
    hide Decide, Sound, Claims.ClaimsNamed;
    if ops == [] {
      assert Claims.ClaimsNamed([]) by { NoneNamed(); }
    } else {
      RunNamesClaims(glob, ops[..|ops| - 1]);
      RunIsSound(glob, ops[..|ops| - 1]);
      if Decide(glob, ops[|ops| - 1], Run(glob, ops[..|ops| - 1])).Write? {
        StepKeepsClaims(glob, Run(glob, ops[..|ops| - 1]), ops[|ops| - 1]);
      }
    }
  }

  lemma NoneNamed()
    ensures Claims.ClaimsNamed([])
  {
  }

  /**
   * Over every run, in whatever order of times: a claim keeps its Change Set, agent, session and
   * locks, is only ever extended, and once released it never changes again.
   */
  lemma {:induction false} ClaimIsForever(glob: Leases.Glob, ops: seq<Op>, m: nat, id: Id)
    requires m <= |ops| && Claims.LatestClaims(Run(glob, ops[..m])).Some?
    requires id in Claims.LatestClaims(Run(glob, ops[..m])).value
    ensures Claims.LatestClaims(Run(glob, ops)).Some? && id in Claims.LatestClaims(Run(glob, ops)).value
    ensures Claims.Succeeds(Claims.LatestClaims(Run(glob, ops[..m])).value[id], Claims.LatestClaims(Run(glob, ops)).value[id])
  {
    hide Decide, Sound, Claims.LatestClaims, Claims.Succeeds;
    if m == |ops| {
      assert ops[..m] == ops;
      SucceedsItself(Claims.LatestClaims(Run(glob, ops)).value[id]);
    } else {
      var shorter := ops[..|ops| - 1];
      assert shorter[..m] == ops[..m];
      ClaimIsForever(glob, shorter, m, id);
      RunNamesClaims(glob, shorter);
      RunIsSound(glob, shorter);
      if Decide(glob, ops[|ops| - 1], Run(glob, shorter)).Write? {
        StepKeepsClaims(glob, Run(glob, shorter), ops[|ops| - 1]);
        Claims.SucceedsTransitive(Claims.LatestClaims(Run(glob, ops[..m])).value[id],
                                  Claims.LatestClaims(Run(glob, shorter)).value[id],
                                  Claims.LatestClaims(Run(glob, ops)).value[id]);
      }
    }
  }

  lemma NoClaims(glob: Leases.Glob, now: Time)
    ensures Claims.ClaimsOk(glob, [], now)
  {
  }
}
