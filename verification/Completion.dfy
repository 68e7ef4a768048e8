/**
 * Evidence-gated completion (application/task_completion.py): a task becomes done only on a
 * ledger that already proves the bound work merged, released and reviewed at its exact head.
 */
module Completion {
  import opened Common
  import opened Races
  import opened Records
  import opened Chain
  import opened Decisions
  import opened LedgerStore
  import opened TaskIntents
  import Leases
  import Claims
  import ChangeSets
  import Tasks
  import WorkBindings

  predicate Matches(e: Entry, kind: Kind, name: Id, limit: Option<nat>) {
    e.draft.kind == kind && e.draft.entity == Named(name) && (limit.Some? ==> e.sequence < limit.value)
  }

  /** `_latest_entry`; `limit` is `before_sequence`. */
  function LatestEntry(log: seq<Entry>, kind: Kind, name: Id, limit: Option<nat>): Option<Entry> {
    if log == [] then None
    else
      var e := log[|log| - 1];
      if Matches(e, kind, name, limit) then Some(e) else LatestEntry(log[..|log| - 1], kind, name, limit)
  }

  predicate IsReviewOf(e: Entry, changeSetId: Id, limit: Option<nat>) {
    e.draft.kind == ReviewKind && e.draft.payload.ReviewPayload? && e.draft.payload.review.changeSetId == changeSetId
    && (limit.Some? ==> e.sequence < limit.value)
  }

  /** The last of the collected reviews of a Change Set. */
  function LastReview(log: seq<Entry>, changeSetId: Id, limit: Option<nat>): Option<ReviewRecord> {
    if log == [] then None
    else
      var e := log[|log| - 1];
      if IsReviewOf(e, changeSetId, limit) then Some(e.draft.payload.review)
      else LastReview(log[..|log| - 1], changeSetId, limit)
  }

  /** `_current_releasable_review` */
  predicate Releasable(r: ReviewRecord, changeSetId: Id, head: string) {
    && r.changeSetId == changeSetId && r.decisionChangeSetId == changeSetId
    && r.head == head && r.decisionHead == head
    && r.releasable && r.policySatisfied
    && (r.outcome == Ready || r.outcome == ReadyWithFollowUp)
  }

  datatype Proof = Proof(task: Task, changeBinding: ChangeSets.ChangeBinding, claim: Leases.Claim, review: ReviewRecord)

  function ObservedHead(b: ChangeSets.ChangeBinding): Option<string> {
    if b.observations == [] then None else Some(b.observations[|b.observations| - 1].seen.head)
  }

  predicate CurrentBinding(log: seq<Entry>, b: WorkBinding) {
    var e := LatestEntry(log, WorkKind, b.taskId, None);
    e.Some? && e.value.draft.payload == WorkPayload(b.(completed := true))
  }

  /** `_proof_from_entries` */
  function ProofFrom(log: seq<Entry>, b: WorkBinding, observedAt: Time, requireReleased: bool): Result<Proof, Refusal> {
    if !CurrentBinding(log, b) then Err(NotProven)
    else
      var taskEntry := LatestEntry(log, TaskKind, b.taskId, None);
      if taskEntry.None? then Err(NotFound)
      else if !taskEntry.value.draft.payload.TaskPayload? || taskEntry.value.draft.payload.task.id != b.taskId then Err(Malformed)
      else
        var task := taskEntry.value.draft.payload.task;
        var limit := if task.state == Done then Some(taskEntry.value.sequence) else None;
        ProofAt(log, b, task, limit, if task.state == Done then task.updatedAt else observedAt, requireReleased)
  }

  /** The rest of the proof once the task and the part of the ledger that counts are known. */
  function ProofAt(log: seq<Entry>, b: WorkBinding, task: Task, limit: Option<nat>, at: Time, requireReleased: bool)
    : Result<Proof, Refusal>
  {
    var changeSet := LatestEntry(log, ChangeSetKind, b.changeSetId, limit);
    var claim := LatestEntry(log, ClaimKind, b.claimId, limit);
    if changeSet.None? || claim.None? then Err(NotFound)
    else if !changeSet.value.draft.payload.ChangeSetPayload? || !claim.value.draft.payload.ClaimPayload? then Err(Malformed)
    else if task.state != Done && task.state != InProgress then Err(BadTransition)
    else Judge(task, changeSet.value.draft.payload.changeBinding, claim.value.draft.payload.claim,
               LastReview(log, b.changeSetId, limit), b, at, requireReleased)
  }

  /** The conditions on the records found. */
  function Judge(task: Task, changeSet: ChangeSets.ChangeBinding, claim: Leases.Claim, review: Option<ReviewRecord>,
                 b: WorkBinding, at: Time, requireReleased: bool): Result<Proof, Refusal>
  {
    var state := Leases.ClaimStateAt(claim, at);
    if changeSet.changeSet.state != ChangeSets.Merged then Err(NotProven)
    else if claim.changeSetId != b.changeSetId || claim.agentId != b.agentId || claim.sessionId != b.sessionId then Err(NotOwner)
    else if state.None? then Err(Inconsistent)
    else if state.value == Leases.Expired then Err(NotActive)
    else if task.state == Done && state.value != Leases.Released then Err(NotProven)
    else if requireReleased && state.value != Leases.Released then Err(NotProven)
    else if review.None? || ObservedHead(changeSet).None? then Err(NotProven)
    else if !Releasable(review.value, b.changeSetId, ObservedHead(changeSet).value) then Err(NotProven)
    else Ok(Proof(task, changeSet, claim, review.value))
  }

  datatype CompleteOp = CompleteTask(binding: WorkBinding, actorId: Id, reason: string, at: Time)

  predicate SameRetry(t: Task, actorId: Id, reason: string) {
    t.events != [] && t.events[|t.events| - 1].state == Done
    && t.events[|t.events| - 1].actorId == actorId && t.events[|t.events| - 1].rationale == reason
  }

  /** One round of the completion loop, after the bound claim was released. */
  function Decide(op: CompleteOp, log: seq<Entry>): Decision<Refusal> {
    match ProofFrom(log, op.binding, op.at, true)
    case Err(e) => Refuse(e)
    case Ok(p) =>
      if p.task.state == Done then if SameRetry(p.task, op.actorId, op.reason) then Existing else Refuse(AlreadyExists)
      else if p.task.state != InProgress || !CanTransition(p.task, Done, op.at) then Refuse(BadTransition)
      else Write(Tasks.TaskDraft(Transitioned(p.task, Done, op.actorId, op.reason, op.at)))
  }

  // ----- the proof a done record extends

  /** Entry `i` is the last of its kind and name. */
  ghost predicate IsLast(log: seq<Entry>, i: nat, kind: Kind, name: Id) {
    && i < |log| && log[i].draft.kind == kind && log[i].draft.entity == Named(name)
    && forall j :: i < j < |log| ==> log[j].draft.kind != kind || log[j].draft.entity != Named(name)
  }

  /** The last record of a kind and name holds `p`. */
  ghost predicate Stands(log: seq<Entry>, kind: Kind, name: Id, p: Payload) {
    exists i: nat :: IsLast(log, i, kind, name) && log[i].draft.payload == p
  }

  predicate Reviews(d: Draft, changeSetId: Id) {
    d.kind == ReviewKind && d.payload.ReviewPayload? && d.payload.review.changeSetId == changeSetId
  }

  ghost predicate IsLastReview(log: seq<Entry>, i: nat, changeSetId: Id) {
    i < |log| && Reviews(log[i].draft, changeSetId) && forall j :: i < j < |log| ==> !Reviews(log[j].draft, changeSetId)
  }

  /** `r` is the last review recorded of a Change Set. */
  ghost predicate ReviewStands(log: seq<Entry>, changeSetId: Id, r: ReviewRecord) {
    exists i: nat :: IsLastReview(log, i, changeSetId) && log[i].draft.payload.review == r
  }

  /**
   * What the ledger before a done record shows about its bound work: the standing Change Set is
   * merged, the standing claim is the binding's and released with all its locks, and the last review is
   * of that Change Set at its last observed head, releasable and within policy.
   */
  ghost predicate Proves(log: seq<Entry>, b: WorkBinding, p: Proof) {
    && Stands(log, WorkKind, b.taskId, WorkPayload(b.(completed := true)))
    && p.task.id == b.taskId
    && Stands(log, ChangeSetKind, b.changeSetId, ChangeSetPayload(p.changeBinding))
    && Stands(log, ClaimKind, b.claimId, ClaimPayload(p.claim))
    && ReviewStands(log, b.changeSetId, p.review)
    && p.changeBinding.changeSet.state == ChangeSets.Merged
    && p.claim.changeSetId == b.changeSetId && p.claim.agentId == b.agentId && p.claim.sessionId == b.sessionId
    && p.claim.locks != [] && (forall i :: 0 <= i < |p.claim.locks| ==> p.claim.locks[i].state == Leases.Released)
    && var observed := p.changeBinding.observations;
       && observed != []
       && p.review.head == observed[|observed| - 1].seen.head && p.review.decisionHead == observed[|observed| - 1].seen.head
       && p.review.changeSetId == b.changeSetId && p.review.decisionChangeSetId == b.changeSetId
       && p.review.releasable && p.review.policySatisfied
       && (p.review.outcome == Ready || p.review.outcome == ReadyWithFollowUp)
  }

  lemma StandsAfter(log: seq<Entry>, e: Entry, kind: Kind, name: Id, p: Payload)
    ensures Stands(log + [e], kind, name, p) <==>
            if e.draft.kind == kind && e.draft.entity == Named(name) then e.draft.payload == p else Stands(log, kind, name, p)
  {
    hide Stands;
    if e.draft.kind == kind && e.draft.entity == Named(name) {
      NewestIsLast(log, e, kind, name);
      OnlyLast(log + [e], |log|, kind, name, p);
    } else {
      OthersDoNotStand(log, e, kind, name, p);
    }
  }

  lemma NewestIsLast(log: seq<Entry>, e: Entry, kind: Kind, name: Id)
    requires e.draft.kind == kind && e.draft.entity == Named(name)
    ensures IsLast(log + [e], |log|, kind, name) && (log + [e])[|log|] == e
  {
  }

  lemma StandsWithin(log: seq<Entry>, kind: Kind, name: Id, p: Payload)
    ensures Stands(log, kind, name, p) <==>
            exists i :: 0 <= i < |log| && IsLast(log, i, kind, name) && log[i].draft.payload == p
  {
  }

  lemma OthersDoNotStand(log: seq<Entry>, e: Entry, kind: Kind, name: Id, p: Payload)
    requires e.draft.kind != kind || e.draft.entity != Named(name)
    ensures Stands(log + [e], kind, name, p) <==> Stands(log, kind, name, p)
  {
    var longer := log + [e];
    StandsWithin(log, kind, name, p);
    StandsWithin(longer, kind, name, p);
    hide IsLast;
    if Stands(log, kind, name, p) {
      var i: nat :| i < |log| && IsLast(log, i, kind, name) && log[i].draft.payload == p;
      StillLast(log, e, i, kind, name);
    }
    if Stands(longer, kind, name, p) {
      var i: nat :| i < |longer| && IsLast(longer, i, kind, name) && longer[i].draft.payload == p;
      StillLast(log, e, i, kind, name);
    }
  }

  lemma OnlyLast(log: seq<Entry>, i: nat, kind: Kind, name: Id, p: Payload)
    requires IsLast(log, i, kind, name)
    ensures Stands(log, kind, name, p) <==> log[i].draft.payload == p
  {
    if Stands(log, kind, name, p) {
      var j: nat :| IsLast(log, j, kind, name) && log[j].draft.payload == p;
      assert i == j;
    }
  }

  lemma StillLast(log: seq<Entry>, e: Entry, i: nat, kind: Kind, name: Id)
    requires e.draft.kind != kind || e.draft.entity != Named(name)
    ensures IsLast(log + [e], i, kind, name) <==> IsLast(log, i, kind, name)
    ensures IsLast(log, i, kind, name) ==> i < |log| && (log + [e])[i] == log[i]
    ensures IsLast(log + [e], i, kind, name) ==> i < |log + [e]|
  {
    var longer := log + [e];
    assert longer[|log|] == e && forall j :: 0 <= j < |log| ==> longer[j] == log[j];
  }

  lemma {:induction false} LatestStands(log: seq<Entry>, kind: Kind, name: Id, p: Payload)
    ensures Stands(log, kind, name, p) <==>
            LatestEntry(log, kind, name, None).Some? && LatestEntry(log, kind, name, None).value.draft.payload == p
  {
    if log != [] {
      hide Stands, LatestEntry;
      var n := |log| - 1;
      LatestStands(log[..n], kind, name, p);
      StandsAfter(log[..n], log[n], kind, name, p);
      LatestAfter(log[..n], log[n], kind, name);
      assert log == log[..n] + [log[n]];
    }
  }

  lemma {:induction false} LatestIsEntry(log: seq<Entry>, kind: Kind, name: Id) returns (i: nat)
    requires LatestEntry(log, kind, name, None).Some?
    ensures i < |log| && LatestEntry(log, kind, name, None) == Some(log[i]) && IsLast(log, i, kind, name)
  {
    var n := |log| - 1;
    if Matches(log[n], kind, name, None) {
      i := n;
    } else {
      i := LatestIsEntry(log[..n], kind, name);
      StillLast(log[..n], log[n], i, kind, name);
      assert log == log[..n] + [log[n]];
    }
  }

  /** In a chain the entry the scan finds is at the one place it can be. */
  lemma LatestIsLast(log: seq<Entry>, n: nat, kind: Kind, name: Id)
    requires ValidChain(log) && n < |log| && LatestEntry(log, kind, name, None) == Some(log[n])
    ensures IsLast(log, n, kind, name)
  {
    hide IsLast;
    var i := LatestIsEntry(log, kind, name);
    assert Links(log, i) && Links(log, n);
  }

  lemma ReviewStandsAfter(log: seq<Entry>, e: Entry, changeSetId: Id, r: ReviewRecord)
    ensures ReviewStands(log + [e], changeSetId, r) <==>
            if Reviews(e.draft, changeSetId) then e.draft.payload.review == r else ReviewStands(log, changeSetId, r)
  {
    var longer := log + [e];
    assert longer[|log|] == e;
    if Reviews(e.draft, changeSetId) {
      assert IsLastReview(longer, |log|, changeSetId);
      if ReviewStands(longer, changeSetId, r) {
        var j: nat :| IsLastReview(longer, j, changeSetId) && longer[j].draft.payload.review == r;
        assert j == |log|;
      }
    } else {
      if ReviewStands(log, changeSetId, r) {
        var i: nat :| IsLastReview(log, i, changeSetId) && log[i].draft.payload.review == r;
        assert IsLastReview(longer, i, changeSetId);
      }
      if ReviewStands(longer, changeSetId, r) {
        var i: nat :| IsLastReview(longer, i, changeSetId) && longer[i].draft.payload.review == r;
        StillLastReview(log, e, i, changeSetId);
      }
    }
  }

  lemma StillLastReview(log: seq<Entry>, e: Entry, i: nat, changeSetId: Id)
    requires IsLastReview(log + [e], i, changeSetId) && i < |log|
    ensures IsLastReview(log, i, changeSetId) && (log + [e])[i] == log[i]
  {
    forall j | i < j < |log|
      ensures !Reviews(log[j].draft, changeSetId)
    {
      assert (log + [e])[j] == log[j];
    }
  }

  lemma LastReviewAfter(log: seq<Entry>, e: Entry, changeSetId: Id)
    ensures LastReview(log + [e], changeSetId, None)
            == if Reviews(e.draft, changeSetId) then Some(e.draft.payload.review) else LastReview(log, changeSetId, None)
  {
    assert (log + [e])[..|log|] == log;
  }

  lemma {:induction false} LastReviewStands(log: seq<Entry>, changeSetId: Id, r: ReviewRecord)
    ensures ReviewStands(log, changeSetId, r) <==> LastReview(log, changeSetId, None) == Some(r)
  {
    if log != [] {
      hide ReviewStands, LastReview;
      var n := |log| - 1;
      LastReviewStands(log[..n], changeSetId, r);
      ReviewStandsAfter(log[..n], log[n], changeSetId, r);
      LastReviewAfter(log[..n], log[n], changeSetId);
      assert log == log[..n] + [log[n]];
    }
  }

  /** The same in terms of the scans the service makes. */
  ghost predicate ProvesByScans(log: seq<Entry>, b: WorkBinding, p: Proof) {
    && CurrentBinding(log, b)
    && p.task.id == b.taskId
    && (var c := LatestEntry(log, ChangeSetKind, b.changeSetId, None);
        c.Some? && c.value.draft.payload == ChangeSetPayload(p.changeBinding))
    && (var c := LatestEntry(log, ClaimKind, b.claimId, None);
        c.Some? && c.value.draft.payload == ClaimPayload(p.claim))
    && LastReview(log, b.changeSetId, None) == Some(p.review)
    && p.changeBinding.changeSet.state == ChangeSets.Merged
    && p.claim.changeSetId == b.changeSetId && p.claim.agentId == b.agentId && p.claim.sessionId == b.sessionId
    && p.claim.locks != [] && (forall i :: 0 <= i < |p.claim.locks| ==> p.claim.locks[i].state == Leases.Released)
    && ObservedHead(p.changeBinding).Some?
    && Releasable(p.review, b.changeSetId, ObservedHead(p.changeBinding).value)
  }

  lemma ProvesScans(log: seq<Entry>, b: WorkBinding, p: Proof)
    ensures Proves(log, b, p) <==> ProvesByScans(log, b, p)
  {
    hide LatestEntry, LastReview, Stands, ReviewStands;
    LatestStands(log, WorkKind, b.taskId, WorkPayload(b.(completed := true)));
    LatestStands(log, ChangeSetKind, b.changeSetId, ChangeSetPayload(p.changeBinding));
    LatestStands(log, ClaimKind, b.claimId, ClaimPayload(p.claim));
    LastReviewStands(log, b.changeSetId, p.review);
  }

  /** What it takes beside the proof: the standing task is in progress, and not later than the completion. */
  ghost predicate MayComplete(op: CompleteOp, log: seq<Entry>, p: Proof) {
    && Proves(log, op.binding, p)
    && Stands(log, TaskKind, op.binding.taskId, TaskPayload(p.task))
    && p.task.state == InProgress && p.task.updatedAt <= op.at
  }

  /** The done record of an in-progress task: one event more, by this actor, for this reason, at this time. */
  ghost predicate DoneFrom(op: CompleteOp, before: Task, done: Task) {
    done == before.(state := Done, updatedAt := op.at,
                    events := before.events + [StateEvent(InProgress, Done, op.actorId, op.reason, op.at)])
  }

  /** A completion decision extends a ledger with the full proof. */
  lemma CompletionIsProven(op: CompleteOp, log: seq<Entry>)
    requires Decide(op, log).Write?
    ensures ProofFrom(log, op.binding, op.at, true).Ok?
    ensures var p := ProofFrom(log, op.binding, op.at, true).value;
            && MayComplete(op, log, p) && Proves(log, op.binding, p) && p.task.state == InProgress
            && Decide(op, log).draft.payload.TaskPayload? && DoneFrom(op, p.task, Decide(op, log).draft.payload.task)
            && Decide(op, log).draft == Tasks.TaskDraft(Transitioned(p.task, Done, op.actorId, op.reason, op.at))
            && CanTransition(p.task, Done, op.at)
            && LatestEntry(log, TaskKind, op.binding.taskId, None).Some?
            && LatestEntry(log, TaskKind, op.binding.taskId, None).value.draft.payload == TaskPayload(p.task)
  {
    hide LatestEntry, LastReview, Proves, Stands;
    var p := ProofFrom(log, op.binding, op.at, true).value;
    forall i | 0 <= i < |p.claim.locks|
      ensures p.claim.locks[i].state == Leases.Released
    {
      assert Leases.StateAt(p.claim.locks[i], op.at) == Leases.Released;
    }
    ProvesScans(log, op.binding, p);
    LatestStands(log, TaskKind, op.binding.taskId, TaskPayload(p.task));
  }

  lemma ProvenCompletes(op: CompleteOp, log: seq<Entry>, p: Proof)
    requires MayComplete(op, log, p)
    ensures Decide(op, log).Write?
  {
    hide LatestEntry, LastReview, Proves, Stands, Releasable, ObservedHead;
    ProvesScans(log, op.binding, p);
    LatestStands(log, TaskKind, op.binding.taskId, TaskPayload(p.task));
    ReleasedIsReleased(p.claim, op.at);
  }

  /** Exactly when a completion is written: on a ledger with the full proof of a task in progress. */
  lemma CompletesIff(op: CompleteOp, log: seq<Entry>)
    ensures Decide(op, log).Write? <==> exists p :: MayComplete(op, log, p)
  {
    hide ProofFrom, MayComplete, Decide;
    if Decide(op, log).Write? {
      CompletionIsProven(op, log);
      assert MayComplete(op, log, ProofFrom(log, op.binding, op.at, true).value);
    }
    if p :| MayComplete(op, log, p) {
      ProvenCompletes(op, log, p);
    }
  }

  /** A last review of another head than the last observed one never completes a task. */
  lemma StaleReviewIsRefused(op: CompleteOp, log: seq<Entry>, t: Task, c: ChangeSets.ChangeBinding, r: ReviewRecord)
    requires Stands(log, TaskKind, op.binding.taskId, TaskPayload(t)) && t.state != Done
    requires Stands(log, ChangeSetKind, op.binding.changeSetId, ChangeSetPayload(c)) && c.observations != []
    requires ReviewStands(log, op.binding.changeSetId, r)
    requires r.head != c.observations[|c.observations| - 1].seen.head || r.decisionHead != c.observations[|c.observations| - 1].seen.head
    ensures Decide(op, log).Refuse?
  {
    hide LatestEntry, LastReview, Stands, ReviewStands, Releasable;
    LatestStands(log, TaskKind, op.binding.taskId, TaskPayload(t));
    LatestStands(log, ChangeSetKind, op.binding.changeSetId, ChangeSetPayload(c));
    LastReviewStands(log, op.binding.changeSetId, r);
    if Decide(op, log).Write? {
      CompletionIsProven(op, log);
      var p := ProofFrom(log, op.binding, op.at, true).value;
      LastReviewStands(log, op.binding.changeSetId, p.review);
      LatestStands(log, ChangeSetKind, op.binding.changeSetId, ChangeSetPayload(p.changeBinding));
    }
  }

  /** Looking before sequence `n + 1` of a chain is looking at its first `n` entries. */
  lemma {:induction false} LimitIsPrefix(log: seq<Entry>, n: nat, kind: Kind, name: Id, changeSetId: Id)
    requires ValidChain(log) && n <= |log|
    ensures LatestEntry(log, kind, name, Some(n + 1)) == LatestEntry(log[..n], kind, name, None)
    ensures LastReview(log, changeSetId, Some(n + 1)) == LastReview(log[..n], changeSetId, None)
  {
    if n < |log| {
      var m := |log| - 1;
      PrefixValid(log, m);
      assert Links(log, m);
      assert log[..m][..n] == log[..n];
      LimitIsPrefix(log[..m], n, kind, name, changeSetId);
    } else {
      assert log[..n] == log;
      NoLimitNeeded(log, n, kind, name, changeSetId);
    }
  }

  lemma {:induction false} NoLimitNeeded(log: seq<Entry>, n: nat, kind: Kind, name: Id, changeSetId: Id)
    requires ValidChain(log) && |log| <= n
    ensures LatestEntry(log, kind, name, Some(n + 1)) == LatestEntry(log, kind, name, None)
    ensures LastReview(log, changeSetId, Some(n + 1)) == LastReview(log, changeSetId, None)
  {
    if log != [] {
      var m := |log| - 1;
      PrefixValid(log, m);
      assert Links(log, m);
      NoLimitNeeded(log[..m], n, kind, name, changeSetId);
    }
  }

  /**
   * Evaluating the proof again on any longer ledger in which the done record is still the
   * task's latest, with the same binding in force, finds the same Change Set, claim and review.
   */
  lemma ProofIsStable(log: seq<Entry>, n: nat, b: WorkBinding, p: Proof, at: Time, requireReleased: bool)
    requires ValidChain(log) && n < |log| && Proves(log[..n], b, p)
    requires log[n].draft.kind == TaskKind && log[n].draft.payload.TaskPayload?
    requires log[n].draft.payload.task.id == b.taskId && log[n].draft.payload.task.state == Done
    requires LatestEntry(log, TaskKind, b.taskId, None) == Some(log[n]) && CurrentBinding(log, b)
    ensures ProofFrom(log, b, at, requireReleased) == Ok(p.(task := log[n].draft.payload.task))
  {
    hide LatestEntry, LastReview, Releasable, CurrentBinding, Proves;
    ProvesScans(log[..n], b, p);
    assert Links(log, n);
    LimitIsPrefix(log, n, ChangeSetKind, b.changeSetId, b.changeSetId);
    LimitIsPrefix(log, n, ClaimKind, b.claimId, b.changeSetId);
    var done := log[n].draft.payload.task;
    ReleasedIsReleased(p.claim, done.updatedAt);
  }

  lemma ReleasedIsReleased(c: Leases.Claim, at: Time)
    requires c.locks != [] && forall i :: 0 <= i < |c.locks| ==> c.locks[i].state == Leases.Released
    ensures Leases.ClaimStateAt(c, at) == Some(Leases.Released)
  {
  }

  lemma LatestAfter(log: seq<Entry>, e: Entry, kind: Kind, name: Id)
    ensures LatestEntry(log + [e], kind, name, None) == if Matches(e, kind, name, None) then Some(e) else LatestEntry(log, kind, name, None)
  {
    assert (log + [e])[..|log|] == log;
  }

  /** The latest-tasks dictionary and the reversed scan agree. */
  lemma {:induction false} LatestTaskEntry(log: seq<Entry>, id: Id)
    requires Tasks.LatestTasks(log).Some?
    ensures id in Tasks.LatestTasks(log).value <==> LatestEntry(log, TaskKind, id, None).Some?
    ensures id in Tasks.LatestTasks(log).value ==>
              LatestEntry(log, TaskKind, id, None).value.draft.payload == TaskPayload(Tasks.LatestTasks(log).value[id])
  {
    if log != [] {
      LatestTaskEntry(log[..|log| - 1], id);
    }
  }

  /** The latest work record is the last of the task's history. */
  lemma {:induction false} LatestWorkEntry(log: seq<Entry>, id: Id)
    ensures var h := WorkBindings.History(log, id);
            && (LatestEntry(log, WorkKind, id, None).Some? <==> h != [])
            && (h != [] ==> LatestEntry(log, WorkKind, id, None).value.draft.payload == WorkBindings.Last(h))
  {
    if log != [] {
      LatestWorkEntry(log[..|log| - 1], id);
    }
  }

  // ----- the workflow

  /** The done record of `t`, appended to the ledger others left, on which `op` decides it. */
  ghost predicate Recorded(op: CompleteOp, before: seq<Entry>, after: seq<Entry>, others: Others, t: Task) {
    exists n :: RecordedAt(op, Joined(before, others, 0, n), after, t)
  }

  ghost predicate RecordedAt(op: CompleteOp, prefix: seq<Entry>, after: seq<Entry>, t: Task) {
    && Decide(op, prefix) == Write(Tasks.TaskDraft(t))
    && after == prefix + [NextEntry(prefix, Draft(TaskKind, Named(t.id), TaskPayload(t), op.at))]
    && exists p :: MayComplete(op, prefix, p) && DoneFrom(op, p.task, t)
  }

  /** The ledger already holds the done record of a like try, with its proof. */
  ghost predicate FoundDone(op: CompleteOp, log: seq<Entry>, t: Task) {
    && ProofFrom(log, op.binding, op.at, true).Ok? && ProofFrom(log, op.binding, op.at, true).value.task == t
    && t.events != []
    && var last := t.events[|t.events| - 1]; last.state == Done && last.actorId == op.actorId && last.rationale == op.reason
  }

  /** Why the loop did not complete: the ledger it saw refuses it, or others won every race. */
  ghost predicate Turned(op: CompleteOp, after: seq<Entry>, others: Others, e: Refusal) {
    Decide(op, after) == Refuse(e) || (e == HeadMoved && LostRaces(others, ATTEMPTS))
  }

  /** What the loop leaves when it answers `t`: its one record, or nothing of its own. */
  ghost predicate LoopDone(op: CompleteOp, before: seq<Entry>, after: seq<Entry>, others: Others, t: Task) {
    Recorded(op, before, after, others, t) || (OnlyOthers(before, others, after) && FoundDone(op, after, t))
  }

  lemma CompletionRecords(op: CompleteOp, log: seq<Entry>)
    requires Decide(op, log).Write? && Decide(op, log).draft.payload.TaskPayload?
    ensures var t := Decide(op, log).draft.payload.task; RecordedAt(op, log, log + [NextEntry(log, Decide(op, log).draft)], t)
  {
    hide MayComplete, Decide, ProofFrom;
    CompletionIsProven(op, log);
  }

  /** The completion loop: the task it returns was recorded on a ledger that proves it. */
  method CompletionLoop(store: Store, op: CompleteOp, others: Others) returns (r: Result<Task, Refusal>)
    requires ValidChain(store.log)
    modifies store
    ensures ValidChain(store.log) && old(store.log) <= store.log
    ensures r.Ok? ==> r.value.state == Done && LoopDone(op, old(store.log), store.log, others, r.value)
    ensures r.Err? ==> Turned(op, store.log, others, r.error) && OnlyOthers(old(store.log), others, store.log)
  {
    hide ProofFrom, RecordedAt;
    var attempt := 0;
    while attempt < ATTEMPTS
      invariant ValidChain(store.log) && old(store.log) <= store.log
      invariant store.log == Joined(old(store.log), others, 0, 2 * attempt)
      invariant attempt <= ATTEMPTS && LostRaces(others, attempt)
    {
      store.Interfere(others(2 * attempt));
      assert store.log == Joined(old(store.log), others, 0, 2 * attempt + 1);
      var entries := store.Snapshot();
      var proof := ProofFrom(entries, op.binding, op.at, true);
      if proof.Err? {
        return Err(proof.error);
      }
      var current := proof.value.task;
      if current.state == Done {
        if !SameRetry(current, op.actorId, op.reason) {
          return Err(AlreadyExists);
        }
        return Ok(current);
      }
      if current.state != InProgress || !CanTransition(current, Done, op.at) {
        return Err(BadTransition);
      }
      var completed := Transitioned(current, Done, op.actorId, op.reason, op.at);
      store.Interfere(others(2 * attempt + 1));
      assert store.log == Joined(old(store.log), others, 0, 2 * attempt + 2);
      ghost var reached := store.log;
      var ok := store.RecordIfHead(Tasks.TaskDraft(completed), HeadDigest(entries));
      if ok {
        SameHeadSameLogLater(entries, reached);
        CompletionRecords(op, entries);
        assert RecordedAt(op, Joined(old(store.log), others, 0, 2 * attempt + 2), store.log, completed);
        return Ok(completed);
      }
      LostAnother(others, attempt);
      attempt := attempt + 1;
    }
    return Err(HeadMoved);
  }

  /** The time check made once before the claim is released. */
  predicate PredatesProof(p: Proof, at: Time) {
    at < p.task.updatedAt || at < p.changeBinding.changeSet.updatedAt || at < p.claim.updatedAt || at < p.review.createdAt
  }

  /** The bound work of a task, if its binding is completed. */
  function CompletedBinding(log: seq<Entry>, taskId: Id): Option<WorkBinding> {
    var h := WorkBindings.History(log, taskId);
    if h == [] || !WorkBindings.Last(h).WorkPayload? || !WorkBindings.Last(h).binding.completed then None
    else Some(WorkBindings.Last(h).binding)
  }

  /** The checks made before the claim is released; `None` lets the workflow go on. */
  function Precheck(log: seq<Entry>, b: WorkBinding, actorId: Id, reason: string, at: Time): Option<Refusal> {
    match ProofFrom(log, b, at, false)
    case Err(e) => Some(e)
    case Ok(p) =>
      if p.task.state == Done then if SameRetry(p.task, actorId, reason) then None else Some(AlreadyExists)
      else if PredatesProof(p, at) then Some(BadTransition)
      else None
  }

  /** What other clients append around the parts of one completion. */
  datatype Around = Around(beforeProof: seq<Draft>, beforeRelease: Others, beforeCompletion: Others)

  function ReleaseOp(b: WorkBinding, at: Time): Claims.ClaimOp {
    Claims.Release(b.claimId, b.agentId, b.sessionId, at)
  }

  /**
   * The ledger after the checks and the release: the proof on `before` is not later than the completion,
   * and its claim was released by one record if some lock of it was active, and not touched otherwise.
   */
  ghost predicate ReleaseDone(glob: Leases.Glob, op: CompleteOp, before: seq<Entry>, after: seq<Entry>, others: Others) {
    && ProofFrom(before, op.binding, op.at, false).Ok?
    && var p := ProofFrom(before, op.binding, op.at, false).value;
       && p.task.updatedAt <= op.at && p.changeBinding.changeSet.updatedAt <= op.at && p.claim.updatedAt <= op.at && p.review.createdAt <= op.at
       && if exists i :: 0 <= i < |p.claim.locks| && p.claim.locks[i].state == Leases.Active && op.at < p.claim.locks[i].expiresAt
          then exists d :: Claims.Performed(glob, ReleaseOp(op.binding, op.at), before, after, others, d)
          else after == before
  }

  /** Every append of a completion: the others', at most one release, and at most one done record. */
  ghost predicate CompletedBy(glob: Leases.Glob, op: CompleteOp, before: seq<Entry>, after: seq<Entry>, around: Around, t: Task) {
    var seen := Extend(before, around.beforeProof);
    || (after == seen && FoundDone(op, after, t))
    || (exists released ::
          ReleaseDone(glob, op, seen, released, around.beforeRelease) && LoopDone(op, released, after, around.beforeCompletion, t))
  }

  /** Why a task was not completed, part by part, and what was appended until then. */
  ghost predicate NotCompleted(glob: Leases.Glob, before: seq<Entry>, after: seq<Entry>, taskId: Id, op: CompleteOp, around: Around, e: Refusal) {
    var seen := Extend(before, around.beforeProof);
    || (CompletedBinding(before, taskId).None? && e == NotProven && after == before)
    || (CompletedBinding(before, taskId) == Some(op.binding)
        && (|| (after == seen && Precheck(after, op.binding, op.actorId, op.reason, op.at) == Some(e))
            || (Claims.Turned(glob, ReleaseOp(op.binding, op.at), seen, after, around.beforeRelease, e)
                && OnlyOthers(seen, around.beforeRelease, after))
            || (exists released ::
                  && ReleaseDone(glob, op, seen, released, around.beforeRelease)
                  && Turned(op, after, around.beforeCompletion, e) && OnlyOthers(released, around.beforeCompletion, after))))
  }

  /**
   * `complete`: check the proof, release the bound claim if it is still active, then complete.
   * Other clients append around every part.
   */
  method Complete(glob: Leases.Glob, store: Store, taskId: Id, actorId: Id, reason: string, at: Time, around: Around)
    returns (r: Result<Task, Refusal>, ghost op: CompleteOp)
    requires ValidChain(store.log)
    modifies store
    ensures ValidChain(store.log) && old(store.log) <= store.log
    ensures op.actorId == actorId && op.reason == reason && op.at == at
    ensures r.Ok? ==> r.value.state == Done && CompletedBinding(old(store.log), taskId) == Some(op.binding)
    ensures r.Ok? ==> CompletedBy(glob, op, old(store.log), store.log, around, r.value)
    ensures r.Err? ==> NotCompleted(glob, old(store.log), store.log, taskId, op, around, r.error)
  {
    hide ProofFrom, Turned, Claims.Turned, NotCompleted, Precheck, CompletedBy, ReleaseDone, LoopDone, OnlyOthers, FoundDone, Claims.Performed, Timely;
    op := CompleteTask(WorkBinding("", "", "", "", "", "", 0, false), actorId, reason, at);
    ghost var start := store.log;
    var entries := store.Snapshot();
    var latest := WorkBindings.LatestWork(entries, taskId);
    if latest.None? || !latest.value.WorkPayload? || !latest.value.binding.completed {
      NoBinding(glob, start, taskId, op, around);
      return Err(NotProven), op;
    }
    var binding := latest.value.binding;
    op := CompleteTask(binding, actorId, reason, at);
    store.Interfere(around.beforeProof);
    entries := store.Snapshot();
    var refused := Precheck(entries, binding, actorId, reason, at);
    if refused.Some? {
      PrecheckRefuses(glob, start, entries, taskId, op, around, refused.value);
      return Err(refused.value), op;
    }
    PrecheckPasses(entries, binding, actorId, reason, at);
    var proof := ProofFrom(entries, binding, at, false).value;
    if proof.task.state == Done {
      DoneNeedsNoRelease(entries, binding, at);
      RetryFound(glob, op, start, entries, around, proof.task);
      return Ok(proof.task), op;
    }
    if Leases.ClaimStateAt(proof.claim, at) == Some(Leases.Active) {
      var released := Claims.Perform(glob, store, ReleaseOp(binding, at), around.beforeRelease);
      if released.Err? {
        ReleaseRefuses(glob, start, store.log, taskId, op, around, released.error);
        return Err(released.error), op;
      }
      ReleaseWritten(glob, op, entries, store.log, around.beforeRelease, released.value);
    } else {
      NoReleaseNeeded(glob, op, entries, around.beforeRelease);
    }
    ghost var from := store.log;
    r := CompletionLoop(store, CompleteTask(binding, actorId, reason, at), around.beforeCompletion);
    if r.Err? {
      LoopRefuses(glob, start, from, store.log, taskId, op, around, r.error);
    } else {
      LoopCompletes(glob, op, start, from, store.log, around, r.value);
    }
  }

  lemma NoBinding(glob: Leases.Glob, log: seq<Entry>, taskId: Id, op: CompleteOp, around: Around)
    requires CompletedBinding(log, taskId).None?
    ensures NotCompleted(glob, log, log, taskId, op, around, NotProven)
  {
    hide Turned, Claims.Turned, Precheck, CompletedBinding;
  }

  lemma PrecheckRefuses(glob: Leases.Glob, before: seq<Entry>, log: seq<Entry>, taskId: Id, op: CompleteOp, around: Around, e: Refusal)
    requires CompletedBinding(before, taskId) == Some(op.binding) && log == Extend(before, around.beforeProof)
    requires Precheck(log, op.binding, op.actorId, op.reason, op.at) == Some(e)
    ensures NotCompleted(glob, before, log, taskId, op, around, e)
  {
    hide Turned, Claims.Turned, Precheck, CompletedBinding;
  }

  lemma PrecheckPasses(log: seq<Entry>, b: WorkBinding, actorId: Id, reason: string, at: Time)
    requires Precheck(log, b, actorId, reason, at).None?
    ensures ProofFrom(log, b, at, false).Ok?
    ensures ProofFrom(log, b, at, false).value.task.state == Done ==> SameRetry(ProofFrom(log, b, at, false).value.task, actorId, reason)
    ensures ProofFrom(log, b, at, false).value.task.state != Done ==> Timely(log, CompleteTask(b, actorId, reason, at))
  {
    hide ProofFrom;
  }

  lemma RetryFound(glob: Leases.Glob, op: CompleteOp, before: seq<Entry>, log: seq<Entry>, around: Around, t: Task)
    requires log == Extend(before, around.beforeProof)
    requires ProofFrom(log, op.binding, op.at, true).Ok? && ProofFrom(log, op.binding, op.at, true).value.task == t
    requires SameRetry(t, op.actorId, op.reason)
    ensures CompletedBy(glob, op, before, log, around, t)
  {
    hide ProofFrom, LoopDone;
  }

  /** A claim whose locks agree is active exactly if some lock of it is. */
  lemma ActiveIff(c: Leases.Claim, at: Time)
    requires Leases.ClaimStateAt(c, at).Some?
    ensures Leases.ClaimStateAt(c, at) == Some(Leases.Active) <==>
            exists i :: 0 <= i < |c.locks| && c.locks[i].state == Leases.Active && at < c.locks[i].expiresAt
  {
    if Leases.ClaimStateAt(c, at) == Some(Leases.Active) {
      assert Leases.StateAt(c.locks[0], at) == Leases.Active;
    }
    if i :| 0 <= i < |c.locks| && c.locks[i].state == Leases.Active && at < c.locks[i].expiresAt {
      assert Leases.StateAt(c.locks[i], at) == Leases.StateAt(c.locks[0], at);
    }
  }

  lemma ProofHasState(log: seq<Entry>, b: WorkBinding, at: Time)
    requires ProofFrom(log, b, at, false).Ok? && ProofFrom(log, b, at, false).value.task.state != Done
    ensures Leases.ClaimStateAt(ProofFrom(log, b, at, false).value.claim, at).Some?
  {
    hide LatestEntry, LastReview, Releasable, ObservedHead, Leases.ClaimStateAt;
  }

  /** What a passed check lets through: a proof not later than the completion. */
  ghost predicate Timely(log: seq<Entry>, op: CompleteOp) {
    && ProofFrom(log, op.binding, op.at, false).Ok?
    && ProofFrom(log, op.binding, op.at, false).value.task.state != Done
    && !PredatesProof(ProofFrom(log, op.binding, op.at, false).value, op.at)
  }

  lemma NoReleaseNeeded(glob: Leases.Glob, op: CompleteOp, log: seq<Entry>, others: Others)
    requires Timely(log, op) && Leases.ClaimStateAt(ProofFrom(log, op.binding, op.at, false).value.claim, op.at) != Some(Leases.Active)
    ensures ReleaseDone(glob, op, log, log, others)
  {
    hide ProofFrom, Leases.ClaimStateAt, Claims.Performed;
    ProofHasState(log, op.binding, op.at);
    ActiveIff(ProofFrom(log, op.binding, op.at, false).value.claim, op.at);
  }

  lemma ReleaseWritten(glob: Leases.Glob, op: CompleteOp, before: seq<Entry>, after: seq<Entry>, others: Others, d: Draft)
    requires Timely(before, op) && Leases.ClaimStateAt(ProofFrom(before, op.binding, op.at, false).value.claim, op.at) == Some(Leases.Active)
    requires Claims.Performed(glob, ReleaseOp(op.binding, op.at), before, after, others, d)
    ensures ReleaseDone(glob, op, before, after, others)
  {
    hide ProofFrom, Leases.ClaimStateAt, Claims.Performed;
    ActiveIff(ProofFrom(before, op.binding, op.at, false).value.claim, op.at);
  }

  lemma ReleaseRefuses(glob: Leases.Glob, before: seq<Entry>, after: seq<Entry>, taskId: Id, op: CompleteOp, around: Around, e: Refusal)
    requires CompletedBinding(before, taskId) == Some(op.binding)
    requires Claims.Turned(glob, ReleaseOp(op.binding, op.at), Extend(before, around.beforeProof), after, around.beforeRelease, e)
    requires OnlyOthers(Extend(before, around.beforeProof), around.beforeRelease, after)
    ensures NotCompleted(glob, before, after, taskId, op, around, e)
  {
    hide Turned, Claims.Turned, Precheck, CompletedBinding, OnlyOthers;
  }

  lemma LoopRefuses(glob: Leases.Glob, before: seq<Entry>, released: seq<Entry>, after: seq<Entry>, taskId: Id, op: CompleteOp,
                    around: Around, e: Refusal)
    requires CompletedBinding(before, taskId) == Some(op.binding)
    requires ReleaseDone(glob, op, Extend(before, around.beforeProof), released, around.beforeRelease)
    requires Turned(op, after, around.beforeCompletion, e) && OnlyOthers(released, around.beforeCompletion, after)
    ensures NotCompleted(glob, before, after, taskId, op, around, e)
  {
    hide Turned, Claims.Turned, Precheck, CompletedBinding, OnlyOthers, ReleaseDone;
  }

  lemma LoopCompletes(glob: Leases.Glob, op: CompleteOp, before: seq<Entry>, released: seq<Entry>, after: seq<Entry>, around: Around, t: Task)
    requires ReleaseDone(glob, op, Extend(before, around.beforeProof), released, around.beforeRelease)
    requires LoopDone(op, released, after, around.beforeCompletion, t)
    ensures CompletedBy(glob, op, before, after, around, t)
  {
    hide ReleaseDone, LoopDone, FoundDone;
  }

  /** On a done task requiring a released claim asks for nothing more. */
  lemma DoneNeedsNoRelease(log: seq<Entry>, b: WorkBinding, at: Time)
    requires ProofFrom(log, b, at, false).Ok? && ProofFrom(log, b, at, false).value.task.state == Done
    ensures ProofFrom(log, b, at, true) == ProofFrom(log, b, at, false)
  {
    hide LatestEntry, LastReview;
  }
}
