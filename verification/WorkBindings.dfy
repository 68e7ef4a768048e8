/**
 * The binding of a native task to its Change Set and claim (application/task_claims.py): one
 * reservation, at most one completion, and the recovery of an expired claim.
 */
module WorkBindings {
  import opened Common
  import opened Races
  import opened Records
  import opened Chain
  import opened Decisions
  import opened LedgerStore
  import Leases
  import Claims
  import TaskIntents
  import Tasks

  datatype WorkOp =
    | Reserve(taskId: Id, changeSetId: Id, claimId: Id, agentId: Id, sessionId: Id, baseRevision: string, at: Time)
    | CompleteWork(taskId: Id, at: Time)

  predicate IsWorkOf(e: Entry, taskId: Id) {
    e.draft.kind == WorkKind && e.draft.entity == Named(taskId)
  }

  /** All work records of a task, oldest first. */
  function History(log: seq<Entry>, taskId: Id): seq<Payload> {
    if log == [] then []
    else
      var n := |log| - 1;
      History(log[..n], taskId) + (if IsWorkOf(log[n], taskId) then [log[n].draft.payload] else [])
  }

  /** The reversed scan both `_reserve` and `_complete` make. */
  method LatestWork(log: seq<Entry>, taskId: Id) returns (r: Option<Payload>)
    ensures r == var h := History(log, taskId); if h == [] then None else Some(h[|h| - 1])
  {
    var i := |log|;
    assert log[..i] == log;
    while i > 0
      invariant 0 <= i <= |log|
      invariant History(log, taskId) == History(log[..i], taskId)
    {
      assert log[..i][..i - 1] == log[..i - 1];
      if IsWorkOf(log[i - 1], taskId) {
        return Some(log[i - 1].draft.payload);
      }
      i := i - 1;
    }
    return None;
  }

  function Last(h: seq<Payload>): Payload
    requires h != []
  {
    h[|h| - 1]
  }

  function Reservation(op: WorkOp): WorkBinding
    requires op.Reserve?
  {
    WorkBinding(op.taskId, op.changeSetId, op.claimId, op.agentId, op.sessionId, op.baseRevision, op.at, false)
  }

  function WorkDraft(b: WorkBinding, at: Time): Draft {
    Draft(WorkKind, Named(b.taskId), WorkPayload(b), at)
  }

  function Decide(op: WorkOp, log: seq<Entry>): Decision<Refusal> {
    var h := History(log, op.taskId);
    match op
    case Reserve(_, _, _, _, _, _, at) =>
      if h == [] then Write(WorkDraft(Reservation(op), at))
      else if !Last(h).WorkPayload? then Refuse(Malformed)
      else Existing
    case CompleteWork(_, at) =>
      if h == [] then Refuse(NotFound)
      else if !Last(h).WorkPayload? then Refuse(Malformed)
      else if Last(h).binding.completed then Existing
      else Write(WorkDraft(Last(h).binding.(completed := true), at))
  }

  // ----- one identity for all history

  /** Nothing yet, a reservation, or a reservation and the same binding completed. */
  ghost predicate OneBinding(h: seq<Payload>, taskId: Id) {
    && |h| <= 2
    && (|h| > 0 ==> h[0].WorkPayload? && h[0].binding.taskId == taskId && !h[0].binding.completed)
    && (|h| > 1 ==> h[1] == WorkPayload(h[0].binding.(completed := true)))
  }

  ghost predicate BindingsOk(log: seq<Entry>) {
    forall taskId :: OneBinding(History(log, taskId), taskId)
  }

  lemma HistoryAfter(log: seq<Entry>, e: Entry, taskId: Id)
    ensures History(log + [e], taskId) == History(log, taskId) + (if IsWorkOf(e, taskId) then [e.draft.payload] else [])
  {
    assert (log + [e])[..|log|] == log;
  }

  lemma OutsideKeepsBindings(log: seq<Entry>, e: Entry)
    requires BindingsOk(log) && e.draft.kind != WorkKind
    ensures BindingsOk(log + [e])
  {
    forall taskId
      ensures OneBinding(History(log + [e], taskId), taskId)
    {
      HistoryAfter(log, e, taskId);
    }
  }

  lemma WorkOpKeepsBindings(log: seq<Entry>, op: WorkOp)
    requires BindingsOk(log) && Decide(op, log).Write?
    ensures BindingsOk(log + [NextEntry(log, Decide(op, log).draft)])
  {
    var e := NextEntry(log, Decide(op, log).draft);
    assert OneBinding(History(log, op.taskId), op.taskId);
    forall taskId
      ensures OneBinding(History(log + [e], taskId), taskId)
    {
      HistoryAfter(log, e, taskId);
      assert OneBinding(History(log, taskId), taskId);
    }
  }

  lemma {:induction false} HistoryPrefix(log: seq<Entry>, n: nat, taskId: Id)
    requires n <= |log|
    ensures History(log[..n], taskId) <= History(log, taskId)
  {
    if n < |log| {
      assert log[..|log| - 1][..n] == log[..n];
      HistoryPrefix(log[..|log| - 1], n, taskId);
    } else {
      assert log[..n] == log;
    }
  }

  /** Bindings of one task to one Change Set and claim, whether completed or not. */
  predicate SameIdentity(a: WorkBinding, b: WorkBinding) {
    && a.taskId == b.taskId && a.changeSetId == b.changeSetId && a.claimId == b.claimId
    && a.agentId == b.agentId && a.sessionId == b.sessionId
    && a.baseRevision == b.baseRevision && a.createdAt == b.createdAt
  }

  /** Whatever is appended, a task keeps the identity it was first bound with, and stays completed. */
  lemma IdentityNeverChanges(log: seq<Entry>, n: nat, taskId: Id)
    requires n <= |log| && BindingsOk(log[..n]) && BindingsOk(log)
    requires History(log[..n], taskId) != []
    ensures History(log, taskId) != []
    ensures Last(History(log[..n], taskId)).WorkPayload? && Last(History(log, taskId)).WorkPayload?
    ensures var before, after := Last(History(log[..n], taskId)).binding, Last(History(log, taskId)).binding;
            && SameIdentity(before, after) && after.taskId == taskId
            && (before.completed ==> after == before)
  {
    HistoryPrefix(log, n, taskId);
    assert OneBinding(History(log[..n], taskId), taskId) && OneBinding(History(log, taskId), taskId);
  }

  // ----- services over a store

  /** Why no binding was returned: the last record is none, there is nothing to complete, or others won every race. */
  ghost predicate Turned(op: WorkOp, after: seq<Entry>, others: Others, e: Refusal) {
    var h := History(after, op.taskId);
    || (e == Malformed && h != [] && !Last(h).WorkPayload?)
    || (e == NotFound && op.CompleteWork? && h == [])
    || (e == HeadMoved && LostRaces(others, ATTEMPTS))
  }

  /** The record of `b`, appended to the ledger others left, on which `op` decides it. */
  ghost predicate Recorded(op: WorkOp, before: seq<Entry>, after: seq<Entry>, others: Others, b: WorkBinding) {
    exists n :: RecordedAt(op, Joined(before, others, 0, n), after, b)
  }

  /** One record of `b` more: the task's first, or that of its last binding, which was not completed. */
  ghost predicate RecordedAt(op: WorkOp, prefix: seq<Entry>, after: seq<Entry>, b: WorkBinding) {
    var h := History(prefix, op.taskId);
    && after == prefix + [NextEntry(prefix, Draft(WorkKind, Named(b.taskId), WorkPayload(b), op.at))]
    && (op.Reserve? ==> h == [])
    && (op.CompleteWork? ==> h != [] && Last(h) == WorkPayload(b.(completed := false)) && b.completed)
  }

  /** The binding `op` finds in force, completed if it is to complete it; nothing is appended for it. */
  ghost predicate Found(op: WorkOp, before: seq<Entry>, after: seq<Entry>, others: Others, b: WorkBinding) {
    var h := History(after, op.taskId);
    OnlyOthers(before, others, after) && h != [] && WorkPayload(b) == Last(h) && (op.CompleteWork? ==> b.completed)
  }

  /** The methods below record, find and refuse what `Decide` does in the runs of all services. */
  lemma DecidesIff(op: WorkOp, log: seq<Entry>, others: Others, b: WorkBinding, e: Refusal)
    ensures Decide(op, log) == Write(WorkDraft(b, op.at)) <==>
            RecordedAt(op, log, log + [NextEntry(log, WorkDraft(b, op.at))], b) && (op.Reserve? ==> b == Reservation(op))
    ensures Found(op, log, log, others, b) ==> Decide(op, log).Existing?
    ensures Decide(op, log).Existing? ==> Found(op, log, log, others, Last(History(log, op.taskId)).binding)
    ensures e != HeadMoved ==> (Decide(op, log) == Refuse(e) <==> Turned(op, log, others, e))
  {
    hide History;
    assert OnlyOthers(log, others, log) by { assert log == Joined(log, others, 0, 0); }
  }

  lemma NobodyJoined(log: seq<Entry>, others: Others)
    ensures Joined(log, others, 0, 0) == log
  {
  }

  lemma JoinedNext(log: seq<Entry>, others: Others, n: nat)
    ensures Joined(log, others, 0, n + 1) == Extend(Joined(log, others, 0, n), others(n))
    ensures others(n) == [] ==> Joined(log, others, 0, n + 1) == Joined(log, others, 0, n)
  {
  }

  /** What the last record of the task answers, read on a ledger only others have appended to. */
  lemma AnswersFound(op: WorkOp, before: seq<Entry>, others: Others, n: nat)
    ensures var log := Joined(before, others, 0, n);
            var h := History(log, op.taskId);
            && OnlyOthers(before, others, log)
            && (h == [] && op.CompleteWork? ==> Turned(op, log, others, NotFound))
            && (h != [] && !Last(h).WorkPayload? ==> Turned(op, log, others, Malformed))
            && (h != [] && Last(h).WorkPayload? && (op.CompleteWork? ==> Last(h).binding.completed) ==>
                  Found(op, before, log, others, Last(h).binding))
  {
    hide History;
  }

  lemma AnswersLost(op: WorkOp, before: seq<Entry>, others: Others, n: nat)
    requires LostRaces(others, ATTEMPTS)
    ensures OnlyOthers(before, others, Joined(before, others, 0, n))
    ensures Turned(op, Joined(before, others, 0, n), others, HeadMoved)
  {
    hide History;
  }

  /** The record of `b`, appended to a ledger whose last record of the task allows it. */
  lemma RecordsOne(op: WorkOp, before: seq<Entry>, others: Others, n: nat, b: WorkBinding)
    requires var h := History(Joined(before, others, 0, n), op.taskId);
             if op.Reserve? then h == [] else h != [] && Last(h) == WorkPayload(b.(completed := false)) && b.completed
    ensures var prefix := Joined(before, others, 0, n);
            Recorded(op, before, prefix + [NextEntry(prefix, WorkDraft(b, op.at))], others, b)
  {
    hide History;
    var prefix := Joined(before, others, 0, n);
    assert RecordedAt(op, prefix, prefix + [NextEntry(prefix, WorkDraft(b, op.at))], b);
  }

  /** `_reserve`: the binding now in force, this one or an earlier one. */
  method ReserveWork(store: Store, op: WorkOp, others: Others) returns (r: Result<WorkBinding, Refusal>)
    requires op.Reserve? && ValidChain(store.log)
    modifies store
    ensures ValidChain(store.log) && old(store.log) <= store.log
    ensures r.Ok? ==>
              || Found(op, old(store.log), store.log, others, r.value)
              || (Recorded(op, old(store.log), store.log, others, r.value)
                  && r.value == WorkBinding(op.taskId, op.changeSetId, op.claimId, op.agentId, op.sessionId, op.baseRevision, op.at, false))
    ensures r.Err? ==> Turned(op, store.log, others, r.error) && OnlyOthers(old(store.log), others, store.log)
  {
    hide History, Found, Recorded, Turned, OnlyOthers, Decide, ValidChain, Joined, Extend, LostRaces;
    var attempt := 0;
    NoRaceYet(others);
    assert store.log == Joined(store.log, others, 0, 0) by { NobodyJoined(store.log, others); }
    while attempt < ATTEMPTS
      invariant ValidChain(store.log) && old(store.log) <= store.log
      invariant store.log == Joined(old(store.log), others, 0, 2 * attempt)
      invariant attempt <= ATTEMPTS && LostRaces(others, attempt)
    {
      store.Interfere(others(2 * attempt));
      JoinedNext(old(store.log), others, 2 * attempt);
      var entries := store.Snapshot();
      var existing := LatestWork(entries, op.taskId);
      if existing.Some? {
        AnswersFound(op, old(store.log), others, 2 * attempt + 1);
        if !existing.value.WorkPayload? {
          return Err(Malformed);
        }
        return Ok(existing.value.binding);
      }
      store.Interfere(others(2 * attempt + 1));
      JoinedNext(old(store.log), others, 2 * attempt + 1);
      ghost var before := store.log;
      var ok := store.RecordIfHead(WorkDraft(Reservation(op), op.at), HeadDigest(entries));
      if ok {
        SameHeadSameLogLater(entries, before);
        RecordsOne(op, old(store.log), others, 2 * attempt + 2, Reservation(op));
        return Ok(Reservation(op));
      }
      LostAnother(others, attempt);
      attempt := attempt + 1;
    }
    AnswersLost(op, old(store.log), others, 2 * attempt);
    return Err(HeadMoved);
  }

  /** `_complete`: the binding as it was reserved, now completed. */
  method FinishWork(store: Store, op: WorkOp, others: Others) returns (r: Result<WorkBinding, Refusal>)
    requires op.CompleteWork? && ValidChain(store.log)
    modifies store
    ensures ValidChain(store.log) && old(store.log) <= store.log
    ensures r.Ok? ==> r.value.completed
    ensures r.Ok? ==>
              Found(op, old(store.log), store.log, others, r.value) || Recorded(op, old(store.log), store.log, others, r.value)
    ensures r.Err? ==> Turned(op, store.log, others, r.error) && OnlyOthers(old(store.log), others, store.log)
  {
    hide History, Found, Recorded, Turned, OnlyOthers, Decide, ValidChain, Joined, Extend, LostRaces;
    var attempt := 0;
    NoRaceYet(others);
    assert store.log == Joined(store.log, others, 0, 0) by { NobodyJoined(store.log, others); }
    while attempt < ATTEMPTS
      invariant ValidChain(store.log) && old(store.log) <= store.log
      invariant store.log == Joined(old(store.log), others, 0, 2 * attempt)
      invariant attempt <= ATTEMPTS && LostRaces(others, attempt)
    {
      store.Interfere(others(2 * attempt));
      JoinedNext(old(store.log), others, 2 * attempt);
      var entries := store.Snapshot();
      var latest := LatestWork(entries, op.taskId);
      AnswersFound(op, old(store.log), others, 2 * attempt + 1);
      if latest.None? {
        return Err(NotFound);
      }
      if !latest.value.WorkPayload? {
        return Err(Malformed);
      }
      var current := latest.value.binding;
      if current.completed {
        return Ok(current);
      }
      var completed := current.(completed := true);
      store.Interfere(others(2 * attempt + 1));
      JoinedNext(old(store.log), others, 2 * attempt + 1);
      ghost var before := store.log;
      var ok := store.RecordIfHead(WorkDraft(completed, op.at), HeadDigest(entries));
      if ok {
        SameHeadSameLogLater(entries, before);
        RecordsOne(op, old(store.log), others, 2 * attempt + 2, completed);
        return Ok(completed);
      }
      LostAnother(others, attempt);
      attempt := attempt + 1;
    }
    AnswersLost(op, old(store.log), others, 2 * attempt);
    return Err(HeadMoved);
  }

  /** What `require` answers: the task in the latest snapshot. */
  predicate InProgress(log: seq<Entry>, taskId: Id) {
    Tasks.LatestTasks(log).Some? && taskId in Tasks.LatestTasks(log).value
    && Tasks.LatestTasks(log).value[taskId].state == TaskIntents.InProgress
  }

  function ReacquireOp(b: WorkBinding, at: Time, seconds: int, expected: Digest): Claims.ClaimOp {
    Claims.Reacquire(b.claimId, b.agentId, b.sessionId, at, seconds, Some(expected))
  }

  /** The reacquisition is the one record appended to what others left, a ledger in which the task is in progress. */
  ghost predicate ReacquiredWhileRunning(glob: Leases.Glob, before: seq<Entry>, log: seq<Entry>, others: Others, b: WorkBinding,
                                         at: Time, seconds: int, c: Leases.Claim) {
    exists n :: RecoveredOn(glob, Joined(before, others, 0, n), log, b, at, seconds, c)
  }

  ghost predicate RecoveredOn(glob: Leases.Glob, prefix: seq<Entry>, log: seq<Entry>, b: WorkBinding, at: Time, seconds: int, c: Leases.Claim) {
    && InProgress(prefix, b.taskId)
    && log == prefix + [NextEntry(prefix, Claims.ClaimDraft(c))]
    && Claims.Decide(glob, ReacquireOp(b, at, seconds, HeadDigest(prefix)), prefix) == Write(Claims.ClaimDraft(c))
  }

  /** What `require` raises on a ledger. */
  function RequireTask(log: seq<Entry>, taskId: Id): Option<Refusal> {
    match Tasks.LatestTasks(log)
    case None => Some(Malformed)
    case Some(tasks) => if taskId in tasks then None else Some(NotFound)
  }

  /** In each of the first `n` rounds others appended between the first read and the append. */
  ghost predicate Disturbed(others: Others, n: nat) {
    forall a :: 0 <= a < n ==> Hectic(others, a)
  }

  ghost predicate Hectic(others: Others, a: nat) {
    others(5 * a + 1) != [] || others(5 * a + 2) != [] || others(5 * a + 3) != [] || others(5 * a + 4) != []
  }

  /** A ledger on which the recovery is refused: its task, or the claim service, refuses it. */
  ghost predicate RecoveryRefused(glob: Leases.Glob, prefix: seq<Entry>, b: WorkBinding, at: Time, seconds: int, e: Refusal) {
    || RequireTask(prefix, b.taskId) == Some(e)
    || (RequireTask(prefix, b.taskId).None? && !InProgress(prefix, b.taskId) && e == BadTransition)
    || (InProgress(prefix, b.taskId) && Claims.Decide(glob, ReacquireOp(b, at, seconds, HeadDigest(prefix)), prefix) == Refuse(e))
  }

  /** Why nothing was recovered: some ledger refuses it, or others disturbed every round. */
  ghost predicate NotRecovered(glob: Leases.Glob, before: seq<Entry>, after: seq<Entry>, b: WorkBinding, at: Time, seconds: int,
                               others: Others, e: Refusal) {
    || (exists prefix :: before <= prefix <= after && RecoveryRefused(glob, prefix, b, at, seconds, e))
    || (e == HeadMoved && Disturbed(others, ATTEMPTS))
  }

  /** The three reads of a round: the ledger, the task service's snapshot, the ledger again. */
  method ReadAround(store: Store, others: Others, a: nat) returns (before: seq<Entry>, middle: seq<Entry>, after: seq<Entry>)
    requires ValidChain(store.log)
    modifies store
    ensures ValidChain(store.log) && old(store.log) <= before <= middle <= after == store.log
    ensures after == Joined(old(store.log), others, 5 * a, 5 * a + 3)
    ensures others(5 * a + 1) == [] && others(5 * a + 2) == [] ==> after == before
  {
    store.Interfere(others(5 * a));
    assert store.log == Joined(old(store.log), others, 5 * a, 5 * a + 1);
    before := store.Snapshot();
    store.Interfere(others(5 * a + 1));
    assert store.log == Joined(old(store.log), others, 5 * a, 5 * a + 2);
    middle := store.Snapshot();
    store.Interfere(others(5 * a + 2));
    assert store.log == Joined(old(store.log), others, 5 * a, 5 * a + 3);
    after := store.Snapshot();
  }

  /** The rest of a round that ended early. */
  method LetOthers(store: Store, ghost start: seq<Entry>, others: Others, a: nat)
    requires ValidChain(store.log) && store.log == Joined(start, others, 5 * a, 5 * a + 3)
    modifies store
    ensures ValidChain(store.log) && old(store.log) <= store.log && store.log == Joined(start, others, 5 * a, 5 * a + 5)
  {
    store.Interfere(others(5 * a + 3));
    assert store.log == Joined(start, others, 5 * a, 5 * a + 4);
    store.Interfere(others(5 * a + 4));
    assert store.log == Joined(start, others, 5 * a, 5 * a + 5);
  }

  /** The rest of a round that found the task in progress: the claim service, against the ledger read. */
  method RecoverFrom(glob: Leases.Glob, store: Store, ghost start: seq<Entry>, b: WorkBinding, at: Time, seconds: int, others: Others, a: nat)
    returns (r: Option<Result<Leases.Claim, Refusal>>, ghost n: nat)
    requires ValidChain(store.log) && store.log == Joined(start, others, 5 * a, 5 * a + 3) && InProgress(store.log, b.taskId)
    modifies store
    ensures ValidChain(store.log) && old(store.log) <= store.log && 5 * a <= n <= 5 * a + 5
    ensures r.None? ==> Hectic(others, a) && n == 5 * a + 5 && store.log == Joined(start, others, 5 * a, n)
    ensures r.Some? && r.value.Ok? ==> RecoveredOn(glob, Joined(start, others, 5 * a, n), store.log, b, at, seconds, r.value.value)
    ensures r.Some? && r.value.Err? ==>
              store.log == Joined(start, others, 5 * a, n) && RecoveryRefused(glob, old(store.log), b, at, seconds, r.value.error)
  {
    hide InProgress, RecoveredOn, RequireTask, RecoveryRefused;
    var before := store.Snapshot();
    store.Interfere(others(5 * a + 3));
    assert store.log == Joined(start, others, 5 * a, 5 * a + 4);
    ghost var asked := store.log;
    var claimed := ReacquireAt(glob, store, before, b, at, seconds, others(5 * a + 4));
    assert Extend(asked, others(5 * a + 4)) == Joined(start, others, 5 * a, 5 * a + 5);
    if claimed == Err(HeadMoved) {
      return None, 5 * a + 5;
    }
    if claimed.Err? {
      ClaimRefuses(glob, before, b, at, seconds, claimed.error);
      return Some(claimed), 5 * a + 4;
    }
    return Some(claimed), 5 * a + 5;
  }

  /**
   * One round; `None` is a round in which the ledger moved. Others have five opportunities in it,
   * whether it ends early or not.
   */
  method RecoverOnce(glob: Leases.Glob, store: Store, b: WorkBinding, at: Time, seconds: int, others: Others, a: nat)
    returns (r: Option<Result<Leases.Claim, Refusal>>, ghost n: nat)
    requires ValidChain(store.log)
    modifies store
    ensures ValidChain(store.log) && old(store.log) <= store.log && 5 * a <= n <= 5 * a + 5
    ensures r.None? ==> Hectic(others, a) && n == 5 * a + 5 && store.log == Joined(old(store.log), others, 5 * a, n)
    ensures r.Some? && r.value.Ok? ==>
              RecoveredOn(glob, Joined(old(store.log), others, 5 * a, n), store.log, b, at, seconds, r.value.value)
    ensures r.Some? && r.value.Err? ==>
              && store.log == Joined(old(store.log), others, 5 * a, n)
              && exists prefix :: old(store.log) <= prefix <= store.log && RecoveryRefused(glob, prefix, b, at, seconds, r.value.error)
  {
    hide InProgress, RecoveredOn, RequireTask, RecoveryRefused;
    ghost var start := store.log;
    var before, middle, after := ReadAround(store, others, a);
    var tasks := Tasks.CollectTasks(middle);
    if tasks.None? || b.taskId !in tasks.value {
      var e := if tasks.None? then Malformed else NotFound;
      RequireRefuses(glob, middle, b, at, seconds, e);
      return Some(Err(e)), 5 * a + 3;
    }
    if HeadDigest(after) != HeadDigest(before) {
      LetOthers(store, start, others, a);
      return None, 5 * a + 5;
    }
    SameHeadSameLogLater(before, after);
    assert middle == before by { Squeezed(before, middle, after); }
    if tasks.value[b.taskId].state != TaskIntents.InProgress {
      IdleRefuses(glob, middle, b, at, seconds);
      return Some(Err(BadTransition)), 5 * a + 3;
    }
    RunningIn(middle, b.taskId);
    r, n := RecoverFrom(glob, store, start, b, at, seconds, others, a);
  }

  /**
   * `_reacquire_for_runnable_task`: the ledger is read before and after the task, so that the
   * digest the claim service must still find is one at which the task was in progress. It appends
   * the reacquired claim or nothing.
   */
  method ReacquireForRunnableTask(glob: Leases.Glob, store: Store, b: WorkBinding, at: Time, seconds: int, others: Others)
    returns (r: Result<Leases.Claim, Refusal>)
    requires ValidChain(store.log)
    modifies store
    ensures ValidChain(store.log) && old(store.log) <= store.log
    ensures r.Ok? ==> ReacquiredWhileRunning(glob, old(store.log), store.log, others, b, at, seconds, r.value)
    ensures r.Err? ==> NotRecovered(glob, old(store.log), store.log, b, at, seconds, others, r.error)
    ensures r.Err? ==> OnlyOthers(old(store.log), others, store.log)
  {
    hide RecoveredOn, RecoveryRefused, Hectic;
    var attempt := 0;
    while attempt < ATTEMPTS
      invariant ValidChain(store.log) && old(store.log) <= store.log
      invariant store.log == Joined(old(store.log), others, 0, 5 * attempt)
      invariant attempt <= ATTEMPTS && Disturbed(others, attempt)
    {
      ghost var n;
      var round;
      round, n := RecoverOnce(glob, store, b, at, seconds, others, attempt);
      JoinedTwice(old(store.log), others, 0, 5 * attempt, n);
      if round.Some? {
        return round.value;
      }
      attempt := attempt + 1;
    }
    return Err(HeadMoved);
  }

  lemma RequireRefuses(glob: Leases.Glob, log: seq<Entry>, b: WorkBinding, at: Time, seconds: int, e: Refusal)
    requires Tasks.LatestTasks(log).None? || b.taskId !in Tasks.LatestTasks(log).value
    requires e == if Tasks.LatestTasks(log).None? then Malformed else NotFound
    ensures RecoveryRefused(glob, log, b, at, seconds, e)
  {
    hide Tasks.LatestTasks;
  }

  lemma IdleRefuses(glob: Leases.Glob, log: seq<Entry>, b: WorkBinding, at: Time, seconds: int)
    requires Tasks.LatestTasks(log).Some? && b.taskId in Tasks.LatestTasks(log).value
    requires Tasks.LatestTasks(log).value[b.taskId].state != TaskIntents.InProgress
    ensures RecoveryRefused(glob, log, b, at, seconds, BadTransition)
  {
    hide Tasks.LatestTasks;
  }

  lemma ClaimRefuses(glob: Leases.Glob, log: seq<Entry>, b: WorkBinding, at: Time, seconds: int, e: Refusal)
    requires InProgress(log, b.taskId)
    requires Claims.Decide(glob, ReacquireOp(b, at, seconds, HeadDigest(log)), log) == Refuse(e)
    ensures RecoveryRefused(glob, log, b, at, seconds, e)
  {
    hide InProgress, Claims.Decide;
  }

  lemma Squeezed(a: seq<Entry>, b: seq<Entry>, c: seq<Entry>)
    requires a <= b <= c && a == c
    ensures b == a
  {
  }

  lemma RunningIn(log: seq<Entry>, taskId: Id)
    requires Tasks.LatestTasks(log).Some? && taskId in Tasks.LatestTasks(log).value
    requires Tasks.LatestTasks(log).value[taskId].state == TaskIntents.InProgress
    ensures InProgress(log, taskId)
  {
  }

  /** One round of `ClaimService.reacquire` against the digest of `prefix`; a moved head is reported at once. */
  method ReacquireAt(glob: Leases.Glob, store: Store, prefix: seq<Entry>, b: WorkBinding, at: Time, seconds: int, between: seq<Draft>)
    returns (r: Result<Leases.Claim, Refusal>)
    requires ValidChain(store.log) && prefix <= store.log && InProgress(prefix, b.taskId)
    modifies store
    ensures ValidChain(store.log) && old(store.log) <= store.log
    ensures r.Ok? ==> prefix == Extend(old(store.log), between) && RecoveredOn(glob, prefix, store.log, b, at, seconds, r.value)
    ensures r == Err(HeadMoved) ==> (old(store.log) != prefix || between != []) && store.log == Extend(old(store.log), between)
    ensures r.Err? && r.error != HeadMoved ==>
              store.log == old(store.log) &&
              Claims.Decide(glob, ReacquireOp(b, at, seconds, HeadDigest(prefix)), prefix) == Refuse(r.error)
  {
    hide InProgress, Claims.Decide;
    var expected := HeadDigest(prefix);
    var snapshot := store.Snapshot();
    if HeadDigest(snapshot) != expected {
      store.Interfere(between);
      return Err(HeadMoved);
    }
    SameHeadSameLogLater(prefix, snapshot);
    var d := Claims.DecideNow(glob, ReacquireOp(b, at, seconds, expected), snapshot);
    if d.Refuse? {
      MovedOnlyElsewhere(glob, ReacquireOp(b, at, seconds, expected), snapshot);
      return Err(d.error);
    }
    Claims.NeverExisting(glob, ReacquireOp(b, at, seconds, expected), snapshot);
    Claims.WritesAClaim(glob, ReacquireOp(b, at, seconds, expected), snapshot);
    store.Interfere(between);
    ghost var reached := store.log;
    var ok := store.RecordIfHead(d.draft, expected);
    if !ok {
      return Err(HeadMoved);
    }
    SameHeadSameLogLater(prefix, reached);
    return Ok(d.draft.payload.claim);
  }

  lemma MovedOnlyElsewhere(glob: Leases.Glob, op: Claims.ClaimOp, log: seq<Entry>)
    requires op.Reacquire? && op.expected == Some(HeadDigest(log))
    ensures Claims.Decide(glob, op, log) != Refuse(HeadMoved)
  {
    hide Claims.LatestClaims, Claims.Blocked, Leases.ClaimAccepted;
  }
}
