/** Task intent and plan relations as values (domain/task.py). */
module TaskIntents {
  import opened Common

  datatype TaskState = Idea | Todo | InProgress | Blocked | Done | Abandoned

  datatype StateEvent = StateEvent(previous: TaskState, state: TaskState, actorId: Id, rationale: string, at: Time)

  datatype Intent = Intent(title: string, why: string, what: string, roiNote: Option<string>)

  datatype Task = Task(id: Id, intent: Intent, priority: nat, state: TaskState, scopes: seq<string>,
                       createdAt: Time, updatedAt: Time, events: seq<StateEvent>)

  datatype Dependency = Dependency(taskId: Id, dependsOn: Id, createdAt: Time)

  datatype Conflict = Conflict(first: Id, second: Id, reason: string, createdAt: Time)

  predicate AllowedTransition(before: TaskState, after: TaskState) {
    match before
    case Idea => after == Todo || after == Abandoned
    case Todo => after == InProgress || after == Blocked || after == Abandoned
    case InProgress => after == Todo || after == Blocked || after == Done || after == Abandoned
    case Blocked => after == Todo || after == InProgress || after == Abandoned
    case Done => false
    case Abandoned => false
  }

  predicate CanTransition(t: Task, state: TaskState, at: Time) {
    AllowedTransition(t.state, state) && t.updatedAt <= at
  }

  function Transitioned(t: Task, state: TaskState, actorId: Id, rationale: string, at: Time): Task {
    t.(state := state, updatedAt := at, events := t.events + [StateEvent(t.state, state, actorId, rationale, at)])
  }

  /** The event-history check of the TaskIntent constructor. */
  predicate ValidHistory(t: Task) {
    var n := |t.events|;
    && (n == 0 ==> (t.state == Idea || t.state == Todo) && t.updatedAt == t.createdAt)
    && (n > 0 ==>
          && (t.events[0].previous == Idea || t.events[0].previous == Todo)
          && t.createdAt <= t.events[0].at
          && t.events[n - 1].state == t.state && t.events[n - 1].at == t.updatedAt)
    && (forall i :: 0 <= i < n ==> AllowedTransition(t.events[i].previous, t.events[i].state))
    && (forall i :: 0 < i < n ==> t.events[i].previous == t.events[i - 1].state && t.events[i - 1].at <= t.events[i].at)
  }

  /** A transition the source allows yields a task its constructor accepts. */
  lemma TransitionKeepsHistory(t: Task, state: TaskState, actorId: Id, rationale: string, at: Time)
    requires ValidHistory(t) && CanTransition(t, state, at)
    ensures ValidHistory(Transitioned(t, state, actorId, rationale, at))
  {
    var u := Transitioned(t, state, actorId, rationale, at);
    forall i | 0 < i < |u.events|
      ensures u.events[i].previous == u.events[i - 1].state && u.events[i - 1].at <= u.events[i].at
    {
      assert u.events[i - 1] == t.events[i - 1];
    }
  }
}

/**
 * What the services store. A draft's payload is kept decoded; the constructor of `Payload`
 * stands for the JSON shape its decoder accepts, and reading it as another shape is the
 * "malformed" error of the source. Relation identifiers are hashes of a pair of task ids
 * in the source and the pair itself here.
 */
module Records {
  import opened Common
  import Leases
  import ChangeSets
  import TaskIntents

  datatype Kind =
    | TaskKind | DependencyKind | ConflictKind | ClaimKind | WorkKind
    | ChangeSetKind | ReviewKind | ReceiptKind | OtherKind(name: string)

  datatype Entity = Named(name: Id) | Pair(first: Id, second: Id)

  datatype WorkBinding = WorkBinding(taskId: Id, changeSetId: Id, claimId: Id, agentId: Id, sessionId: Id,
                                     baseRevision: string, createdAt: Time, completed: bool)

  datatype ReviewOutcome = Ready | ReadyWithFollowUp | BlockedReview | StaleReview | EvidenceIncomplete

  datatype ReviewRecord = ReviewRecord(id: Id, changeSetId: Id, decisionChangeSetId: Id, head: string, decisionHead: string,
                                       releasable: bool, policySatisfied: bool, outcome: ReviewOutcome, createdAt: Time)

  /** A source-plan import receipt: what a repeated import answers from. */
  datatype ImportReceipt = ImportReceipt(source: string, digest: string, nativeIds: seq<Id>,
                                         skipped: seq<Id>, satisfied: seq<(Id, Id)>)

  datatype Payload =
    | TaskPayload(task: TaskIntents.Task)
    | DependencyPayload(dependency: TaskIntents.Dependency)
    | ConflictPayload(conflict: TaskIntents.Conflict)
    | ClaimPayload(claim: Leases.Claim)
    | WorkPayload(binding: WorkBinding)
    | ChangeSetPayload(changeBinding: ChangeSets.ChangeBinding)
    | ReviewPayload(review: ReviewRecord)
    | ReceiptPayload(receipt: ImportReceipt)
    | OpaquePayload(json: string)

  datatype Draft = Draft(kind: Kind, entity: Entity, payload: Payload, recordedAt: Time)
}

/**
 * The hash chain both backends share. A digest is the content it covers, so equal digests
 * mean equal content without any assumption about SHA-256.
 */
module Chain {
  import opened Common
  import opened Records

  datatype Digest = Genesis | Of(sequence: nat, previous: Digest, draft: Draft)

  datatype Entry = Entry(sequence: nat, previous: Digest, digest: Digest, draft: Draft)

  datatype Head = Head(sequence: nat, digest: Digest)

  function HeadDigest(log: seq<Entry>): Digest {
    if log == [] then Genesis else log[|log| - 1].digest
  }

  function HeadOf(log: seq<Entry>): Head {
    Head(|log|, HeadDigest(log))
  }

  function MakeEntry(sequence: nat, previous: Digest, draft: Draft): Entry {
    Entry(sequence, previous, Of(sequence, previous, draft), draft)
  }

  function NextEntry(log: seq<Entry>, draft: Draft): Entry {
    MakeEntry(|log| + 1, HeadDigest(log), draft)
  }

  /** Entry number `i` is the one its draft yields after the entries before it. */
  predicate Links(log: seq<Entry>, i: nat)
    requires i < |log|
  {
    log[i] == MakeEntry(i + 1, if i == 0 then Genesis else log[i - 1].digest, log[i].draft)
  }

  /** A gap-free chain 1..n from genesis: what reading a ledger verifies. */
  predicate ValidChain(log: seq<Entry>) {
    forall i :: 0 <= i < |log| ==> Links(log, i)
  }

  /** Field by field: numbered from one, each entry after the digest of the one before, its digest over all of it. */
  lemma ChainFields(log: seq<Entry>)
    ensures ValidChain(log) <==> forall i :: 0 <= i < |log| ==>
              && log[i].sequence == i + 1
              && log[i].previous == (if i == 0 then Genesis else log[i - 1].digest)
              && log[i].digest == Of(log[i].sequence, log[i].previous, log[i].draft)
  {
    if forall i :: 0 <= i < |log| ==>
         && log[i].sequence == i + 1
         && log[i].previous == (if i == 0 then Genesis else log[i - 1].digest)
         && log[i].digest == Of(log[i].sequence, log[i].previous, log[i].draft)
    {
      assert forall i :: 0 <= i < |log| ==> Links(log, i);
    } else {
      var i :| 0 <= i < |log| && !(
        && log[i].sequence == i + 1
        && log[i].previous == (if i == 0 then Genesis else log[i - 1].digest)
        && log[i].digest == Of(log[i].sequence, log[i].previous, log[i].draft));
      assert !Links(log, i);
    }
  }

  lemma PrefixValid(log: seq<Entry>, n: nat)
    requires ValidChain(log) && n <= |log|
    ensures ValidChain(log[..n])
  {
    forall i | 0 <= i < n
      ensures Links(log[..n], i)
    {
      assert Links(log, i);
    }
  }

  lemma AppendValid(log: seq<Entry>, draft: Draft)
    requires ValidChain(log)
    ensures ValidChain(log + [NextEntry(log, draft)])
  {
    var longer := log + [NextEntry(log, draft)];
    forall i | 0 <= i < |longer|
      ensures Links(longer, i)
    {
      if i < |log| {
        assert Links(log, i);
      }
    }
  }

  /** The entries a digest covers, read off the digest alone. */
  function Covered(d: Digest): seq<Entry> {
    match d
    case Genesis => []
    case Of(sequence, previous, draft) => Covered(previous) + [Entry(sequence, previous, d, draft)]
  }

  /** The head digest of a valid chain covers exactly that chain. */
  lemma {:induction false} HeadCovers(log: seq<Entry>)
    requires ValidChain(log)
    ensures Covered(HeadDigest(log)) == log
  {
    if log != [] {
      var n := |log| - 1;
      PrefixValid(log, n);
      HeadCovers(log[..n]);
      assert Links(log, n);
      assert log == log[..n] + [log[n]];
    }
  }

  /** No ABA: two valid ledgers with one head digest are the same ledger. */
  lemma SameHeadSameLog(a: seq<Entry>, b: seq<Entry>)
    requires ValidChain(a) && ValidChain(b)
    requires HeadDigest(a) == HeadDigest(b)
    ensures a == b
  {
    HeadCovers(a);
    HeadCovers(b);
  }

  /** The digest stored at position `n` of a valid chain covers the first `n` entries. */
  lemma PrefixCovered(log: seq<Entry>, n: nat)
    requires ValidChain(log) && n <= |log|
    ensures Covered(HeadDigest(log[..n])) == log[..n]
  {
    PrefixValid(log, n);
    HeadCovers(log[..n]);
  }
}
