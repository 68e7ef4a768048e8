/**
 * Ownership claims over Change Set scopes (application/claims.py): each operation decides on
 * a ledger snapshot and writes one new version of one claim.
 */
module Claims {
  import opened Common
  import opened Races
  import opened Leases
  import opened Records
  import opened Chain
  import opened Decisions
  import opened LedgerStore

  const MAX_LEASE := 604_800

  type ClaimMap = map<Id, Claim>

  /** `_latest_claims`; `None` is the error on a malformed stored claim. */
  function LatestClaims(log: seq<Entry>): Option<ClaimMap> {
    if log == [] then Some(map[])
    else
      match LatestClaims(log[..|log| - 1])
      case None => None
      case Some(m) =>
        var d := log[|log| - 1].draft;
        if d.kind != ClaimKind then Some(m)
        else if d.entity.Named? && d.payload.ClaimPayload? then Some(m[d.entity.name := d.payload.claim])
        else None
  }

  method CollectClaims(log: seq<Entry>) returns (r: Option<ClaimMap>)
    ensures r == LatestClaims(log)
  {
    var values: ClaimMap := map[];
    var i := 0;
    while i < |log|
      invariant 0 <= i <= |log|
      invariant LatestClaims(log[..i]) == Some(values)
    {
      var d := log[i].draft;
      assert log[..i + 1][..i] == log[..i];
      if d.kind == ClaimKind {
        if !d.entity.Named? || !d.payload.ClaimPayload? {
          MalformedStays(log, i + 1);
          return None;
        }
        values := values[d.entity.name := d.payload.claim];
      }
      i := i + 1;
    }
    assert log[..i] == log;
    return Some(values);
  }

  lemma {:induction false} MalformedStays(log: seq<Entry>, i: nat)
    requires i <= |log| && LatestClaims(log[..i]).None?
    ensures LatestClaims(log).None?
  {
    if i < |log| {
      assert log[..|log| - 1][..i] == log[..i];
      MalformedStays(log[..|log| - 1], i);
    } else {
      assert log[..i] == log;
    }
  }

  lemma LatestAfter(log: seq<Entry>, e: Entry)
    ensures LatestClaims(log).Some? && e.draft.kind != ClaimKind ==> LatestClaims(log + [e]) == LatestClaims(log)
    ensures LatestClaims(log).Some? && e.draft.kind == ClaimKind && e.draft.entity.Named? && e.draft.payload.ClaimPayload? ==>
              LatestClaims(log + [e]) == Some(LatestClaims(log).value[e.draft.entity.name := e.draft.payload.claim])
  {
    assert (log + [e])[..|log|] == log;
  }

  // ----- operations

  datatype ClaimOp =
    | Acquire(id: Id, changeSetId: Id, agentId: Id, sessionId: Id, scopes: seq<Scope>, at: Time, seconds: int)
    | Renew(id: Id, agentId: Id, sessionId: Id, at: Time, seconds: int)
    | Reacquire(id: Id, agentId: Id, sessionId: Id, at: Time, seconds: int, expected: Option<Digest>)
    | ExtendScope(id: Id, agentId: Id, sessionId: Id, added: seq<Scope>, at: Time)
    | Release(id: Id, agentId: Id, sessionId: Id, at: Time)

  predicate LeaseInRange(seconds: int) {
    1 <= seconds <= MAX_LEASE
  }

  /** Locks on `scopes`, numbered from `first`. */
  function NewLocks(c: Id, scopes: seq<Scope>, agentId: Id, sessionId: Id, changeSetId: Id,
                    at: Time, expiresAt: Time, first: nat): (locks: seq<Lock>)
    ensures |locks| == |scopes|
  {
    seq(|scopes|, i requires 0 <= i < |scopes| =>
      Lock(LockName(c, first + i), scopes[i], agentId, sessionId, changeSetId, at, expiresAt, Active, at))
  }

  /** The conflict loops: some requested lock conflicts with a lock of a claim other than `id`. */
  predicate Blocked(glob: Glob, requested: seq<Lock>, current: ClaimMap, id: Id, at: Time) {
    exists other | other in current ::
      other != id && ConflictsWithClaim(glob, requested, current[other], at)
  }

  predicate ConflictsWithClaim(glob: Glob, requested: seq<Lock>, existing: Claim, at: Time) {
    exists i, j :: 0 <= i < |requested| && 0 <= j < |existing.locks| && ConflictsWith(glob, requested[i], existing.locks[j], at)
  }

  method FindConflict(glob: Glob, requested: seq<Lock>, current: ClaimMap, id: Id, at: Time) returns (found: bool)
    ensures found == Blocked(glob, requested, current, id, at)
  {
    var remaining := current.Keys;
    while remaining != {}
      invariant remaining <= current.Keys
      invariant forall other :: other in current && other !in remaining ==>
                  other == id || !ConflictsWithClaim(glob, requested, current[other], at)
      decreases |remaining|
    {
      var other :| other in remaining;
      remaining := remaining - {other};
      if other != id {
        var existing := current[other];
        var i := 0;
        while i < |requested|
          invariant 0 <= i <= |requested|
          invariant forall a, b :: 0 <= a < i && 0 <= b < |existing.locks| ==> !ConflictsWith(glob, requested[a], existing.locks[b], at)
        {
          var j := 0;
          while j < |existing.locks|
            invariant 0 <= j <= |existing.locks|
            invariant forall b :: 0 <= b < j ==> !ConflictsWith(glob, requested[i], existing.locks[b], at)
          {
            if ConflictsWith(glob, requested[i], existing.locks[j], at) {
              assert ConflictsWithClaim(glob, requested, current[other], at);
              return true;
            }
            j := j + 1;
          }
          i := i + 1;
        }
      }
    }
    return false;
  }

  function ClaimDraft(c: Claim): Draft {
    Draft(ClaimKind, Named(c.id), ClaimPayload(c), c.updatedAt)
  }

  function WriteClaim(c: Claim): Decision<Refusal> {
    if ClaimAccepted(c) then Write(ClaimDraft(c)) else Refuse(Inconsistent)
  }

  predicate Owns(c: Claim, op: ClaimOp) {
    c.agentId == op.agentId && c.sessionId == op.sessionId
  }

  function AcquiredClaim(op: ClaimOp): Claim
    requires op.Acquire?
  {
    Claim(op.id, op.changeSetId, op.agentId, op.sessionId,
          NewLocks(op.id, op.scopes, op.agentId, op.sessionId, op.changeSetId, op.at, op.at + op.seconds * SECOND, 1), op.at)
  }

  function DecideAcquire(glob: Glob, current: ClaimMap, op: ClaimOp): Decision<Refusal>
    requires op.Acquire?
  {
    var claim := AcquiredClaim(op);
    if !LeaseInRange(op.seconds) then Refuse(OutOfRange)
    else if !ClaimAccepted(claim) then Refuse(Inconsistent)
    else if op.id in current then Refuse(AlreadyExists)
    else if Blocked(glob, claim.locks, current, op.id, op.at) then Refuse(ScopeConflict)
    else Write(ClaimDraft(claim))
  }

  function RenewedClaim(c: Claim, op: ClaimOp): Claim
    requires op.Renew? && c.locks != []
  {
    var expiresAt := MaxExpiry(c.locks) + op.seconds * SECOND;
    c.(locks := seq(|c.locks|, i requires 0 <= i < |c.locks| => Renewed(c.locks[i], op.at, expiresAt)), updatedAt := op.at)
  }

  function DecideRenew(current: ClaimMap, op: ClaimOp): Decision<Refusal>
    requires op.Renew?
  {
    if !LeaseInRange(op.seconds) then Refuse(OutOfRange)
    else if op.id !in current then Refuse(NotFound)
    else
      var c := current[op.id];
      if !Owns(c, op) then Refuse(NotOwner)
      else if c.locks == [] then Refuse(Inconsistent)
      else
        var expiresAt := MaxExpiry(c.locks) + op.seconds * SECOND;
        if exists i :: 0 <= i < |c.locks| && !CanRenew(c.locks[i], op.at, expiresAt) then Refuse(NotActive)
        else WriteClaim(RenewedClaim(c, op))
  }

  function ReacquiredClaim(c: Claim, op: ClaimOp): Claim
    requires op.Reacquire?
  {
    c.(locks := seq(|c.locks|, i requires 0 <= i < |c.locks| => Reacquired(c.locks[i], op.at, op.at + op.seconds * SECOND)),
       updatedAt := op.at)
  }

  function DecideReacquire(glob: Glob, current: ClaimMap, head: Digest, op: ClaimOp): Decision<Refusal>
    requires op.Reacquire?
  {
    if !LeaseInRange(op.seconds) then Refuse(OutOfRange)
    else if op.expected.Some? && head != op.expected.value then Refuse(HeadMoved)
    else if op.id !in current then Refuse(NotFound)
    else
      var c := current[op.id];
      if !Owns(c, op) then Refuse(NotOwner)
      else if ClaimStateAt(c, op.at) != Some(Expired) then Refuse(if ClaimStateAt(c, op.at).None? then Inconsistent else NotExpired)
      else if exists i :: 0 <= i < |c.locks| && !CanReacquire(c.locks[i], op.at, op.at + op.seconds * SECOND) then Refuse(NotActive)
      else if !ClaimAccepted(ReacquiredClaim(c, op)) then Refuse(Inconsistent)
      else if Blocked(glob, ReacquiredClaim(c, op).locks, current, op.id, op.at) then Refuse(ScopeConflict)
      else Write(ClaimDraft(ReacquiredClaim(c, op)))
  }

  /** The added scopes this claim does not lock yet. */
  function UnlockedScopes(added: seq<Scope>, locks: seq<Lock>): seq<Scope> {
    if added == [] then []
    else if exists i :: 0 <= i < |locks| && locks[i].scope == added[0] then UnlockedScopes(added[1..], locks)
    else [added[0]] + UnlockedScopes(added[1..], locks)
  }

  function ExtensionLocks(c: Claim, op: ClaimOp): seq<Lock>
    requires op.ExtendScope? && c.locks != []
  {
    NewLocks(op.id, UnlockedScopes(op.added, c.locks), op.agentId, op.sessionId, c.changeSetId,
             op.at, c.locks[0].expiresAt, |c.locks| + 1)
  }

  function ExtendedClaim(c: Claim, op: ClaimOp): Claim
    requires op.ExtendScope? && c.locks != []
  {
    c.(locks := c.locks + ExtensionLocks(c, op), updatedAt := op.at)
  }

  function DecideExtend(glob: Glob, current: ClaimMap, op: ClaimOp): Decision<Refusal>
    requires op.ExtendScope?
  {
    if op.added == [] then Refuse(NothingNew)
    else if op.id !in current then Refuse(NotFound)
    else
      var c := current[op.id];
      if !Owns(c, op) then Refuse(NotOwner)
      else if ClaimStateAt(c, op.at) != Some(LockState.Active) then
        Refuse(if ClaimStateAt(c, op.at).None? then Inconsistent else NotActive)
      else if UnlockedScopes(op.added, c.locks) == [] then Refuse(NothingNew)
      else if Blocked(glob, ExtensionLocks(c, op), current, op.id, op.at) then Refuse(ScopeConflict)
      else WriteClaim(ExtendedClaim(c, op))
  }

  function ReleasedClaim(c: Claim, op: ClaimOp): Claim
    requires op.Release?
  {
    c.(locks := seq(|c.locks|, i requires 0 <= i < |c.locks| => ReleasedLock(c.locks[i], op.at)), updatedAt := op.at)
  }

  function DecideRelease(current: ClaimMap, op: ClaimOp): Decision<Refusal>
    requires op.Release?
  {
    if op.id !in current then Refuse(NotFound)
    else
      var c := current[op.id];
      if !Owns(c, op) then Refuse(NotOwner)
      else if exists i :: 0 <= i < |c.locks| && !HoldsActiveLease(c.locks[i], op.at) then Refuse(NotActive)
      else WriteClaim(ReleasedClaim(c, op))
  }

  function Decide(glob: Glob, op: ClaimOp, log: seq<Entry>): Decision<Refusal> {
    match LatestClaims(log)
    case None => Refuse(Malformed)
    case Some(current) =>
      match op
      case Acquire(_, _, _, _, _, _, _) => DecideAcquire(glob, current, op)
      case Renew(_, _, _, _, _) => DecideRenew(current, op)
      case Reacquire(_, _, _, _, _, _) => DecideReacquire(glob, current, HeadDigest(log), op)
      case ExtendScope(_, _, _, _, _) => DecideExtend(glob, current, op)
      case Release(_, _, _, _) => DecideRelease(current, op)
  }

  /** `max(lock.expires_at for lock in claim.locks)` */
  method LastExpiry(locks: seq<Lock>) returns (t: Time)
    requires locks != []
    ensures t == MaxExpiry(locks)
  {
    t := locks[0].expiresAt;
    var i := 1;
    ghost var at := 0;
    while i < |locks|
      invariant 1 <= i <= |locks| && 0 <= at < i && locks[at].expiresAt == t
      invariant forall k :: 0 <= k < i ==> locks[k].expiresAt <= t
    {
      if t < locks[i].expiresAt {
        t := locks[i].expiresAt;
        at := i;
      }
      i := i + 1;
    }
    assert locks[at].expiresAt <= MaxExpiry(locks);
  }

  /** One lock after the other; the first that cannot be changed ends the operation. */
  method RenewLocks(locks: seq<Lock>, at: Time, expiresAt: Time) returns (r: Option<seq<Lock>>)
    ensures r.Some? <==> forall i :: 0 <= i < |locks| ==> CanRenew(locks[i], at, expiresAt)
    ensures r.Some? ==> |r.value| == |locks| && forall i :: 0 <= i < |locks| ==> r.value[i] == Renewed(locks[i], at, expiresAt)
  {
    var changed: seq<Lock> := [];
    while |changed| < |locks|
      invariant |changed| <= |locks|
      invariant forall i :: 0 <= i < |changed| ==> CanRenew(locks[i], at, expiresAt) && changed[i] == Renewed(locks[i], at, expiresAt)
    {
      if !CanRenew(locks[|changed|], at, expiresAt) {
        return None;
      }
      changed := changed + [Renewed(locks[|changed|], at, expiresAt)];
    }
    return Some(changed);
  }

  method ReacquireLocks(locks: seq<Lock>, at: Time, expiresAt: Time) returns (r: Option<seq<Lock>>)
    ensures r.Some? <==> forall i :: 0 <= i < |locks| ==> CanReacquire(locks[i], at, expiresAt)
    ensures r.Some? ==> |r.value| == |locks| && forall i :: 0 <= i < |locks| ==> r.value[i] == Reacquired(locks[i], at, expiresAt)
  {
    var changed: seq<Lock> := [];
    while |changed| < |locks|
      invariant |changed| <= |locks|
      invariant forall i :: 0 <= i < |changed| ==>
                  CanReacquire(locks[i], at, expiresAt) && changed[i] == Reacquired(locks[i], at, expiresAt)
    {
      if !CanReacquire(locks[|changed|], at, expiresAt) {
        return None;
      }
      changed := changed + [Reacquired(locks[|changed|], at, expiresAt)];
    }
    return Some(changed);
  }

  method ReleaseLocks(locks: seq<Lock>, at: Time) returns (r: Option<seq<Lock>>)
    ensures r.Some? <==> forall i :: 0 <= i < |locks| ==> HoldsActiveLease(locks[i], at)
    ensures r.Some? ==> |r.value| == |locks| && forall i :: 0 <= i < |locks| ==> r.value[i] == ReleasedLock(locks[i], at)
  {
    var changed: seq<Lock> := [];
    while |changed| < |locks|
      invariant |changed| <= |locks|
      invariant forall i :: 0 <= i < |changed| ==> HoldsActiveLease(locks[i], at) && changed[i] == ReleasedLock(locks[i], at)
    {
      if !HoldsActiveLease(locks[|changed|], at) {
        return None;
      }
      changed := changed + [ReleasedLock(locks[|changed|], at)];
    }
    return Some(changed);
  }

  /** `genuinely_new` */
  method GenuinelyNew(added: seq<Scope>, locks: seq<Lock>) returns (scopes: seq<Scope>)
    ensures scopes == UnlockedScopes(added, locks)
  {
    scopes := [];
    var i := 0;
    while i < |added|
      invariant 0 <= i <= |added|
      invariant UnlockedScopes(added, locks) == scopes + UnlockedScopes(added[i..], locks)
    {
      assert added[i..][0] == added[i] && added[i..][1..] == added[i + 1..];
      var held := false;
      var k := 0;
      while k < |locks| && !held
        invariant 0 <= k <= |locks|
        invariant held <==> exists j :: 0 <= j < k && locks[j].scope == added[i]
      {
        held := locks[k].scope == added[i];
        k := k + 1;
      }
      if !held {
        scopes := scopes + [added[i]];
      }
      i := i + 1;
    }
  }

  method AcquireNow(glob: Glob, current: ClaimMap, op: ClaimOp) returns (d: Decision<Refusal>)
    requires op.Acquire?
    ensures d == DecideAcquire(glob, current, op)
  {
    hide Blocked, ClaimAccepted;
    if !LeaseInRange(op.seconds) {
      return Refuse(OutOfRange);
    }
    var claim := AcquiredClaim(op);
    if !ClaimAccepted(claim) {
      return Refuse(Inconsistent);
    }
    if op.id in current {
      return Refuse(AlreadyExists);
    }
    var conflict := FindConflict(glob, claim.locks, current, op.id, op.at);
    return if conflict then Refuse(ScopeConflict) else Write(ClaimDraft(claim));
  }

  method RenewNow(current: ClaimMap, op: ClaimOp) returns (d: Decision<Refusal>)
    requires op.Renew?
    ensures d == DecideRenew(current, op)
  {
    hide ClaimAccepted, CanRenew;
    if !LeaseInRange(op.seconds) {
      return Refuse(OutOfRange);
    }
    if op.id !in current {
      return Refuse(NotFound);
    }
    var c := current[op.id];
    if !Owns(c, op) {
      return Refuse(NotOwner);
    }
    if c.locks == [] {
      return Refuse(Inconsistent);
    }
    var last := LastExpiry(c.locks);
    var locks := RenewLocks(c.locks, op.at, last + op.seconds * SECOND);
    if locks.None? {
      return Refuse(NotActive);
    }
    assert RenewedClaim(c, op).locks == locks.value;
    return WriteClaim(c.(locks := locks.value, updatedAt := op.at));
  }

  method ReacquireNow(glob: Glob, current: ClaimMap, head: Digest, op: ClaimOp) returns (d: Decision<Refusal>)
    requires op.Reacquire?
    ensures d == DecideReacquire(glob, current, head, op)
  {
    hide Blocked, ClaimAccepted, CanReacquire, ClaimStateAt;
    if !LeaseInRange(op.seconds) {
      return Refuse(OutOfRange);
    }
    if op.expected.Some? && head != op.expected.value {
      return Refuse(HeadMoved);
    }
    if op.id !in current {
      return Refuse(NotFound);
    }
    var c := current[op.id];
    if !Owns(c, op) {
      return Refuse(NotOwner);
    }
    var state := ClaimStateAt(c, op.at);
    if state != Some(Expired) {
      return Refuse(if state.None? then Inconsistent else NotExpired);
    }
    var locks := ReacquireLocks(c.locks, op.at, op.at + op.seconds * SECOND);
    if locks.None? {
      return Refuse(NotActive);
    }
    assert ReacquiredClaim(c, op).locks == locks.value;
    var claim := c.(locks := locks.value, updatedAt := op.at);
    if !ClaimAccepted(claim) {
      return Refuse(Inconsistent);
    }
    var conflict := FindConflict(glob, claim.locks, current, op.id, op.at);
    return if conflict then Refuse(ScopeConflict) else Write(ClaimDraft(claim));
  }

  method ExtendNow(glob: Glob, current: ClaimMap, op: ClaimOp) returns (d: Decision<Refusal>)
    requires op.ExtendScope?
    ensures d == DecideExtend(glob, current, op)
  {
    hide Blocked, ClaimAccepted, UnlockedScopes, ClaimStateAt, NewLocks;
    if op.added == [] {
      return Refuse(NothingNew);
    }
    if op.id !in current {
      return Refuse(NotFound);
    }
    var c := current[op.id];
    if !Owns(c, op) {
      return Refuse(NotOwner);
    }
    var state := ClaimStateAt(c, op.at);
    if state != Some(LockState.Active) {
      return Refuse(if state.None? then Inconsistent else NotActive);
    }
    StatefulHasLocks(c, op.at);
    var scopes := GenuinelyNew(op.added, c.locks);
    if scopes == [] {
      return Refuse(NothingNew);
    }
    var added := NewLocks(op.id, scopes, op.agentId, op.sessionId, c.changeSetId, op.at, c.locks[0].expiresAt, |c.locks| + 1);
    var conflict := FindConflict(glob, added, current, op.id, op.at);
    if conflict {
      return Refuse(ScopeConflict);
    }
    return WriteClaim(c.(locks := c.locks + added, updatedAt := op.at));
  }

  lemma StatefulHasLocks(c: Claim, at: Time)
    requires ClaimStateAt(c, at).Some?
    ensures c.locks != []
  {
  }

  method ReleaseNow(current: ClaimMap, op: ClaimOp) returns (d: Decision<Refusal>)
    requires op.Release?
    ensures d == DecideRelease(current, op)
  {
    hide ClaimAccepted, HoldsActiveLease;
    if op.id !in current {
      return Refuse(NotFound);
    }
    var c := current[op.id];
    if !Owns(c, op) {
      return Refuse(NotOwner);
    }
    var locks := ReleaseLocks(c.locks, op.at);
    if locks.None? {
      return Refuse(NotActive);
    }
    assert ReleasedClaim(c, op).locks == locks.value;
    return WriteClaim(c.(locks := locks.value, updatedAt := op.at));
  }

  /** The same decision with the dictionary, lock and conflict loops the service runs. */
  method DecideNow(glob: Glob, op: ClaimOp, log: seq<Entry>) returns (d: Decision<Refusal>)
    ensures d == Decide(glob, op, log)
  {
    hide LatestClaims, DecideAcquire, DecideRenew, DecideReacquire, DecideExtend, DecideRelease;
    var collected := CollectClaims(log);
    if collected.None? {
      return Refuse(Malformed);
    }
    var current := collected.value;
    match op {
      case Acquire(_, _, _, _, _, _, _) =>
        d := AcquireNow(glob, current, op);
      case Renew(_, _, _, _, _) =>
        d := RenewNow(current, op);
      case Reacquire(_, _, _, _, _, _) =>
        d := ReacquireNow(glob, current, HeadDigest(log), op);
      case ExtendScope(_, _, _, _, _) =>
        d := ExtendNow(glob, current, op);
      case Release(_, _, _, _) =>
        d := ReleaseNow(current, op);
    }
  }

  /** What a success leaves: the ledger others left, and the record the operation decides on it. */
  ghost predicate Performed(glob: Glob, op: ClaimOp, before: seq<Entry>, after: seq<Entry>, others: Others, d: Draft) {
    exists n :: PerformedAt(glob, op, Joined(before, others, 0, n), after, d)
  }

  ghost predicate PerformedAt(glob: Glob, op: ClaimOp, prefix: seq<Entry>, after: seq<Entry>, d: Draft) {
    Decide(glob, op, prefix) == Write(d) && after == prefix + [NextEntry(prefix, d)]
  }

  /** Why an operation was refused: the ledger it saw refuses it, or others won every race it was in. */
  ghost predicate Turned(glob: Glob, op: ClaimOp, before: seq<Entry>, after: seq<Entry>, others: Others, e: Refusal) {
    || (before <= after && Decide(glob, op, after) == Refuse(e))
    || (e == HeadMoved && LostRaces(others, if op.Reacquire? && op.expected.Some? then 1 else ATTEMPTS))
  }

  /**
   * The retry loop every claim operation runs: snapshot, decide, append if the head is unchanged.
   * It appends its one record or nothing.
   */
  method Perform(glob: Glob, store: Store, op: ClaimOp, others: Others) returns (r: Result<Draft, Refusal>)
    requires ValidChain(store.log)
    modifies store
    ensures ValidChain(store.log) && old(store.log) <= store.log
    ensures r.Ok? ==> Performed(glob, op, old(store.log), store.log, others, r.value)
    ensures r.Err? ==> Turned(glob, op, old(store.log), store.log, others, r.error) && OnlyOthers(old(store.log), others, store.log)
  {
    hide Decide;
    var attempt := 0;
    while attempt < ATTEMPTS
      invariant ValidChain(store.log) && old(store.log) <= store.log
      invariant store.log == Joined(old(store.log), others, 0, 2 * attempt)
      invariant attempt <= ATTEMPTS && LostRaces(others, attempt)
      invariant op.Reacquire? && op.expected.Some? ==> attempt == 0
    {
      store.Interfere(others(2 * attempt));
      assert store.log == Joined(old(store.log), others, 0, 2 * attempt + 1);
      var snapshot := store.Snapshot();
      var d := DecideNow(glob, op, snapshot);
      NeverExisting(glob, op, snapshot);
      if d.Refuse? {
        return Err(d.error);
      }
      store.Interfere(others(2 * attempt + 1));
      assert store.log == Joined(old(store.log), others, 0, 2 * attempt + 2);
      ghost var reached := store.log;
      var ok := store.RecordIfHead(d.draft, HeadDigest(snapshot));
      if ok {
        SameHeadSameLogLater(snapshot, reached);
        assert PerformedAt(glob, op, Joined(old(store.log), others, 0, 2 * attempt + 2), store.log, d.draft);
        return Ok(d.draft);
      }
      LostAnother(others, attempt);
      if op.Reacquire? && op.expected.Some? {
        return Err(HeadMoved);
      }
      attempt := attempt + 1;
    }
    return Err(HeadMoved);
  }

  lemma NeverExisting(glob: Glob, op: ClaimOp, log: seq<Entry>)
    ensures !Decide(glob, op, log).Existing?
  {
  }

  /** Whatever an operation writes is a version of one claim. */
  lemma WritesAClaim(glob: Glob, op: ClaimOp, log: seq<Entry>)
    requires Decide(glob, op, log).Write?
    ensures var d := Decide(glob, op, log).draft; d.payload.ClaimPayload? && d == ClaimDraft(d.payload.claim)
  {
    hide Blocked, ClaimAccepted, LatestClaims;
  }

  // ----- exclusion

  /** No two claims hold overlapping locks that are both active at `now`. */
  ghost predicate Exclusive(glob: Glob, current: ClaimMap, now: Time) {
    forall a, b :: a in current && b in current && a != b ==> Apart(glob, current[a].locks, current[b].locks, now)
  }

  ghost predicate Apart(glob: Glob, ls: seq<Lock>, ms: seq<Lock>, now: Time) {
    forall i, j :: 0 <= i < |ls| && 0 <= j < |ms| ==> !Collide(glob, ls[i], ms[j], now)
  }

  predicate Collide(glob: Glob, l: Lock, m: Lock, now: Time) {
    OwnsScopeAt(l, now) && OwnsScopeAt(m, now) && ScopesOverlap(glob, l.scope, m.scope)
  }

  /** Every version of a claim keeps its name, its locks numbered from one, and one state for all of them. */
  ghost predicate WellKept(id: Id, c: Claim) {
    && c.id == id && ClaimAccepted(c)
    && (forall i :: 0 <= i < |c.locks| ==>
          && c.locks[i].state == c.locks[0].state && c.locks[i].expiresAt == c.locks[0].expiresAt
          && c.locks[i].id == LockName(id, i + 1))
  }

  ghost predicate NamedBy(l: Lock, id: Id) {
    exists k: nat :: l.id == LockName(id, k)
  }

  ghost predicate AllWellKept(current: ClaimMap) {
    forall id :: id in current ==> WellKept(id, current[id])
  }

  lemma ApartLater(glob: Glob, ls: seq<Lock>, ms: seq<Lock>, now: Time, later: Time)
    requires Apart(glob, ls, ms, now) && now <= later
    ensures Apart(glob, ls, ms, later)
  {
    forall i, j | 0 <= i < |ls| && 0 <= j < |ms|
      ensures !Collide(glob, ls[i], ms[j], later)
    {
      assert !Collide(glob, ls[i], ms[j], now);
    }
  }

  /** Activity is an interval: what holds apart now stays apart while nothing is written. */
  lemma ExclusiveLater(glob: Glob, current: ClaimMap, now: Time, later: Time)
    requires Exclusive(glob, current, now) && now <= later
    ensures Exclusive(glob, current, later)
  {
    hide Apart;
    forall a, b | a in current && b in current && a != b
      ensures Apart(glob, current[a].locks, current[b].locks, later)
    {
      ApartLater(glob, current[a].locks, current[b].locks, now, later);
    }
  }

  lemma ApartSymmetric(glob: Glob, ls: seq<Lock>, ms: seq<Lock>, now: Time)
    requires Apart(glob, ls, ms, now)
    ensures Apart(glob, ms, ls, now)
  {
    forall j, i | 0 <= j < |ms| && 0 <= i < |ls|
      ensures !Collide(glob, ms[j], ls[i], now)
    {
      assert !Collide(glob, ls[i], ms[j], now);
      OverlapSymmetric(glob, ls[i].scope, ms[j].scope);
    }
  }

  /** Writing a version that is apart from all other claims keeps exclusion. */
  lemma ReplaceKeepsExclusive(glob: Glob, current: ClaimMap, id: Id, c: Claim, now: Time)
    requires Exclusive(glob, current, now)
    requires forall b :: b in current && b != id ==> Apart(glob, c.locks, current[b].locks, now)
    ensures Exclusive(glob, current[id := c], now)
  {
    var next := current[id := c];
    forall a, b | a in next && b in next && a != b
      ensures Apart(glob, next[a].locks, next[b].locks, now)
    {
      if b == id {
        ApartSymmetric(glob, c.locks, current[a].locks, now);
      }
    }
  }

  /** Between two claims the lock-id exemption of `conflicts_with` never applies. */
  lemma UnblockedIsApart(glob: Glob, requested: seq<Lock>, current: ClaimMap, id: Id, now: Time)
    requires AllWellKept(current)
    requires forall i :: 0 <= i < |requested| ==> NamedBy(requested[i], id)
    requires !Blocked(glob, requested, current, id, now)
    ensures forall b :: b in current && b != id ==> Apart(glob, requested, current[b].locks, now)
  {
    forall b, i, j | b in current && b != id && 0 <= i < |requested| && 0 <= j < |current[b].locks|
      ensures !Collide(glob, requested[i], current[b].locks[j], now)
    {
      assert WellKept(b, current[b]);
      assert NamedBy(requested[i], id) && current[b].locks[j].id == LockName(b, j + 1);
      NamesDiffer(requested[i], id, current[b].locks[j], b);
      assert !ConflictsWithClaim(glob, requested, current[b], now);
      assert !ConflictsWith(glob, requested[i], current[b].locks[j], now);
    }
  }

  lemma NamesDiffer(l: Lock, a: Id, m: Lock, b: Id)
    requires NamedBy(l, a) && NamedBy(m, b) && a != b
    ensures l.id != m.id
  {
    var i: nat :| l.id == LockName(a, i);
    var j: nat :| m.id == LockName(b, j);
    if l.id == m.id {
      LockNameIdentifiesClaim(a, i, b, j);
    }
  }

  lemma NewLocksNamed(c: Id, scopes: seq<Scope>, agentId: Id, sessionId: Id, changeSetId: Id, at: Time, expiresAt: Time, first: nat)
    ensures var locks := NewLocks(c, scopes, agentId, sessionId, changeSetId, at, expiresAt, first);
            forall i :: 0 <= i < |locks| ==>
              && NamedBy(locks[i], c) && locks[i].id == LockName(c, first + i)
              && locks[i].state == Active && locks[i].expiresAt == expiresAt
  {
    forall i | 0 <= i < |scopes|
      ensures NamedBy(NewLocks(c, scopes, agentId, sessionId, changeSetId, at, expiresAt, first)[i], c)
    {
      assert NewLocks(c, scopes, agentId, sessionId, changeSetId, at, expiresAt, first)[i].id == LockName(c, first + i);
    }
  }

  /** What a written version must satisfy for the invariants to survive. */
  ghost predicate GoodVersion(glob: Glob, current: ClaimMap, id: Id, c: Claim, now: Time) {
    WellKept(id, c) && forall b :: b in current && b != id ==> Apart(glob, c.locks, current[b].locks, now)
  }

  lemma AcquireGood(glob: Glob, current: ClaimMap, op: ClaimOp)
    requires AllWellKept(current) && op.Acquire? && DecideAcquire(glob, current, op).Write?
    ensures GoodVersion(glob, current, op.id, AcquiredClaim(op), op.at)
  {
    NewLocksNamed(op.id, op.scopes, op.agentId, op.sessionId, op.changeSetId, op.at, op.at + op.seconds * SECOND, 1);
    UnblockedIsApart(glob, AcquiredClaim(op).locks, current, op.id, op.at);
  }

  /** Scopes that were owned already are as far apart from others as they were. */
  lemma OwnedStaysApart(glob: Glob, owned: seq<Lock>, next: seq<Lock>, ms: seq<Lock>, now: Time)
    requires Apart(glob, owned, ms, now) && |next| == |owned|
    requires forall i :: 0 <= i < |owned| ==> OwnsScopeAt(owned[i], now) && next[i].scope == owned[i].scope
    ensures Apart(glob, next, ms, now)
  {
    forall i, j | 0 <= i < |next| && 0 <= j < |ms|
      ensures !Collide(glob, next[i], ms[j], now)
    {
      assert !Collide(glob, owned[i], ms[j], now);
    }
  }

  /** A version with the same lock names and one common state is well kept. */
  lemma VersionKept(id: Id, c: Claim, r: Claim, state: LockState, expiresAt: Time)
    requires WellKept(id, c) && ClaimAccepted(r) && r.id == c.id && |r.locks| == |c.locks|
    requires forall i :: 0 <= i < |r.locks| ==>
               r.locks[i].id == c.locks[i].id && r.locks[i].state == state && r.locks[i].expiresAt == expiresAt
    ensures WellKept(id, r)
  {
    hide ClaimAccepted;
    assert r.locks != [] by { AcceptedHasLocks(r); }
  }

  lemma AcceptedHasLocks(c: Claim)
    requires ClaimAccepted(c)
    ensures c.locks != []
  {
  }

  lemma RenewKept(current: ClaimMap, op: ClaimOp)
    requires AllWellKept(current) && op.Renew? && DecideRenew(current, op).Write?
    ensures current[op.id].locks != [] && WellKept(op.id, RenewedClaim(current[op.id], op))
    ensures var ls, ns := current[op.id].locks, RenewedClaim(current[op.id], op).locks;
            |ns| == |ls| && forall i :: 0 <= i < |ls| ==> OwnsScopeAt(ls[i], op.at) && ns[i].scope == ls[i].scope
  {
    hide ClaimAccepted, WellKept;
    var c := current[op.id];
    assert WellKept(op.id, c);
    var expiresAt := MaxExpiry(c.locks) + op.seconds * SECOND;
    forall i | 0 <= i < |c.locks|
      ensures CanRenew(c.locks[i], op.at, expiresAt)
    {
    }
    VersionKept(op.id, c, RenewedClaim(c, op), Active, expiresAt);
  }

  /**
   * Renewal makes no conflict check. It is safe because it refuses locks that are not active:
   * whatever a claim owns now, nobody else does.
   */
  lemma RenewGood(glob: Glob, current: ClaimMap, op: ClaimOp)
    requires AllWellKept(current) && Exclusive(glob, current, op.at)
    requires op.Renew? && DecideRenew(current, op).Write?
    ensures GoodVersion(glob, current, op.id, RenewedClaim(current[op.id], op), op.at)
  {
    hide WellKept, Apart, OwnsScopeAt, RenewedClaim;
    RenewKept(current, op);
    var c, r := current[op.id], RenewedClaim(current[op.id], op);
    forall b | b in current && b != op.id
      ensures Apart(glob, r.locks, current[b].locks, op.at)
    {
      OwnedStaysApart(glob, c.locks, r.locks, current[b].locks, op.at);
    }
  }

  lemma ReacquireGood(glob: Glob, current: ClaimMap, head: Digest, op: ClaimOp)
    requires AllWellKept(current)
    requires op.Reacquire? && DecideReacquire(glob, current, head, op).Write?
    ensures GoodVersion(glob, current, op.id, ReacquiredClaim(current[op.id], op), op.at)
  {
    var c := current[op.id];
    assert WellKept(op.id, c);
    var r := ReacquiredClaim(c, op);
    VersionKept(op.id, c, r, Active, op.at + op.seconds * SECOND);
    UnblockedIsApart(glob, r.locks, current, op.id, op.at);
  }

  lemma ExtendKept(glob: Glob, current: ClaimMap, op: ClaimOp)
    requires AllWellKept(current) && op.ExtendScope? && DecideExtend(glob, current, op).Write?
    ensures current[op.id].locks != [] && WellKept(op.id, ExtendedClaim(current[op.id], op))
  {
    var c := current[op.id];
    assert WellKept(op.id, c);
    NewLocksNamed(op.id, UnlockedScopes(op.added, c.locks), op.agentId, op.sessionId, c.changeSetId,
                  op.at, c.locks[0].expiresAt, |c.locks| + 1);
    assert StateAt(c.locks[0], op.at) == Active;
  }

  lemma ExtensionApart(glob: Glob, current: ClaimMap, op: ClaimOp, now: Time)
    requires AllWellKept(current) && Exclusive(glob, current, now) && op.at <= now
    requires op.ExtendScope? && op.id in current && current[op.id].locks != []
    requires !Blocked(glob, ExtensionLocks(current[op.id], op), current, op.id, op.at)
    ensures forall b :: b in current && b != op.id ==> Apart(glob, ExtendedClaim(current[op.id], op).locks, current[b].locks, now)
  {
    hide WellKept, Blocked;
    var c := current[op.id];
    var added := ExtensionLocks(c, op);
    NewLocksNamed(op.id, UnlockedScopes(op.added, c.locks), op.agentId, op.sessionId, c.changeSetId,
                  op.at, c.locks[0].expiresAt, |c.locks| + 1);
    UnblockedIsApart(glob, added, current, op.id, op.at);
    forall b | b in current && b != op.id
      ensures Apart(glob, c.locks + added, current[b].locks, now)
    {
      ApartLater(glob, added, current[b].locks, op.at, now);
      assert Apart(glob, c.locks, current[b].locks, now) && Apart(glob, added, current[b].locks, now);
    }
  }

  lemma ReleaseGood(glob: Glob, current: ClaimMap, op: ClaimOp)
    requires AllWellKept(current)
    requires op.Release? && DecideRelease(current, op).Write?
    ensures GoodVersion(glob, current, op.id, ReleasedClaim(current[op.id], op), op.at)
  {
    var c := current[op.id];
    assert WellKept(op.id, c);
    var r := ReleasedClaim(c, op);
    VersionKept(op.id, c, r, Released, c.locks[0].expiresAt);
  }

  /** A ledger whose claims are well kept and hold each other apart at `now`. */
  ghost predicate ClaimsOk(glob: Glob, log: seq<Entry>, now: Time) {
    LatestClaims(log).Some? && AllWellKept(LatestClaims(log).value) && Exclusive(glob, LatestClaims(log).value, now)
  }

  /** A version found good at the time of its operation is good at any later time. */
  lemma GoodLater(glob: Glob, current: ClaimMap, id: Id, c: Claim, at: Time, now: Time)
    requires GoodVersion(glob, current, id, c, at) && at <= now
    ensures GoodVersion(glob, current, id, c, now)
  {
    hide WellKept, Apart;
    forall b | b in current && b != id
      ensures Apart(glob, c.locks, current[b].locks, now)
    {
      ApartLater(glob, c.locks, current[b].locks, at, now);
    }
  }

  /** Whatever the operation times, the version written is well kept. */
  lemma WrittenIsKept(glob: Glob, op: ClaimOp, log: seq<Entry>)
    requires LatestClaims(log).Some? && AllWellKept(LatestClaims(log).value) && Decide(glob, op, log).Write?
    ensures var d := Decide(glob, op, log).draft;
            && d.kind == ClaimKind && d.entity == Named(op.id) && d.payload.ClaimPayload? && WellKept(op.id, d.payload.claim)
            && LatestClaims(log + [NextEntry(log, d)]) == Some(LatestClaims(log).value[op.id := d.payload.claim])
            && AllWellKept(LatestClaims(log).value[op.id := d.payload.claim])
  {
    hide WellKept, Blocked, GoodVersion, ClaimAccepted, LatestClaims;
    var current := LatestClaims(log).value;
    var d := Decide(glob, op, log).draft;
    DecisionShape(glob, op, log);
    assert WellKept(op.id, d.payload.claim) by {
      match op
      case Acquire(_, _, _, _, _, _, _) =>
        AcquireGood(glob, current, op);
        GoodIsKept(glob, current, op.id, d.payload.claim, op.at);
      case Renew(_, _, _, _, _) =>
        RenewKept(current, op);
      case Reacquire(_, _, _, _, _, _) =>
        ReacquireGood(glob, current, HeadDigest(log), op);
        GoodIsKept(glob, current, op.id, d.payload.claim, op.at);
      case ExtendScope(_, _, _, _, _) =>
        ExtendKept(glob, current, op);
      case Release(_, _, _, _) =>
        ReleaseGood(glob, current, op);
        GoodIsKept(glob, current, op.id, d.payload.claim, op.at);
    }
    LatestAfter(log, NextEntry(log, d));
  }

  lemma GoodIsKept(glob: Glob, current: ClaimMap, id: Id, c: Claim, now: Time)
    requires GoodVersion(glob, current, id, c, now)
    ensures WellKept(id, c)
  {
  }

  /** Every operation but renewal may be dated before other records: it keeps claims exclusive at `now`. */
  lemma OthersKeepExclusion(glob: Glob, op: ClaimOp, log: seq<Entry>, now: Time)
    requires ClaimsOk(glob, log, now) && op.at <= now && !op.Renew? && Decide(glob, op, log).Write?
    ensures ClaimsOk(glob, log + [NextEntry(log, Decide(glob, op, log).draft)], now)
  {
    hide WellKept, Exclusive, Apart, Blocked, GoodVersion, ClaimAccepted, LatestClaims;
    var current := LatestClaims(log).value;
    var d := Decide(glob, op, log).draft;
    WrittenIsKept(glob, op, log);
    var c := d.payload.claim;
    assert GoodVersion(glob, current, op.id, c, now) by {
      match op
      case Acquire(_, _, _, _, _, _, _) =>
        AcquireGood(glob, current, op);
        GoodLater(glob, current, op.id, c, op.at, now);
      case Reacquire(_, _, _, _, _, _) =>
        ReacquireGood(glob, current, HeadDigest(log), op);
        GoodLater(glob, current, op.id, c, op.at, now);
      case ExtendScope(_, _, _, _, _) =>
        ExtendKept(glob, current, op);
        ExtensionApart(glob, current, op, now);
        GoodFrom(glob, current, op.id, c, now);
      case Release(_, _, _, _) =>
        ReleaseGood(glob, current, op);
        GoodLater(glob, current, op.id, c, op.at, now);
    }
    GoodVersionKeeps(glob, current, op.id, c, now);
  }

  lemma GoodFrom(glob: Glob, current: ClaimMap, id: Id, c: Claim, now: Time)
    requires WellKept(id, c) && forall b :: b in current && b != id ==> Apart(glob, c.locks, current[b].locks, now)
    ensures GoodVersion(glob, current, id, c, now)
  {
  }

  /** One operation, at a time not before the last, keeps claims exclusive from its time on. */
  lemma OperationKeepsExclusion(glob: Glob, op: ClaimOp, log: seq<Entry>, before: Time)
    requires ClaimsOk(glob, log, before) && before <= op.at
    requires Decide(glob, op, log).Write?
    ensures ClaimsOk(glob, log + [NextEntry(log, Decide(glob, op, log).draft)], op.at)
  {
    hide WellKept, Exclusive, Apart, Blocked, GoodVersion, ClaimAccepted, LatestClaims;
    var current := LatestClaims(log).value;
    ExclusiveLater(glob, current, before, op.at);
    if op.Renew? {
      WrittenIsKept(glob, op, log);
      RenewGood(glob, current, op);
      GoodVersionKeeps(glob, current, op.id, RenewedClaim(current[op.id], op), op.at);
    } else {
      OthersKeepExclusion(glob, op, log, op.at);
    }
  }

  lemma GoodVersionKeeps(glob: Glob, current: ClaimMap, id: Id, c: Claim, now: Time)
    requires AllWellKept(current) && Exclusive(glob, current, now) && GoodVersion(glob, current, id, c, now)
    ensures AllWellKept(current[id := c]) && Exclusive(glob, current[id := c], now)
    ensures c.id == id
  {
    ReplaceKeepsExclusive(glob, current, id, c, now);
  }

  /** An operation writes a claim record under its own claim id. */
  lemma DecisionShape(glob: Glob, op: ClaimOp, log: seq<Entry>)
    requires Decide(glob, op, log).Write?
    requires LatestClaims(log).Some? && AllWellKept(LatestClaims(log).value)
    ensures var d := Decide(glob, op, log).draft;
            d.kind == ClaimKind && d.entity == Named(op.id) && d.payload.ClaimPayload? && d.payload.claim.id == op.id
  {
    hide ClaimAccepted, Blocked, NewLocks, UnlockedScopes, LatestClaims;
    var current := LatestClaims(log).value;
    if !op.Acquire? {
      assert op.id in current;
      assert WellKept(op.id, current[op.id]);
    }
  }

  /** Locks of one state and one expiry are in one state at any time: `state_at` has no error to raise. */
  lemma LocksAgree(id: Id, c: Claim, at: Time)
    requires WellKept(id, c)
    ensures ClaimStateAt(c, at) == Some(StateAt(c.locks[0], at))
  {
  }

  // ----- what an operation obtains

  function ScopesOf(locks: seq<Lock>): set<Scope> {
    set i | 0 <= i < |locks| :: locks[i].scope
  }

  /** A lock that is active and has not run out. */
  predicate Holds(l: Lock, now: Time) {
    l.state == Active && now < l.expiresAt
  }

  /** From `from` on, all locks of `c` are held until `until`, and no longer. */
  ghost predicate HeldUntil(c: Claim, from: Time, until: Time) {
    forall i, t: Time :: 0 <= i < |c.locks| && from <= t ==> (Holds(c.locks[i], t) <==> t < until)
  }

  /** `op` dates the claim, the locks it adds and those it changes; an extension changes none of the `owned` ones. */
  ghost predicate Dated(op: ClaimOp, owned: seq<Lock>, c: Claim) {
    && c.updatedAt == op.at && |owned| <= |c.locks|
    && forall i :: 0 <= i < |c.locks| ==>
         && (i >= |owned| ==> c.locks[i].acquiredAt == op.at)
         && if op.ExtendScope? && i < |owned| then c.locks[i] == owned[i] else c.locks[i].updatedAt == op.at
  }

  /** The scopes a claim is to own after `op`, and until when. */
  ghost predicate Obtains(op: ClaimOp, current: ClaimMap, c: Claim) {
    match op
    case Acquire(_, changeSetId, _, _, scopes, at, seconds) =>
      && c.changeSetId == changeSetId && Dated(op, [], c)
      && ScopesOf(c.locks) == (set x | x in scopes) && HeldUntil(c, at, at + seconds * SECOND)
    case Renew(id, _, _, at, seconds) =>
      && id in current && current[id].locks != [] && Dated(op, current[id].locks, c)
      && ScopesOf(c.locks) == ScopesOf(current[id].locks) && HeldUntil(c, at, current[id].locks[0].expiresAt + seconds * SECOND)
    case Reacquire(id, _, _, at, seconds, _) =>
      && id in current && Dated(op, current[id].locks, c)
      && ScopesOf(c.locks) == ScopesOf(current[id].locks) && HeldUntil(c, at, at + seconds * SECOND)
    case ExtendScope(id, _, _, added, at) =>
      && id in current && current[id].locks != [] && Dated(op, current[id].locks, c)
      && ScopesOf(c.locks) == ScopesOf(current[id].locks) + (set x | x in added)
      && HeldUntil(c, at, current[id].locks[0].expiresAt)
    case Release(id, _, _, at) =>
      && id in current && Dated(op, current[id].locks, c)
      && ScopesOf(c.locks) == ScopesOf(current[id].locks) && HeldUntil(c, at, at)
  }

  lemma CommonTermHolds(c: Claim, from: Time, until: Time, state: LockState)
    requires forall i :: 0 <= i < |c.locks| ==> c.locks[i].state == state && c.locks[i].expiresAt == until
    ensures state == Active ==> HeldUntil(c, from, until)
    ensures state == Released ==> HeldUntil(c, from, from)
  {
  }

  lemma SameScopes(a: seq<Lock>, b: seq<Lock>)
    requires |a| == |b| && forall i :: 0 <= i < |a| ==> a[i].scope == b[i].scope
    ensures ScopesOf(a) == ScopesOf(b)
  {
    forall x
      ensures x in ScopesOf(a) <==> x in ScopesOf(b)
    {
      if x in ScopesOf(a) {
        var i :| 0 <= i < |a| && a[i].scope == x;
        assert b[i].scope == x;
      }
      if x in ScopesOf(b) {
        var i :| 0 <= i < |b| && b[i].scope == x;
        assert a[i].scope == x;
      }
    }
  }

  lemma {:induction false} UnlockedAre(added: seq<Scope>, locks: seq<Lock>)
    ensures forall x :: x in UnlockedScopes(added, locks) <==> x in added && x !in ScopesOf(locks)
  {
    if added != [] {
      UnlockedAre(added[1..], locks);
    }
  }

  lemma NewLocksHold(c: Id, scopes: seq<Scope>, agentId: Id, sessionId: Id, changeSetId: Id, at: Time, expiresAt: Time, first: nat)
    ensures var locks := NewLocks(c, scopes, agentId, sessionId, changeSetId, at, expiresAt, first);
            && ScopesOf(locks) == (set x | x in scopes)
            && forall i :: 0 <= i < |locks| ==>
                 locks[i].state == Active && locks[i].expiresAt == expiresAt && locks[i].acquiredAt == at && locks[i].updatedAt == at
  {
    var locks := NewLocks(c, scopes, agentId, sessionId, changeSetId, at, expiresAt, first);
    assert forall i :: 0 <= i < |locks| ==> locks[i].scope == scopes[i];
    forall x | x in scopes
      ensures x in ScopesOf(locks)
    {
      var i :| 0 <= i < |scopes| && scopes[i] == x;
      assert locks[i].scope == x;
    }
  }

  lemma AcquireObtains(current: ClaimMap, op: ClaimOp)
    requires op.Acquire?
    ensures Obtains(op, current, AcquiredClaim(op))
  {
    hide NewLocks, ScopesOf;
    NewLocksHold(op.id, op.scopes, op.agentId, op.sessionId, op.changeSetId, op.at, op.at + op.seconds * SECOND, 1);
    CommonTermHolds(AcquiredClaim(op), op.at, op.at + op.seconds * SECOND, Active);
  }

  lemma RenewObtains(current: ClaimMap, op: ClaimOp)
    requires AllWellKept(current) && op.Renew? && DecideRenew(current, op).Write?
    ensures op.id in current && current[op.id].locks != [] && Obtains(op, current, RenewedClaim(current[op.id], op))
  {
    assert op.id in current;
    hide ClaimAccepted, ScopesOf, DecideRenew, HeldUntil, RenewedClaim;
    RenewKept(current, op);
    RenewalTerm(op.id, current[op.id], op);
  }

  lemma RenewalTerm(id: Id, c: Claim, op: ClaimOp)
    requires op.Renew? && c.locks != [] && WellKept(id, c)
    requires forall i :: 0 <= i < |c.locks| ==> OwnsScopeAt(c.locks[i], op.at)
    ensures ScopesOf(RenewedClaim(c, op).locks) == ScopesOf(c.locks)
    ensures HeldUntil(RenewedClaim(c, op), op.at, c.locks[0].expiresAt + op.seconds * SECOND)
  {
    hide ClaimAccepted, ScopesOf, NamedBy;
    var r := RenewedClaim(c, op);
    CommonExpiry(id, c);
    SameScopes(r.locks, c.locks);
    CommonTermHolds(r, op.at, MaxExpiry(c.locks) + op.seconds * SECOND, Active);
  }

  lemma CommonExpiry(id: Id, c: Claim)
    requires WellKept(id, c) && c.locks != []
    ensures MaxExpiry(c.locks) == c.locks[0].expiresAt
  {
    hide ClaimAccepted, NamedBy;
    var i :| 0 <= i < |c.locks| && c.locks[i].expiresAt == MaxExpiry(c.locks);
  }

  lemma ReacquireObtains(glob: Glob, current: ClaimMap, head: Digest, op: ClaimOp)
    requires op.Reacquire? && DecideReacquire(glob, current, head, op).Write?
    ensures Obtains(op, current, ReacquiredClaim(current[op.id], op))
  {
    hide ClaimAccepted, ScopesOf, Blocked;
    var c := current[op.id];
    SameScopes(ReacquiredClaim(c, op).locks, c.locks);
    CommonTermHolds(ReacquiredClaim(c, op), op.at, op.at + op.seconds * SECOND, Active);
  }

  lemma ExtendObtains(glob: Glob, current: ClaimMap, op: ClaimOp)
    requires AllWellKept(current) && op.ExtendScope? && DecideExtend(glob, current, op).Write?
    ensures current[op.id].locks != [] && Obtains(op, current, ExtendedClaim(current[op.id], op))
  {
    hide ClaimAccepted, Blocked, NewLocks, UnlockedScopes;
    var c := current[op.id];
    assert WellKept(op.id, c);
    var extra := ExtensionLocks(c, op);
    var e := ExtendedClaim(c, op);
    assert StateAt(c.locks[0], op.at) == Active;
    NewLocksHold(op.id, UnlockedScopes(op.added, c.locks), op.agentId, op.sessionId, c.changeSetId,
                 op.at, c.locks[0].expiresAt, |c.locks| + 1);
    UnlockedAre(op.added, c.locks);
    JoinedScopes(c.locks, extra);
    CommonTermHolds(e, op.at, c.locks[0].expiresAt, Active);
  }

  lemma JoinedScopes(a: seq<Lock>, b: seq<Lock>)
    ensures ScopesOf(a + b) == ScopesOf(a) + ScopesOf(b)
  {
    forall x
      ensures x in ScopesOf(a + b) <==> x in ScopesOf(a) || x in ScopesOf(b)
    {
      if x in ScopesOf(a) {
        var i :| 0 <= i < |a| && a[i].scope == x;
        assert (a + b)[i].scope == x;
      }
      if x in ScopesOf(b) {
        var i :| 0 <= i < |b| && b[i].scope == x;
        assert (a + b)[|a| + i].scope == x;
      }
    }
  }

  lemma ReleaseObtains(current: ClaimMap, op: ClaimOp)
    requires AllWellKept(current) && op.Release? && DecideRelease(current, op).Write?
    ensures Obtains(op, current, ReleasedClaim(current[op.id], op))
  {
    hide ClaimAccepted, ScopesOf;
    var c := current[op.id];
    assert WellKept(op.id, c);
    AcceptedHasLocks(c);
    SameScopes(ReleasedClaim(c, op).locks, c.locks);
    CommonTermHolds(ReleasedClaim(c, op), op.at, c.locks[0].expiresAt, Released);
  }

  /** Every operation that is written obtains what it asked for: the scopes, and for how long. */
  lemma WritesObtain(glob: Glob, op: ClaimOp, log: seq<Entry>)
    requires LatestClaims(log).Some? && AllWellKept(LatestClaims(log).value) && Decide(glob, op, log).Write?
    ensures Decide(glob, op, log).draft.payload.ClaimPayload?
    ensures Obtains(op, LatestClaims(log).value, Decide(glob, op, log).draft.payload.claim)
  {
    hide Obtains, ClaimAccepted, Blocked, LatestClaims, WellKept, NewLocks, UnlockedScopes;
    var current := LatestClaims(log).value;
    WritesAClaim(glob, op, log);
    match op
    case Acquire(_, _, _, _, _, _, _) => AcquireObtains(current, op);
    case Renew(_, _, _, _, _) => RenewObtains(current, op);
    case Reacquire(_, _, _, _, _, _) => ReacquireObtains(glob, current, HeadDigest(log), op);
    case ExtendScope(_, _, _, _, _) => ExtendObtains(glob, current, op);
    case Release(_, _, _, _) => ReleaseObtains(current, op);
  }

  /** The conflict loops find exactly the claims that hold an overlapping scope now. */
  lemma BlockedIff(glob: Glob, requested: seq<Lock>, current: ClaimMap, id: Id, now: Time)
    requires AllWellKept(current) && forall i :: 0 <= i < |requested| ==> NamedBy(requested[i], id)
    ensures Blocked(glob, requested, current, id, now) <==>
            exists b :: b in current && b != id && !Apart(glob, requested, current[b].locks, now)
  {
    hide Blocked, Apart, WellKept;
    if Blocked(glob, requested, current, id, now) {
      BlockedCollides(glob, requested, current, id, now);
    } else {
      UnblockedIsApart(glob, requested, current, id, now);
    }
  }

  // ----- exactly when an operation is accepted

  /** Another claim holds, at that time, a scope that overlaps one of `scopes`. */
  ghost predicate TakenByOther(glob: Glob, current: ClaimMap, id: Id, scopes: set<Scope>, at: Time) {
    exists b, j, x | b in current && x in scopes ::
      b != id && 0 <= j < |current[b].locks| && Holds(current[b].locks[j], at) && ScopesOverlap(glob, x, current[b].locks[j].scope)
  }

  lemma BlockedIsTaken(glob: Glob, requested: seq<Lock>, current: ClaimMap, id: Id, at: Time)
    requires AllWellKept(current)
    requires forall i :: 0 <= i < |requested| ==> NamedBy(requested[i], id) && Holds(requested[i], at)
    ensures Blocked(glob, requested, current, id, at) <==> TakenByOther(glob, current, id, ScopesOf(requested), at)
  {
    hide Blocked, WellKept, ScopesOverlap, NamedBy;
    BlockedIff(glob, requested, current, id, at);
    if Blocked(glob, requested, current, id, at) {
      var b :| b in current && b != id && !Apart(glob, requested, current[b].locks, at);
      var i, j :| 0 <= i < |requested| && 0 <= j < |current[b].locks| && Collide(glob, requested[i], current[b].locks[j], at);
      assert requested[i].scope in ScopesOf(requested) && Holds(current[b].locks[j], at);
    }
    if TakenByOther(glob, current, id, ScopesOf(requested), at) {
      var b, j, x :| b in current && x in ScopesOf(requested) && b != id && 0 <= j < |current[b].locks|
                     && Holds(current[b].locks[j], at) && ScopesOverlap(glob, x, current[b].locks[j].scope);
      var i :| 0 <= i < |requested| && requested[i].scope == x;
      assert Collide(glob, requested[i], current[b].locks[j], at);
    }
  }

  lemma AcquireBlockedIff(glob: Glob, current: ClaimMap, op: ClaimOp)
    requires AllWellKept(current) && op.Acquire? && 1 <= op.seconds
    ensures Blocked(glob, AcquiredClaim(op).locks, current, op.id, op.at) <==>
            TakenByOther(glob, current, op.id, (set x | x in op.scopes), op.at)
  {
    hide Blocked, WellKept, TakenByOther, ScopesOf;
    var locks := AcquiredClaim(op).locks;
    NewLocksNamed(op.id, op.scopes, op.agentId, op.sessionId, op.changeSetId, op.at, op.at + op.seconds * SECOND, 1);
    NewLocksHold(op.id, op.scopes, op.agentId, op.sessionId, op.changeSetId, op.at, op.at + op.seconds * SECOND, 1);
    BlockedIsTaken(glob, locks, current, op.id, op.at);
  }

  lemma AcquiredAccepted(op: ClaimOp)
    requires op.Acquire?
    ensures ClaimAccepted(AcquiredClaim(op)) <==>
            op.id != "" && op.scopes != [] && forall i, j :: 0 <= i < j < |op.scopes| ==> op.scopes[i] != op.scopes[j]
  {
    var locks := AcquiredClaim(op).locks;
    assert forall i :: 0 <= i < |locks| ==> locks[i].scope == op.scopes[i];
  }

  /** Acquiring is accepted exactly for a new claim on scopes, each once, that no other claim holds then. */
  lemma AcquireAcceptedIff(glob: Glob, current: ClaimMap, op: ClaimOp)
    requires AllWellKept(current) && op.Acquire?
    ensures DecideAcquire(glob, current, op).Write? <==>
            && 1 <= op.seconds <= 604_800 && op.id != "" && op.id !in current
            && op.scopes != [] && (forall i, j :: 0 <= i < j < |op.scopes| ==> op.scopes[i] != op.scopes[j])
            && !TakenByOther(glob, current, op.id, (set x | x in op.scopes), op.at)
    ensures DecideAcquire(glob, current, op) == Refuse(ScopeConflict) ==> TakenByOther(glob, current, op.id, (set x | x in op.scopes), op.at)
  {
    hide Blocked, ClaimAccepted, TakenByOther, AcquiredClaim, WellKept;
    AcquiredAccepted(op);
    if 1 <= op.seconds {
      AcquireBlockedIff(glob, current, op);
    }
  }

  /** On scopes other than files a conflict is another claim holding one of them, the very same one. */
  lemma SemanticConflictIff(glob: Glob, current: ClaimMap, op: ClaimOp)
    requires AllWellKept(current) && op.Acquire? && 1 <= op.seconds <= 604_800 && op.id != "" && op.id !in current
    requires op.scopes != [] && forall i, j :: 0 <= i < j < |op.scopes| ==> op.scopes[i] != op.scopes[j]
    requires forall x :: x in op.scopes ==> x.kind != File
    ensures DecideAcquire(glob, current, op) == Refuse(ScopeConflict) <==>
            exists b, j | b in current :: 0 <= j < |current[b].locks| && current[b].locks[j].state == Active
                                          && op.at < current[b].locks[j].expiresAt && current[b].locks[j].scope in op.scopes
  {
    hide Blocked, ClaimAccepted, AcquiredClaim, WellKept, ScopesOverlap;
    AcquiredAccepted(op);
    AcquireBlockedIff(glob, current, op);
    var scopes := set x | x in op.scopes;
    if TakenByOther(glob, current, op.id, scopes, op.at) {
      var b, j, x :| b in current && x in scopes && b != op.id && 0 <= j < |current[b].locks|
                     && Holds(current[b].locks[j], op.at) && ScopesOverlap(glob, x, current[b].locks[j].scope);
      OverlapOfOtherKinds(glob, x, current[b].locks[j].scope);
    }
    if b, j :| b in current && 0 <= j < |current[b].locks| && current[b].locks[j].state == Active
               && op.at < current[b].locks[j].expiresAt && current[b].locks[j].scope in op.scopes {
      var x := current[b].locks[j].scope;
      OverlapOfOtherKinds(glob, x, x);
      assert b != op.id && x in scopes && Holds(current[b].locks[j], op.at) && ScopesOverlap(glob, x, current[b].locks[j].scope);
      assert TakenByOther(glob, current, op.id, scopes, op.at);
    }
  }

  /** The operation is the owner's, on a claim there is. */
  predicate IsOwners(current: ClaimMap, op: ClaimOp) {
    op.id in current && current[op.id].agentId == op.agentId && current[op.id].sessionId == op.sessionId
  }

  /** A lease its operation may still work on: held, and not dated before what happened to it. */
  predicate HeldSince(l: Lock, at: Time) {
    l.state == Active && l.acquiredAt <= at && l.updatedAt <= at && at < l.expiresAt
  }

  /** Renewing is accepted exactly for the owner, while every lock is held. */
  lemma RenewAcceptedIff(current: ClaimMap, op: ClaimOp)
    requires AllWellKept(current) && op.Renew?
    ensures DecideRenew(current, op).Write? <==>
            && 1 <= op.seconds <= 604_800 && IsOwners(current, op)
            && forall i :: 0 <= i < |current[op.id].locks| ==> HeldSince(current[op.id].locks[i], op.at)
  {
    hide ClaimAccepted, NamedBy;
    if 1 <= op.seconds <= 604_800 && IsOwners(current, op) {
      var c := current[op.id];
      assert WellKept(op.id, c);
      AcceptedHasLocks(c);
      if forall i :: 0 <= i < |c.locks| ==> HeldSince(c.locks[i], op.at) {
        forall i | 0 <= i < |c.locks|
          ensures CanRenew(c.locks[i], op.at, MaxExpiry(c.locks) + op.seconds * SECOND)
        {
          assert c.locks[i].expiresAt <= MaxExpiry(c.locks);
        }
        RenewedAccepted(c, op);
      } else {
        var i :| 0 <= i < |c.locks| && !HeldSince(c.locks[i], op.at);
        assert !CanRenew(c.locks[i], op.at, MaxExpiry(c.locks) + op.seconds * SECOND);
      }
    }
  }

  lemma RenewedAccepted(c: Claim, op: ClaimOp)
    requires ClaimAccepted(c) && c.locks != []
    ensures op.Renew? ==> ClaimAccepted(RenewedClaim(c, op))
    ensures op.Reacquire? ==> ClaimAccepted(ReacquiredClaim(c, op))
    ensures op.Release? ==> ClaimAccepted(ReleasedClaim(c, op))
  {
    hide MaxExpiry;
  }

  /** Releasing is accepted exactly for the owner, while every lock is held. */
  lemma ReleaseAcceptedIff(current: ClaimMap, op: ClaimOp)
    requires AllWellKept(current) && op.Release?
    ensures DecideRelease(current, op).Write? <==>
            IsOwners(current, op) && forall i :: 0 <= i < |current[op.id].locks| ==> HeldSince(current[op.id].locks[i], op.at)
  {
    hide ClaimAccepted, NamedBy, ReleasedClaim;
    if IsOwners(current, op) {
      var c := current[op.id];
      assert WellKept(op.id, c);
      AcceptedHasLocks(c);
      RenewedAccepted(c, op);
      if i :| 0 <= i < |c.locks| && !HeldSince(c.locks[i], op.at) {
        assert !HoldsActiveLease(c.locks[i], op.at);
      }
    }
  }

  /** A lease that has run out and was not given back. */
  predicate IsOver(l: Lock, at: Time) {
    l.state == Expired || (l.state == Active && l.expiresAt <= at)
  }

  /** A lock whose lease has run out, not dated before what happened to it. */
  predicate RunOut(l: Lock, at: Time) {
    IsOver(l, at) && l.updatedAt <= at
  }

  /** Reacquiring is accepted exactly for the owner of a claim that has run out, on the expected head, if no other claim holds its scopes. */
  lemma ReacquireAcceptedIff(glob: Glob, current: ClaimMap, head: Digest, op: ClaimOp)
    requires AllWellKept(current) && op.Reacquire?
    ensures DecideReacquire(glob, current, head, op).Write? <==>
            && 1 <= op.seconds <= 604_800 && IsOwners(current, op) && (op.expected == None || op.expected == Some(head))
            && (forall i :: 0 <= i < |current[op.id].locks| ==> RunOut(current[op.id].locks[i], op.at))
            && !TakenByOther(glob, current, op.id, ScopesOf(current[op.id].locks), op.at)
  {
    hide ClaimAccepted, NamedBy, Blocked, TakenByOther, ScopesOf, ReacquiredClaim;
    if 1 <= op.seconds <= 604_800 && IsOwners(current, op) {
      var c := current[op.id];
      assert WellKept(op.id, c);
      AcceptedHasLocks(c);
      RenewedAccepted(c, op);
      ReacquireBlockedIff(glob, current, op);
      LocksAgree(op.id, c, op.at);
      if forall i :: 0 <= i < |c.locks| ==> RunOut(c.locks[i], op.at) {
        assert RunOut(c.locks[0], op.at);
      } else {
        var i :| 0 <= i < |c.locks| && !RunOut(c.locks[i], op.at);
        assert !CanReacquire(c.locks[i], op.at, op.at + op.seconds * SECOND);
      }
    }
  }

  lemma ReacquireBlockedIff(glob: Glob, current: ClaimMap, op: ClaimOp)
    requires AllWellKept(current) && op.Reacquire? && 1 <= op.seconds && op.id in current
    ensures Blocked(glob, ReacquiredClaim(current[op.id], op).locks, current, op.id, op.at) <==>
            TakenByOther(glob, current, op.id, ScopesOf(current[op.id].locks), op.at)
  {
    hide Blocked, TakenByOther, ScopesOf, ClaimAccepted, NamedBy;
    var c := current[op.id];
    var r := ReacquiredClaim(c, op);
    assert WellKept(op.id, c);
    forall i | 0 <= i < |r.locks|
      ensures NamedBy(r.locks[i], op.id) && Holds(r.locks[i], op.at)
    {
      SameName(c.locks[i], r.locks[i], op.id);
    }
    SameScopes(r.locks, c.locks);
    BlockedIsTaken(glob, r.locks, current, op.id, op.at);
  }

  lemma SameName(l: Lock, m: Lock, id: Id)
    requires NamedBy(l, id) && m.id == l.id
    ensures NamedBy(m, id)
  {
  }

  /** The scopes an extension adds. */
  function NewScopes(c: Claim, op: ClaimOp): set<Scope>
    requires op.ExtendScope?
  {
    (set x | x in op.added) - ScopesOf(c.locks)
  }

  lemma {:induction false} UnlockedOnce(added: seq<Scope>, locks: seq<Lock>)
    ensures (forall i, j :: 0 <= i < j < |UnlockedScopes(added, locks)| ==> UnlockedScopes(added, locks)[i] != UnlockedScopes(added, locks)[j])
            <==> forall i, j :: 0 <= i < j < |added| && added[i] == added[j] ==> added[i] in ScopesOf(locks)
  {
    hide ScopesOf;
    if added != [] {
      UnlockedOnce(added[1..], locks);
      UnlockedAre(added[1..], locks);
      HeldIff(added[0], locks);
      var rest := UnlockedScopes(added[1..], locks);
      assert forall k :: 1 <= k < |added| ==> added[k] == added[1..][k - 1];
      OnceMore(added, locks);
      if added[0] !in ScopesOf(locks) {
        assert UnlockedScopes(added, locks) == [added[0]] + rest;
        assert added[0] in rest <==> added[0] in added[1..];
        OnceOnceMore(added[0], rest);
      } else {
        assert UnlockedScopes(added, locks) == rest;
      }
    }
  }

  lemma HeldIff(x: Scope, locks: seq<Lock>)
    ensures x in ScopesOf(locks) <==> exists i :: 0 <= i < |locks| && locks[i].scope == x
  {
  }

  lemma OnceOnceMore(x: Scope, rest: seq<Scope>)
    ensures (forall i, j :: 0 <= i < j < |[x] + rest| ==> ([x] + rest)[i] != ([x] + rest)[j]) <==>
            x !in rest && forall i, j :: 0 <= i < j < |rest| ==> rest[i] != rest[j]
  {
    var all := [x] + rest;
    assert forall i :: 0 <= i < |rest| ==> all[i + 1] == rest[i];
    if forall i, j :: 0 <= i < j < |all| ==> all[i] != all[j] {
      forall i, j | 0 <= i < j < |rest|
        ensures rest[i] != rest[j]
      {
        assert all[i + 1] != all[j + 1];
      }
      forall k | 0 <= k < |rest|
        ensures rest[k] != x
      {
        assert all[0] != all[k + 1];
      }
    }
  }

  lemma OnceMore(added: seq<Scope>, locks: seq<Lock>)
    requires added != []
    ensures (forall i, j :: 0 <= i < j < |added| && added[i] == added[j] ==> added[i] in ScopesOf(locks)) <==>
            && (added[0] in added[1..] ==> added[0] in ScopesOf(locks))
            && forall i, j :: 0 <= i < j < |added[1..]| && added[1..][i] == added[1..][j] ==> added[1..][i] in ScopesOf(locks)
  {
    hide ScopesOf;
    var rest := added[1..];
    assert forall i :: 0 <= i < |rest| ==> rest[i] == added[i + 1];
    if forall i, j :: 0 <= i < j < |added| && added[i] == added[j] ==> added[i] in ScopesOf(locks) {
      forall i, j | 0 <= i < j < |rest| && rest[i] == rest[j]
        ensures rest[i] in ScopesOf(locks)
      {
        assert added[i + 1] == added[j + 1];
      }
      if added[0] in rest {
        var k :| 0 <= k < |rest| && rest[k] == added[0];
        assert added[k + 1] == added[0];
      }
    }
  }

  lemma ExtendedAccepted(c: Claim, op: ClaimOp)
    requires op.ExtendScope? && ClaimAccepted(c) && c.locks != [] && c.agentId == op.agentId && c.sessionId == op.sessionId
    ensures ClaimAccepted(ExtendedClaim(c, op)) <==>
            forall i, j :: 0 <= i < j < |op.added| && op.added[i] == op.added[j] ==> op.added[i] in ScopesOf(c.locks)
  {
    hide ScopesOf, NewLocks, UnlockedScopes;
    var scopes := UnlockedScopes(op.added, c.locks);
    var extra := ExtensionLocks(c, op);
    UnlockedOnce(op.added, c.locks);
    UnlockedAre(op.added, c.locks);
    NewLocksFields(op.id, scopes, op.agentId, op.sessionId, c.changeSetId, op.at, c.locks[0].expiresAt, |c.locks| + 1);
    assert ScopeList(extra) == scopes;
    DifferentScopes(c.locks);
    NewScopesApart(c.locks, scopes, extra);
  }

  lemma NewLocksFields(c: Id, scopes: seq<Scope>, agentId: Id, sessionId: Id, changeSetId: Id, at: Time, expiresAt: Time, first: nat)
    ensures var locks := NewLocks(c, scopes, agentId, sessionId, changeSetId, at, expiresAt, first);
            forall i :: 0 <= i < |locks| ==>
              && locks[i].scope == scopes[i] && locks[i].agentId == agentId && locks[i].sessionId == sessionId
              && locks[i].changeSetId == changeSetId && locks[i].acquiredAt == at && locks[i].updatedAt == at
  {
  }

  predicate NoneTwice(scopes: seq<Scope>) {
    forall i, j :: 0 <= i < j < |scopes| ==> scopes[i] != scopes[j]
  }

  lemma JoinedNoneTwice(a: seq<Scope>, b: seq<Scope>)
    requires NoneTwice(a) && forall x :: x in b ==> x !in a
    ensures NoneTwice(a + b) <==> NoneTwice(b)
  {
    if NoneTwice(a + b) {
      forall i, j | 0 <= i < j < |b|
        ensures b[i] != b[j]
      {
        assert (a + b)[|a| + i] != (a + b)[|a| + j];
      }
    }
    if NoneTwice(b) {
      forall i, j | 0 <= i < j < |a + b|
        ensures (a + b)[i] != (a + b)[j]
      {
        if j >= |a| {
          assert (a + b)[j] == b[j - |a|] && b[j - |a|] in b;
        }
      }
    }
  }

  /** The scopes of locks, one by one. */
  function ScopeList(locks: seq<Lock>): (r: seq<Scope>)
    ensures |r| == |locks| && forall i :: 0 <= i < |r| ==> r[i] == locks[i].scope
  {
    seq(|locks|, i requires 0 <= i < |locks| => locks[i].scope)
  }

  lemma NewScopesApart(locks: seq<Lock>, scopes: seq<Scope>, extra: seq<Lock>)
    requires NoneTwice(ScopeList(locks)) && ScopeList(extra) == scopes
    requires forall x :: x in scopes ==> x !in ScopesOf(locks)
    ensures (forall i, j :: 0 <= i < j < |locks + extra| ==> (locks + extra)[i].scope != (locks + extra)[j].scope) <==> NoneTwice(scopes)
  {
    hide NoneTwice;
    forall x | x in scopes
      ensures x !in ScopeList(locks)
    {
      HeldIff(x, locks);
    }
    JoinedNoneTwice(ScopeList(locks), scopes);
    assert ScopeList(locks + extra) == ScopeList(locks) + scopes;
    DifferentScopes(locks + extra);
  }

  lemma DifferentScopes(locks: seq<Lock>)
    ensures NoneTwice(ScopeList(locks)) <==> forall i, j :: 0 <= i < j < |locks| ==> locks[i].scope != locks[j].scope
  {
  }

  /**
   * Extending is accepted exactly for the owner of a claim that is held, with at least one scope the
   * claim does not have, none of those twice, if no other claim holds any of them.
   */
  lemma ExtendAcceptedIff(glob: Glob, current: ClaimMap, op: ClaimOp)
    requires AllWellKept(current) && op.ExtendScope?
    ensures DecideExtend(glob, current, op).Write? <==>
            && IsOwners(current, op) && (forall i :: 0 <= i < |current[op.id].locks| ==> Holds(current[op.id].locks[i], op.at))
            && NewScopes(current[op.id], op) != {}
            && (forall i, j :: 0 <= i < j < |op.added| && op.added[i] == op.added[j] ==> op.added[i] in ScopesOf(current[op.id].locks))
            && !TakenByOther(glob, current, op.id, NewScopes(current[op.id], op), op.at)
  {
    hide ClaimAccepted, NamedBy, Blocked, TakenByOther, ScopesOf, ExtensionLocks, ExtendedClaim, UnlockedScopes;
    if IsOwners(current, op) {
      var c := current[op.id];
      assert WellKept(op.id, c);
      AcceptedHasLocks(c);
      LocksAgree(op.id, c, op.at);
      ExtendedAccepted(c, op);
      UnlockedAre(op.added, c.locks);
      var scopes := UnlockedScopes(op.added, c.locks);
      assert scopes != [] ==> scopes[0] in NewScopes(c, op);
      assert scopes == [] <==> NewScopes(c, op) == {};
      assert (forall i :: 0 <= i < |c.locks| ==> Holds(c.locks[i], op.at)) <==> Holds(c.locks[0], op.at);
      if Holds(c.locks[0], op.at) {
        ExtendBlockedIff(glob, current, op);
      }
    }
  }

  lemma ExtendBlockedIff(glob: Glob, current: ClaimMap, op: ClaimOp)
    requires AllWellKept(current) && op.ExtendScope? && op.id in current && current[op.id].locks != [] && Holds(current[op.id].locks[0], op.at)
    ensures Blocked(glob, ExtensionLocks(current[op.id], op), current, op.id, op.at) <==>
            TakenByOther(glob, current, op.id, NewScopes(current[op.id], op), op.at)
  {
    hide Blocked, TakenByOther, ScopesOf, ClaimAccepted, NamedBy, UnlockedScopes, WellKept, NewLocks;
    var c := current[op.id];
    var scopes := UnlockedScopes(op.added, c.locks);
    var extra := ExtensionLocks(c, op);
    NewLocksNamed(op.id, scopes, op.agentId, op.sessionId, c.changeSetId, op.at, c.locks[0].expiresAt, |c.locks| + 1);
    NewLocksHold(op.id, scopes, op.agentId, op.sessionId, c.changeSetId, op.at, c.locks[0].expiresAt, |c.locks| + 1);
    UnlockedAre(op.added, c.locks);
    assert (set x | x in scopes) == NewScopes(c, op);
    BlockedIsTaken(glob, extra, current, op.id, op.at);
  }

  // ----- what each refusal says

  /** A lock the operation cannot work on. */
  predicate IsUnfit(op: ClaimOp, l: Lock) {
    if op.ExtendScope? then !Holds(l, op.at) else if op.Reacquire? then !RunOut(l, op.at) else !HeldSince(l, op.at)
  }

  /** What a refusal says of the claim the operation is on and of the operation itself. */
  ghost predicate SaysOfClaim(current: ClaimMap, head: Digest, op: ClaimOp, e: Refusal) {
    match e
    case OutOfRange => (op.Acquire? || op.Renew? || op.Reacquire?) && !(1 <= op.seconds <= 604_800)
    case AlreadyExists => op.Acquire? && op.id in current
    case NotFound => !op.Acquire? && op.id !in current
    case NotOwner => !op.Acquire? && op.id in current && !IsOwners(current, op)
    case HeadMoved => op.Reacquire? && op.expected.Some? && op.expected != Some(head)
    case NothingNew => op.ExtendScope? && (op.added == [] || (IsOwners(current, op) && NewScopes(current[op.id], op) == {}))
    case NotExpired => op.Reacquire? && IsOwners(current, op) && exists l :: l in current[op.id].locks && !IsOver(l, op.at)
    case NotActive => IsOwners(current, op) && exists l :: l in current[op.id].locks && IsUnfit(op, l)
    case Inconsistent =>
      || (op.Acquire? && (op.id == "" || op.scopes == [] || exists i, j :: 0 <= i < j < |op.scopes| && op.scopes[i] == op.scopes[j]))
      || (op.ExtendScope? && exists i, j :: 0 <= i < j < |op.added| && op.added[i] == op.added[j])
    case ScopeConflict => op.Acquire? || (IsOwners(current, op) && (op.Reacquire? || op.ExtendScope?))
    case _ => false
  }

  /** A conflict is told exactly of a scope that another claim holds then. */
  ghost predicate SaysOfOthers(glob: Glob, current: ClaimMap, op: ClaimOp, e: Refusal) {
    e == ScopeConflict ==>
      || (op.Acquire? && TakenByOther(glob, current, op.id, (set x | x in op.scopes), op.at))
      || (op.Reacquire? && op.id in current && TakenByOther(glob, current, op.id, ScopesOf(current[op.id].locks), op.at))
      || (op.ExtendScope? && op.id in current && TakenByOther(glob, current, op.id, NewScopes(current[op.id], op), op.at))
  }

  lemma AcquireRefusedFor(glob: Glob, current: ClaimMap, head: Digest, op: ClaimOp)
    requires AllWellKept(current) && op.Acquire? && DecideAcquire(glob, current, op).Refuse?
    ensures SaysOfClaim(current, head, op, DecideAcquire(glob, current, op).error)
    ensures SaysOfOthers(glob, current, op, DecideAcquire(glob, current, op).error)
  {
    hide Blocked, ClaimAccepted, TakenByOther, AcquiredClaim, WellKept;
    AcquiredAccepted(op);
    if 1 <= op.seconds {
      AcquireBlockedIff(glob, current, op);
    }
  }

  lemma RenewRefusedFor(glob: Glob, current: ClaimMap, head: Digest, op: ClaimOp)
    requires AllWellKept(current) && op.Renew? && DecideRenew(current, op).Refuse?
    ensures SaysOfClaim(current, head, op, DecideRenew(current, op).error)
    ensures SaysOfOthers(glob, current, op, DecideRenew(current, op).error)
  {
    hide ClaimAccepted, LockName;
    RenewAcceptedIff(current, op);
    if 1 <= op.seconds <= 604_800 && IsOwners(current, op) {
      var c := current[op.id];
      assert WellKept(op.id, c);
      AcceptedHasLocks(c);
      RenewedAccepted(c, op);
      if i :| 0 <= i < |c.locks| && !HeldSince(c.locks[i], op.at) {
        assert c.locks[i] in c.locks && IsUnfit(op, c.locks[i]);
      }
    }
  }

  lemma ReleaseRefusedFor(glob: Glob, current: ClaimMap, head: Digest, op: ClaimOp)
    requires AllWellKept(current) && op.Release? && DecideRelease(current, op).Refuse?
    ensures SaysOfClaim(current, head, op, DecideRelease(current, op).error)
    ensures SaysOfOthers(glob, current, op, DecideRelease(current, op).error)
  {
    hide ClaimAccepted, LockName;
    if IsOwners(current, op) {
      var c := current[op.id];
      assert WellKept(op.id, c);
      AcceptedHasLocks(c);
      RenewedAccepted(c, op);
      if i :| 0 <= i < |c.locks| && !HoldsActiveLease(c.locks[i], op.at) {
        assert c.locks[i] in c.locks && IsUnfit(op, c.locks[i]);
      }
    }
  }

  lemma ReacquireRefusedFor(glob: Glob, current: ClaimMap, head: Digest, op: ClaimOp)
    requires AllWellKept(current) && op.Reacquire? && DecideReacquire(glob, current, head, op).Refuse?
    ensures SaysOfClaim(current, head, op, DecideReacquire(glob, current, head, op).error)
    ensures SaysOfOthers(glob, current, op, DecideReacquire(glob, current, head, op).error)
  {
    hide ClaimAccepted, LockName, Blocked, TakenByOther, ScopesOf, ReacquiredClaim;
    if 1 <= op.seconds <= 604_800 && IsOwners(current, op) {
      var c := current[op.id];
      assert WellKept(op.id, c);
      AcceptedHasLocks(c);
      RenewedAccepted(c, op);
      ReacquireBlockedIff(glob, current, op);
      LocksAgree(op.id, c, op.at);
      assert c.locks[0] in c.locks;
      if i :| 0 <= i < |c.locks| && !CanReacquire(c.locks[i], op.at, op.at + op.seconds * SECOND) {
        assert c.locks[i] in c.locks;
        assert IsUnfit(op, c.locks[i]);
      }
    }
  }

  lemma ExtendRefusedFor(glob: Glob, current: ClaimMap, head: Digest, op: ClaimOp)
    requires AllWellKept(current) && op.ExtendScope? && DecideExtend(glob, current, op).Refuse?
    ensures SaysOfClaim(current, head, op, DecideExtend(glob, current, op).error)
    ensures SaysOfOthers(glob, current, op, DecideExtend(glob, current, op).error)
  {
    hide ClaimAccepted, LockName, Blocked, TakenByOther, ScopesOf, ExtensionLocks, ExtendedClaim, UnlockedScopes;
    if IsOwners(current, op) {
      var c := current[op.id];
      assert WellKept(op.id, c);
      AcceptedHasLocks(c);
      LocksAgree(op.id, c, op.at);
      ExtendedAccepted(c, op);
      UnlockedAre(op.added, c.locks);
      var scopes := UnlockedScopes(op.added, c.locks);
      assert scopes != [] ==> scopes[0] in NewScopes(c, op);
      assert scopes == [] <==> NewScopes(c, op) == {};
      assert c.locks[0] in c.locks;
      if Holds(c.locks[0], op.at) {
        ExtendBlockedIff(glob, current, op);
      }
    }
  }

  /** Every refusal is for the reason it names, in terms of the claims of the ledger. */
  lemma RefusedForItsReason(glob: Glob, op: ClaimOp, log: seq<Entry>)
    requires LatestClaims(log).Some? && AllWellKept(LatestClaims(log).value) && Decide(glob, op, log).Refuse?
    ensures SaysOfClaim(LatestClaims(log).value, HeadDigest(log), op, Decide(glob, op, log).error)
    ensures SaysOfOthers(glob, LatestClaims(log).value, op, Decide(glob, op, log).error)
  {
    hide SaysOfClaim, SaysOfOthers, DecideAcquire, DecideRenew, DecideReacquire, DecideExtend, DecideRelease, AllWellKept, LatestClaims;
    var current, head := LatestClaims(log).value, HeadDigest(log);
    match op
    case Acquire(_, _, _, _, _, _, _) => AcquireRefusedFor(glob, current, head, op);
    case Renew(_, _, _, _, _) => RenewRefusedFor(glob, current, head, op);
    case Reacquire(_, _, _, _, _, _) => ReacquireRefusedFor(glob, current, head, op);
    case ExtendScope(_, _, _, _, _) => ExtendRefusedFor(glob, current, head, op);
    case Release(_, _, _, _) => ReleaseRefusedFor(glob, current, head, op);
  }

  // ----- what exclusion means for scopes and files

  /** No scope is held by two claims. */
  ghost predicate ScopesHeldOnce(current: ClaimMap, now: Time) {
    forall a, b, i, j | a in current && b in current && 0 <= i < |current[a].locks| && 0 <= j < |current[b].locks| ::
      a != b && Holds(current[a].locks[i], now) && Holds(current[b].locks[j], now) ==>
        current[a].locks[i].scope != current[b].locks[j].scope
  }

  /** A file two claims hold is held by two patterns whose literal parts come apart inside a path segment. */
  ghost predicate FilesHeldOnce(glob: Glob, current: ClaimMap, now: Time) {
    forall a, b, i, j | a in current && b in current && 0 <= i < |current[a].locks| && 0 <= j < |current[b].locks| ::
      a != b && Holds(current[a].locks[i], now) && Holds(current[b].locks[j], now) ==>
        OnlyPatternsShare(glob, current[a].locks[i].scope, current[b].locks[j].scope)
  }

  ghost predicate OnlyPatternsShare(glob: Glob, x: Scope, y: Scope) {
    x.kind == File && y.kind == File && (exists name :: glob(name, x.key) && glob(name, y.key)) ==>
      && HasMagic(x.key) && HasMagic(y.key)
      && (WithinSegment(LiteralHead(x.key), LiteralHead(y.key)) || WithinSegment(LiteralHead(y.key), LiteralHead(x.key)))
  }

  lemma ExclusiveHoldsOnce(glob: Glob, current: ClaimMap, now: Time)
    requires Exclusive(glob, current, now)
    ensures ScopesHeldOnce(current, now)
    ensures MatchesHead(glob) && MatchesItself(glob) ==> FilesHeldOnce(glob, current, now)
  {
    hide ScopesOverlap, OnlyPatternsShare, MatchesHead, MatchesItself;
    forall a, b, i, j | a in current && b in current && 0 <= i < |current[a].locks| && 0 <= j < |current[b].locks|
                        && a != b && Holds(current[a].locks[i], now) && Holds(current[b].locks[j], now)
      ensures current[a].locks[i].scope != current[b].locks[j].scope
      ensures MatchesHead(glob) && MatchesItself(glob) ==> OnlyPatternsShare(glob, current[a].locks[i].scope, current[b].locks[j].scope)
    {
      assert Apart(glob, current[a].locks, current[b].locks, now);
      var x, y := current[a].locks[i].scope, current[b].locks[j].scope;
      assert !Collide(glob, current[a].locks[i], current[b].locks[j], now);
      OverlapOfOtherKinds(glob, x, y);
      ApartShare(glob, x, y);
    }
  }

  lemma ApartShare(glob: Glob, x: Scope, y: Scope)
    requires !ScopesOverlap(glob, x, y)
    ensures MatchesHead(glob) && MatchesItself(glob) ==> OnlyPatternsShare(glob, x, y)
  {
    if MatchesHead(glob) && MatchesItself(glob) && x.kind == File && y.kind == File
       && exists name :: glob(name, x.key) && glob(name, y.key) {
      var name :| glob(name, x.key) && glob(name, y.key);
      SharedFileMissedIff(glob, x.key, y.key, name);
    }
  }

  // ----- what no operation changes

  /** Claims as every ledger of this service holds them, whatever the operation times. */
  ghost predicate ClaimsNamed(log: seq<Entry>) {
    && LatestClaims(log).Some?
    && forall id :: id in LatestClaims(log).value ==> LatestClaims(log).value[id].id == id && LatestClaims(log).value[id].locks != []
  }

  predicate AllReleased(c: Claim) {
    forall i :: 0 <= i < |c.locks| ==> c.locks[i].state == Released
  }

  /** A later version of a claim: same owner, same locks or more, and nothing after release. */
  ghost predicate Succeeds(before: Claim, after: Claim) {
    && after.id == before.id && after.changeSetId == before.changeSetId
    && after.agentId == before.agentId && after.sessionId == before.sessionId
    && |before.locks| <= |after.locks|
    && (forall i :: 0 <= i < |before.locks| ==>
          && after.locks[i].id == before.locks[i].id && after.locks[i].scope == before.locks[i].scope
          && after.locks[i].acquiredAt == before.locks[i].acquiredAt)
    && (AllReleased(before) ==> after == before)
  }

  lemma RenewSucceeds(current: ClaimMap, op: ClaimOp)
    requires op.Renew? && DecideRenew(current, op).Write?
    ensures op.id in current && Owns(current[op.id], op) && current[op.id].locks != []
    ensures Succeeds(current[op.id], RenewedClaim(current[op.id], op))
    ensures DecideRenew(current, op) == Write(ClaimDraft(RenewedClaim(current[op.id], op)))
  {
    hide ClaimAccepted, MaxExpiry, StateAt;
    var c := current[op.id];
    assert CanRenew(c.locks[0], op.at, MaxExpiry(c.locks) + op.seconds * SECOND);
  }

  lemma ReacquireSucceeds(glob: Glob, current: ClaimMap, head: Digest, op: ClaimOp)
    requires op.Reacquire? && DecideReacquire(glob, current, head, op).Write?
    ensures op.id in current && Owns(current[op.id], op)
    ensures current[op.id].locks != [] && Succeeds(current[op.id], ReacquiredClaim(current[op.id], op))
    ensures DecideReacquire(glob, current, head, op) == Write(ClaimDraft(ReacquiredClaim(current[op.id], op)))
  {
    hide ClaimAccepted, Blocked;
    var c := current[op.id];
    assert CanReacquire(c.locks[0], op.at, op.at + op.seconds * SECOND);
  }

  lemma ExtendSucceeds(glob: Glob, current: ClaimMap, op: ClaimOp)
    requires op.ExtendScope? && DecideExtend(glob, current, op).Write?
    ensures op.id in current && Owns(current[op.id], op)
    ensures current[op.id].locks != [] && Succeeds(current[op.id], ExtendedClaim(current[op.id], op))
    ensures DecideExtend(glob, current, op) == Write(ClaimDraft(ExtendedClaim(current[op.id], op)))
  {
    hide ClaimAccepted, Blocked, NewLocks, UnlockedScopes;
    var c := current[op.id];
    assert StateAt(c.locks[0], op.at) == Active;
  }

  lemma ReleaseSucceeds(current: ClaimMap, op: ClaimOp)
    requires op.Release? && DecideRelease(current, op).Write? && (op.id in current ==> current[op.id].locks != [])
    ensures op.id in current && Owns(current[op.id], op)
    ensures Succeeds(current[op.id], ReleasedClaim(current[op.id], op)) && AllReleased(ReleasedClaim(current[op.id], op))
    ensures DecideRelease(current, op) == Write(ClaimDraft(ReleasedClaim(current[op.id], op)))
  {
    hide ClaimAccepted;
    var c := current[op.id];
    assert HoldsActiveLease(c.locks[0], op.at);
  }

  /** Only acquiring makes a claim, under an unused id; everything else continues its owner's claim. */
  lemma VersionSucceeds(glob: Glob, op: ClaimOp, log: seq<Entry>)
    requires ClaimsNamed(log) && Decide(glob, op, log).Write?
    ensures var current, d := LatestClaims(log).value, Decide(glob, op, log).draft;
            && d.payload.ClaimPayload? && d == ClaimDraft(d.payload.claim) && d.payload.claim.id == op.id && d.payload.claim.locks != []
            && (op.Acquire? <==> op.id !in current)
            && Owns(d.payload.claim, op)
            && (op.id in current ==> Succeeds(current[op.id], d.payload.claim))
  {
    hide ClaimAccepted, Blocked, LatestClaims, NewLocks, UnlockedScopes, Succeeds;
    hide DecideRenew, DecideReacquire, DecideExtend, DecideRelease;
    var current := LatestClaims(log).value;
    match op
    case Acquire(_, _, _, _, _, _, _) => AcceptedHasLocks(AcquiredClaim(op));
    case Renew(_, _, _, _, _) => RenewSucceeds(current, op);
    case Reacquire(_, _, _, _, _, _) => ReacquireSucceeds(glob, current, HeadDigest(log), op);
    case ExtendScope(_, _, _, _, _) => ExtendSucceeds(glob, current, op);
    case Release(_, _, _, _) => ReleaseSucceeds(current, op);
  }

  lemma SucceedsTransitive(a: Claim, b: Claim, c: Claim)
    requires Succeeds(a, b) && Succeeds(b, c)
    ensures Succeeds(a, c)
  {
    if AllReleased(a) {
      assert AllReleased(b);
    }
  }

  // ----- what the order of operation times is needed for

  function After(glob: Glob, log: seq<Entry>, op: ClaimOp): seq<Entry> {
    match Decide(glob, op, log)
    case Write(d) => log + [NextEntry(log, d)]
    case _ => log
  }

  lemma BlockedCollides(glob: Glob, requested: seq<Lock>, current: ClaimMap, id: Id, now: Time)
    requires Blocked(glob, requested, current, id, now)
    ensures exists b :: b in current && b != id && !Apart(glob, requested, current[b].locks, now)
  {
    var b :| b in current && b != id && ConflictsWithClaim(glob, requested, current[b], now);
    var i, j :| 0 <= i < |requested| && 0 <= j < |current[b].locks| && ConflictsWith(glob, requested[i], current[b].locks[j], now);
    assert Collide(glob, requested[i], current[b].locks[j], now);
  }

  /**
   * A renewal accepted at any time at all leaves the claims exclusive at `now` exactly when the
   * conflict check that acquiring makes would pass for the renewed locks at `now`.
   */
  lemma RenewalExclusiveIff(glob: Glob, current: ClaimMap, op: ClaimOp, now: Time)
    requires AllWellKept(current) && Exclusive(glob, current, now)
    requires op.Renew? && DecideRenew(current, op).Write?
    ensures current[op.id].locks != []
    ensures var r := RenewedClaim(current[op.id], op);
            Exclusive(glob, current[op.id := r], now) <==> !Blocked(glob, r.locks, current, op.id, now)
  {
    hide ClaimAccepted, OwnsScopeAt, Blocked, Apart, RenewedClaim;
    RenewKept(current, op);
    var r := RenewedClaim(current[op.id], op);
    if Blocked(glob, r.locks, current, op.id, now) {
      BlockedCollides(glob, r.locks, current, op.id, now);
      var b :| b in current && b != op.id && !Apart(glob, r.locks, current[b].locks, now);
      var next := current[op.id := r];
      assert op.id in next && b in next && next[b] == current[b];
    } else {
      KeptNames(op.id, r);
      UnblockedIsApart(glob, r.locks, current, op.id, now);
      ReplaceKeepsExclusive(glob, current, op.id, r, now);
    }
  }

  // ----- exactly which histories are exclusive

  predicate IsClaimRecord(e: Entry) {
    e.draft.kind == ClaimKind
  }

  predicate NotAfter(log: seq<Entry>, now: Time) {
    forall i :: 0 <= i < |log| && IsClaimRecord(log[i]) ==> log[i].draft.recordedAt <= now
  }

  /** The latest of `at` and the times of all claim records. */
  function LatestTime(log: seq<Entry>, at: Time): Time {
    if log == [] then at
    else
      var t := LatestTime(log[..|log| - 1], at);
      var e := log[|log| - 1];
      if IsClaimRecord(e) && t < e.draft.recordedAt then e.draft.recordedAt else t
  }

  lemma {:induction false} LatestTimeIsLeast(log: seq<Entry>, at: Time)
    ensures NotAfter(log, LatestTime(log, at)) && at <= LatestTime(log, at)
    ensures forall now :: NotAfter(log, now) && at <= now ==> LatestTime(log, at) <= now
  {
    if log != [] {
      var n := |log| - 1;
      LatestTimeIsLeast(log[..n], at);
      assert log == log[..n] + [log[n]];
      forall now | NotAfter(log, now) && at <= now
        ensures LatestTime(log, at) <= now
      {
        assert NotAfter(log[..n], now);
      }
    }
  }

  lemma NotAfterNext(log: seq<Entry>, e: Entry, now: Time)
    ensures NotAfter(log + [e], now) <==> NotAfter(log, now) && (IsClaimRecord(e) ==> e.draft.recordedAt <= now)
  {
    var longer := log + [e];
    assert longer[|log|] == e && forall i :: 0 <= i < |log| ==> longer[i] == log[i];
  }

  /** No two claims collide from the latest claim record on. */
  ghost predicate Settled(glob: Glob, log: seq<Entry>) {
    LatestClaims(log).Some? && AllWellKept(LatestClaims(log).value)
    && forall now :: NotAfter(log, now) ==> Exclusive(glob, LatestClaims(log).value, now)
  }

  /** A renewal that takes what another claim holds at the latest time so far. */
  ghost predicate Encroaches(glob: Glob, op: ClaimOp, log: seq<Entry>) {
    && op.Renew? && Decide(glob, op, log).Write? && LatestClaims(log).Some?
    && op.id in LatestClaims(log).value && LatestClaims(log).value[op.id].locks != []
    && var current := LatestClaims(log).value;
       Blocked(glob, RenewedClaim(current[op.id], op).locks, current, op.id, LatestTime(log, op.at))
  }

  lemma WrittenAt(glob: Glob, op: ClaimOp, log: seq<Entry>)
    requires Decide(glob, op, log).Write?
    ensures Decide(glob, op, log).draft.recordedAt == op.at && Decide(glob, op, log).draft.kind == ClaimKind
  {
    hide Blocked, ClaimAccepted, LatestClaims, NewLocks, UnlockedScopes;
  }

  lemma RenewalSettlesIff(glob: Glob, op: ClaimOp, log: seq<Entry>)
    requires Settled(glob, log) && op.Renew? && Decide(glob, op, log).Write?
    ensures Settled(glob, log + [NextEntry(log, Decide(glob, op, log).draft)]) <==> !Encroaches(glob, op, log)
  {
    hide Exclusive, AllWellKept, Blocked, ClaimAccepted, LatestClaims, NotAfter, LatestTime, DecideRenew, RenewedClaim;
    var current := LatestClaims(log).value;
    var e := NextEntry(log, Decide(glob, op, log).draft);
    var next := log + [e];
    WrittenAt(glob, op, log);
    WrittenIsKept(glob, op, log);
    RenewWrites(current, op);
    var t := LatestTime(log, op.at);
    LatestTimeIsLeast(log, op.at);
    RenewalExclusiveIff(glob, current, op, t);
    NotAfterNext(log, e, t);
    var claims := current[op.id := RenewedClaim(current[op.id], op)];
    assert LatestClaims(next) == Some(claims);
    if !Encroaches(glob, op, log) {
      forall now | NotAfter(next, now)
        ensures Exclusive(glob, claims, now)
      {
        NotAfterNext(log, e, now);
        ExclusiveLater(glob, claims, t, now);
      }
    }
  }

  lemma RenewWrites(current: ClaimMap, op: ClaimOp)
    requires op.Renew? && DecideRenew(current, op).Write?
    ensures op.id in current && current[op.id].locks != []
    ensures DecideRenew(current, op) == Write(ClaimDraft(RenewedClaim(current[op.id], op)))
  {
    hide ClaimAccepted;
  }

  /** One operation leaves claims exclusive from the latest record on exactly when it is no encroaching renewal. */
  lemma SettlesIff(glob: Glob, op: ClaimOp, log: seq<Entry>)
    requires Settled(glob, log) && Decide(glob, op, log).Write?
    ensures Settled(glob, log + [NextEntry(log, Decide(glob, op, log).draft)]) <==> !Encroaches(glob, op, log)
  {
    hide Exclusive, AllWellKept, Blocked, LatestClaims, NotAfter, LatestTime, Decide;
    if op.Renew? {
      RenewalSettlesIff(glob, op, log);
    } else {
      var e := NextEntry(log, Decide(glob, op, log).draft);
      WrittenAt(glob, op, log);
      WrittenIsKept(glob, op, log);
      forall now | NotAfter(log + [e], now)
        ensures Exclusive(glob, LatestClaims(log + [e]).value, now)
      {
        NotAfterNext(log, e, now);
        OthersKeepExclusion(glob, op, log, now);
      }
    }
  }

  /** A renewal in time order takes nothing from anyone. */
  lemma TimelyDoesNotEncroach(glob: Glob, op: ClaimOp, log: seq<Entry>)
    requires Settled(glob, log) && NotAfter(log, op.at)
    ensures !Encroaches(glob, op, log)
  {
    hide Exclusive, AllWellKept, Blocked, LatestClaims, NotAfter, LatestTime, DecideRenew, RenewedClaim;
    if op.Renew? && Decide(glob, op, log).Write? {
      var current := LatestClaims(log).value;
      LatestTimeIsLeast(log, op.at);
      assert LatestTime(log, op.at) == op.at;
      RenewGood(glob, current, op);
      RenewWrites(current, op);
      GoodVersionKeeps(glob, current, op.id, RenewedClaim(current[op.id], op), op.at);
      RenewalExclusiveIff(glob, current, op, op.at);
    }
  }

  lemma KeptNames(id: Id, c: Claim)
    requires WellKept(id, c)
    ensures forall i :: 0 <= i < |c.locks| ==> NamedBy(c.locks[i], id)
  {
  }

  const SHARED := Scope(Contract, "api")

  const FIRST := Acquire("a", "cs-a", "agent-a", "s", [SHARED], 0, 10)
  const SECOND_CLAIM := Acquire("b", "cs-b", "agent-b", "s", [SHARED], 20 * SECOND, 10)
  const LATE_RENEWAL := Renew("a", "agent-a", "s", 5 * SECOND, 100)

  function OneLockClaim(op: ClaimOp): Claim
    requires op.Acquire?
  {
    var l := Lock(LockName(op.id, 1), SHARED, op.agentId, op.sessionId, op.changeSetId, op.at,
                  op.at + op.seconds * SECOND, Active, op.at);
    Claim(op.id, op.changeSetId, op.agentId, op.sessionId, [l], op.at)
  }

  lemma FirstAcquire(glob: Glob)
    ensures LatestClaims(After(glob, [], FIRST)) == Some(map["a" := OneLockClaim(FIRST)])
  {
    assert AcquiredClaim(FIRST).locks == OneLockClaim(FIRST).locks;
    LatestAfter([], NextEntry([], ClaimDraft(OneLockClaim(FIRST))));
  }

  lemma SecondAcquire(glob: Glob, log: seq<Entry>)
    requires LatestClaims(log) == Some(map["a" := OneLockClaim(FIRST)])
    ensures LatestClaims(After(glob, log, SECOND_CLAIM)) ==
            Some(map["a" := OneLockClaim(FIRST), "b" := OneLockClaim(SECOND_CLAIM)])
  {
    assert AcquiredClaim(SECOND_CLAIM).locks == OneLockClaim(SECOND_CLAIM).locks;
    assert Decide(glob, SECOND_CLAIM, log) == Write(ClaimDraft(OneLockClaim(SECOND_CLAIM)));
    LatestAfter(log, NextEntry(log, ClaimDraft(OneLockClaim(SECOND_CLAIM))));
  }

  /** The lease of "a", renewed while it was still active by its own clock. */
  function LateClaim(): Claim {
    RenewedClaim(OneLockClaim(FIRST), LATE_RENEWAL)
  }

  lemma LateRenewal(glob: Glob, log: seq<Entry>)
    requires LatestClaims(log) == Some(map["a" := OneLockClaim(FIRST), "b" := OneLockClaim(SECOND_CLAIM)])
    ensures LatestClaims(After(glob, log, LATE_RENEWAL)) == Some(map["a" := LateClaim(), "b" := OneLockClaim(SECOND_CLAIM)])
  {
    var c := OneLockClaim(FIRST);
    assert MaxExpiry(c.locks) == 10 * SECOND;
    assert |LateClaim().locks| == 1;
    assert DecideRenew(LatestClaims(log).value, LATE_RENEWAL) == Write(ClaimDraft(LateClaim()));
    LatestAfter(log, NextEntry(log, ClaimDraft(LateClaim())));
    assert LatestClaims(log).value["a" := LateClaim()] == map["a" := LateClaim(), "b" := OneLockClaim(SECOND_CLAIM)];
  }

  lemma LateLocksCollide(glob: Glob)
    ensures !Apart(glob, LateClaim().locks, OneLockClaim(SECOND_CLAIM).locks, 21 * SECOND)
  {
    var c := OneLockClaim(FIRST);
    assert MaxExpiry(c.locks) == 10 * SECOND;
    assert Collide(glob, LateClaim().locks[0], OneLockClaim(SECOND_CLAIM).locks[0], 21 * SECOND);
  }

  /** Operation times that go back break exclusion: a renewal dated before another claim's lease. */
  lemma BackdatedRenewalBreaksExclusion(glob: Glob)
    ensures var log := After(glob, After(glob, After(glob, [], FIRST), SECOND_CLAIM), LATE_RENEWAL);
            && LatestClaims(log).Some?
            && !Exclusive(glob, LatestClaims(log).value, 21 * SECOND)
  {
    hide After, LatestClaims, Apart, OneLockClaim, LateClaim;
    FirstAcquire(glob);
    SecondAcquire(glob, After(glob, [], FIRST));
    LateRenewal(glob, After(glob, After(glob, [], FIRST), SECOND_CLAIM));
    LateLocksCollide(glob);
    var next := map["a" := LateClaim(), "b" := OneLockClaim(SECOND_CLAIM)];
    assert "a" in next && "b" in next && "a" != "b" && !Apart(glob, next["a"].locks, next["b"].locks, 21 * SECOND);
  }
}
