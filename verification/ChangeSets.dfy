/**
 * Change Set lifecycle and Git lineage (domain/changeset.py) with the bindings that tie a
 * Change Set to repository observations (application/change_binding.py). All values are
 * immutable; an operation answers a new snapshot or the error the source raises.
 */
module ChangeSets {
  import opened Common
  import opened Sorting

  datatype ChangeSetState = Planned | Active | Review | Merged | Closed | Abandoned

  datatype LineageKind = Activated | HeadAdvanced | BranchMoved | Rebased

  /** The Git context a Change Set points at. */
  datatype Lineage = Lineage(base: string, head: string, branch: string)

  datatype LineageEvent = LineageEvent(kind: LineageKind, occurredAt: Time, previous: Lineage, next: Lineage)

  datatype ScopeAmendment = ScopeAmendment(occurredAt: Time, added: seq<string>, reason: string)

  datatype ChangeSet = ChangeSet(id: Id, goal: string, repositoryId: Id, at: Lineage, worktree: string,
                                 scopes: seq<string>, state: ChangeSetState, createdAt: Time, updatedAt: Time,
                                 lineage: seq<LineageEvent>, amendments: seq<ScopeAmendment>)

  datatype Observation = Observation(ordinal: nat, repositoryId: Id, baseRevision: string, seen: Lineage,
                                     worktree: string, observedAt: Time)

  datatype ChangeBinding = ChangeBinding(changeSet: ChangeSet, baseRevision: string, observations: seq<Observation>)

  datatype ChangeSetError =
    | InvalidTransition | InvalidLineageChange | NothingChanged | TimeReversed | BadScopes
    | WrongContext | BadBinding

  predicate NoDuplicates<T(==)>(s: seq<T>) {
    forall i, j :: 0 <= i < j < |s| ==> s[i] != s[j]
  }

  predicate LineageState(s: ChangeSetState) {
    s == Active || s == Review
  }

  predicate Allowed(before: ChangeSetState, after: ChangeSetState) {
    match before
    case Planned => after == Abandoned
    case Active => after == Review || after == Abandoned
    case Review => after == Active || after == Merged || after == Abandoned
    case Merged => after == Closed
    case Closed => false
    case Abandoned => false
  }

  /** Python's `candidate or current` on text. */
  function Or(candidate: string, current: string): string {
    if candidate == "" then current else candidate
  }

  function Plan(id: Id, goal: string, repositoryId: Id, base: string, branch: string, worktree: string,
                scopes: seq<string>, at: Time): Result<ChangeSet, ChangeSetError>
  {
    if NoDuplicates(scopes)
    then Ok(ChangeSet(id, goal, repositoryId, Lineage(base, base, branch), worktree, scopes, Planned, at, at, [], []))
    else Err(BadScopes)
  }

  function RecordLineage(c: ChangeSet, kind: LineageKind, base: string, head: string, branch: string,
                         state: ChangeSetState, at: Time): Result<ChangeSet, ChangeSetError>
  {
    var next := Lineage(Or(base, c.at.base), Or(head, c.at.head), Or(branch, c.at.branch));
    if kind != Activated && !LineageState(c.state) then Err(InvalidLineageChange)
    else if kind == HeadAdvanced && next.head == c.at.head then Err(NothingChanged)
    else if kind == BranchMoved && next.branch == c.at.branch then Err(NothingChanged)
    else if kind == Rebased && next.base == c.at.base then Err(NothingChanged)
    else if at < c.updatedAt then Err(TimeReversed)
    else Ok(c.(at := next, state := state, updatedAt := at,
               lineage := c.lineage + [LineageEvent(kind, at, c.at, next)]))
  }

  function Activate(c: ChangeSet, head: string, at: Time): Result<ChangeSet, ChangeSetError> {
    if c.state != Planned then Err(InvalidTransition)
    else RecordLineage(c, Activated, "", head, "", Active, at)
  }

  function Transition(c: ChangeSet, state: ChangeSetState, at: Time): Result<ChangeSet, ChangeSetError> {
    if state == Active && c.state == Planned then Err(InvalidTransition)
    else if !Allowed(c.state, state) then Err(InvalidTransition)
    else if at < c.updatedAt then Err(TimeReversed)
    else Ok(c.(state := state, updatedAt := at))
  }

  function AdvanceHead(c: ChangeSet, head: string, at: Time): Result<ChangeSet, ChangeSetError> {
    RecordLineage(c, HeadAdvanced, "", head, "", c.state, at)
  }

  function MoveBranch(c: ChangeSet, branch: string, head: string, at: Time): Result<ChangeSet, ChangeSetError> {
    RecordLineage(c, BranchMoved, "", head, branch, c.state, at)
  }

  function Rebase(c: ChangeSet, base: string, head: string, at: Time): Result<ChangeSet, ChangeSetError> {
    RecordLineage(c, Rebased, base, head, "", c.state, at)
  }

  /** The scopes of `added` that are not declared yet, in order. */
  function GenuinelyNew(added: seq<string>, declared: seq<string>): (r: seq<string>)
    ensures forall s :: s in r <==> s in added && s !in declared
    ensures NoDuplicates(added) ==> NoDuplicates(r)
  {
    if added == [] then []
    else
      assert added == [added[0]] + added[1..];
      if added[0] in declared then GenuinelyNew(added[1..], declared)
      else [added[0]] + GenuinelyNew(added[1..], declared)
  }

  function AmendScope(c: ChangeSet, added: seq<string>, reason: string, at: Time): Result<ChangeSet, ChangeSetError> {
    var novel := GenuinelyNew(added, c.scopes);
    if !LineageState(c.state) then Err(InvalidLineageChange)
    else if added == [] || !NoDuplicates(added) || novel == [] then Err(BadScopes)
    else if at < c.updatedAt then Err(TimeReversed)
    else Ok(c.(scopes := SortBy(LexLeq, c.scopes + novel), updatedAt := at,
               amendments := c.amendments + [ScopeAmendment(at, novel, reason)]))
  }

  // ----- bindings

  /** What the Git port answers; `resolve` is the commit a revision names. */
  datatype Git = Git(repositoryId: Id, worktree: Option<string>, branch: Option<string>,
                     head: string, resolve: string -> string)

  predicate ContextMatches(c: ChangeSet, git: Git) {
    git.repositoryId == c.repositoryId && git.worktree == Some(c.worktree) && git.branch.Some?
  }

  function Observe(c: ChangeSet, git: Git, revision: string, resolved: string, ordinal: nat, at: Time)
    : Result<Observation, ChangeSetError>
  {
    if ContextMatches(c, git)
    then Ok(Observation(ordinal, git.repositoryId, revision,
                        Lineage(git.resolve(resolved), git.head, git.branch.value), git.worktree.value, at))
    else Err(WrongContext)
  }

  /** The checks of the ChangeBinding constructor. */
  predicate BindingAccepted(b: ChangeBinding) {
    && b.observations != []
    && (forall i :: 0 <= i < |b.observations| ==> b.observations[i].repositoryId == b.changeSet.repositoryId)
    && (forall i, j :: 0 <= i < j < |b.observations| ==> b.observations[i].ordinal != b.observations[j].ordinal)
    && (forall i :: 0 < i < |b.observations| ==> b.observations[i - 1].observedAt <= b.observations[i].observedAt)
    && b.observations[|b.observations| - 1].baseRevision == b.baseRevision
    && b.observations[|b.observations| - 1].seen == b.changeSet.at
    && b.observations[|b.observations| - 1].worktree == b.changeSet.worktree
  }

  function MakeBinding(c: ChangeSet, revision: string, observations: seq<Observation>): Result<ChangeBinding, ChangeSetError> {
    var b := ChangeBinding(c, revision, observations);
    if BindingAccepted(b) then Ok(b) else Err(BadBinding)
  }

  function Create(c: ChangeSet, git: Git, revision: string, at: Time): Result<ChangeBinding, ChangeSetError> {
    if c.state != Planned then Err(BadBinding)
    else
      match Observe(c, git, revision, revision, 1, at)
      case Err(e) => Err(e)
      case Ok(o) =>
        if c.at.base != o.seen.base || c.at.branch != o.seen.branch then Err(WrongContext)
        else
          match Activate(c, o.seen.head, at)
          case Err(e) => Err(e)
          case Ok(active) => MakeBinding(active, revision, [o])
  }

  /** The three branches of `refresh` that move a Change Set to what was observed. */
  function Follow(c: ChangeSet, seen: Lineage, at: Time): Result<ChangeSet, ChangeSetError> {
    var baseChanged, branchChanged, headChanged :=
      seen.base != c.at.base, seen.branch != c.at.branch, seen.head != c.at.head;
    var rebased := if baseChanged then Rebase(c, seen.base, seen.head, at) else Ok(c);
    match rebased
    case Err(e) => Err(e)
    case Ok(d) =>
      if branchChanged then MoveBranch(d, seen.branch, seen.head, at)
      else if headChanged && !baseChanged then AdvanceHead(d, seen.head, at)
      else Ok(d)
  }

  /** `baseRevision == ""` stands for an omitted argument. */
  function Refresh(b: ChangeBinding, git: Git, baseRevision: string, at: Time): Result<ChangeBinding, ChangeSetError> {
    match Observe(b.changeSet, git, Or(baseRevision, b.baseRevision), Or(baseRevision, b.changeSet.at.base),
                  |b.observations| + 1, at)
    case Err(e) => Err(e)
    case Ok(o) =>
      match Follow(b.changeSet, o.seen, at)
      case Err(e) => Err(e)
      case Ok(c) => MakeBinding(c, Or(baseRevision, b.baseRevision), b.observations + [o])
  }

  // ----- replay

  /** What an event is allowed to change, judged by its kind alone. */
  function ApplyEvent(l: Lineage, e: LineageEvent): Lineage {
    match e.kind
    case Activated => l.(head := e.next.head)
    case HeadAdvanced => l.(head := e.next.head)
    case BranchMoved => l.(branch := e.next.branch, head := e.next.head)
    case Rebased => l.(base := e.next.base, head := e.next.head)
  }

  function Replay(start: Lineage, events: seq<LineageEvent>): Lineage {
    if events == [] then start
    else ApplyEvent(Replay(start, events[..|events| - 1]), events[|events| - 1])
  }

  predicate Truthful(e: LineageEvent) {
    match e.kind
    case Activated => true
    case HeadAdvanced => e.next.head != e.previous.head
    case BranchMoved => e.next.branch != e.previous.branch
    case Rebased => e.next.base != e.previous.base
  }

  /** Adjacent events agree on previous and next values, the first starting at `start`. */
  predicate Chained(start: Lineage, events: seq<LineageEvent>) {
    && (events != [] ==> events[0].previous == start)
    && (forall i :: 0 < i < |events| ==> events[i].previous == events[i - 1].next)
    && (forall i :: 0 <= i < |events| ==> Truthful(events[i]))
    && (forall i :: 0 < i < |events| ==> events[i - 1].occurredAt <= events[i].occurredAt)
  }

  function AmendedScopes(amendments: seq<ScopeAmendment>): multiset<string> {
    if amendments == [] then multiset{}
    else AmendedScopes(amendments[..|amendments| - 1]) + multiset(amendments[|amendments| - 1].added)
  }

  /** Recorded events and current Git context of a Change Set planned at `start` agree. */
  ghost predicate LineageOk(c: ChangeSet, start: Lineage) {
    && Chained(start, c.lineage)
    && Replay(start, c.lineage) == c.at
    && (c.lineage != [] ==> c.lineage[|c.lineage| - 1].next == c.at && c.lineage[|c.lineage| - 1].occurredAt <= c.updatedAt)
    && (c.lineage == [] ==> c.at == start)
  }

  /** The declared scopes are the `initial` ones and the amendments, none of them twice. */
  ghost predicate ScopesOk(c: ChangeSet, initial: seq<string>) {
    && multiset(c.scopes) == multiset(initial) + AmendedScopes(c.amendments)
    && (forall s :: multiset(c.scopes)[s] <= 1)
  }

  lemma UniqueMultiplicity(s: seq<string>, x: string)
    requires NoDuplicates(s)
    ensures multiset(s)[x] <= 1
  {
    if s != [] {
      assert s == [s[0]] + s[1..];
      UniqueMultiplicity(s[1..], x);
      if x == s[0] {
        assert x !in s[1..];
      }
    }
  }

  lemma ChainedAppend(start: Lineage, events: seq<LineageEvent>, e: LineageEvent)
    requires Chained(start, events) && Truthful(e)
    requires e.previous == (if events == [] then start else events[|events| - 1].next)
    requires events != [] ==> events[|events| - 1].occurredAt <= e.occurredAt
    ensures Chained(start, events + [e])
    ensures Replay(start, events + [e]) == ApplyEvent(Replay(start, events), e)
  {
    var all := events + [e];
    assert all[..|all| - 1] == events;
    forall i | 0 < i < |all|
      ensures all[i].previous == all[i - 1].next
    {
      assert all[i - 1] == events[i - 1];
    }
  }

  /** Which of its arguments a lineage operation of each kind passes on. */
  predicate KindArguments(kind: LineageKind, base: string, branch: string) {
    && (kind == Activated || kind == HeadAdvanced ==> base == "" && branch == "")
    && (kind == BranchMoved ==> base == "")
    && (kind == Rebased ==> branch == "")
  }

  lemma RecordLineageKeeps(c: ChangeSet, kind: LineageKind, base: string, head: string, branch: string,
                           state: ChangeSetState, at: Time, start: Lineage)
    requires LineageOk(c, start) && KindArguments(kind, base, branch)
    ensures var r := RecordLineage(c, kind, base, head, branch, state, at);
            r.Ok? ==> LineageOk(r.value, start)
  {
    var r := RecordLineage(c, kind, base, head, branch, state, at);
    if r.Ok? {
      ChainedAppend(start, c.lineage, LineageEvent(kind, at, c.at, r.value.at));
    }
  }

  lemma AmendScopeKeeps(c: ChangeSet, added: seq<string>, reason: string, at: Time, initial: seq<string>)
    requires ScopesOk(c, initial)
    ensures var r := AmendScope(c, added, reason, at); r.Ok? ==> ScopesOk(r.value, initial)
  {
    var r := AmendScope(c, added, reason, at);
    if r.Ok? {
      var novel := GenuinelyNew(added, c.scopes);
      assert r.value.amendments[..|c.amendments|] == c.amendments;
      assert multiset(r.value.scopes) == multiset(c.scopes) + multiset(novel);
      forall s
        ensures multiset(r.value.scopes)[s] <= 1
      {
        UniqueMultiplicity(novel, s);
        assert s in c.scopes <==> s in multiset(c.scopes);
        assert s in novel <==> s in multiset(novel);
      }
    }
  }

  /** Amending declares exactly the old and the added scopes. */
  lemma AmendWidens(c: ChangeSet, added: seq<string>, reason: string, at: Time, s: string)
    requires AmendScope(c, added, reason, at).Ok?
    ensures s in AmendScope(c, added, reason, at).value.scopes <==> s in c.scopes || s in added
  {
    var all := c.scopes + GenuinelyNew(added, c.scopes);
    InPermutation(all, SortBy(LexLeq, all), s);
  }

  /** An amendment adds at least one scope, and none that was declared before. */
  lemma AmendmentsAreDisjoint(c: ChangeSet, added: seq<string>, reason: string, at: Time)
    requires AmendScope(c, added, reason, at).Ok?
    ensures var d := AmendScope(c, added, reason, at).value;
            && d.amendments[..|d.amendments| - 1] == c.amendments
            && var last := d.amendments[|d.amendments| - 1].added;
               && last != [] && NoDuplicates(last)
               && (forall s :: s in last <==> s in added && s !in c.scopes)
  {
  }

  /** A refresh lands on the observation and records at most two events. */
  lemma FollowLands(c: ChangeSet, seen: Lineage, at: Time)
    requires seen.base != "" && seen.head != "" && seen.branch != ""
    ensures var r := Follow(c, seen, at);
            r.Ok? ==>
              && r.value.at == seen
              && c.lineage <= r.value.lineage
              && |r.value.lineage| <= |c.lineage| + 2
              && r.value == c.(at := r.value.at, lineage := r.value.lineage, updatedAt := r.value.updatedAt)
  {
    var d := if seen.base != c.at.base then Rebase(c, seen.base, seen.head, at) else Ok(c);
    if d.Ok? {
      assert c.lineage <= d.value.lineage;
    }
  }

  lemma FollowKeeps(c: ChangeSet, seen: Lineage, at: Time, start: Lineage)
    requires LineageOk(c, start)
    ensures var r := Follow(c, seen, at); r.Ok? ==> LineageOk(r.value, start)
  {
    if seen.base != c.at.base {
      var d := Rebase(c, seen.base, seen.head, at);
      RecordLineageKeeps(c, Rebased, seen.base, seen.head, "", c.state, at, start);
      if d.Ok? && seen.branch != c.at.branch {
        RecordLineageKeeps(d.value, BranchMoved, "", seen.head, seen.branch, d.value.state, at, start);
      }
    } else if seen.branch != c.at.branch {
      RecordLineageKeeps(c, BranchMoved, "", seen.head, seen.branch, c.state, at, start);
    } else {
      RecordLineageKeeps(c, HeadAdvanced, "", seen.head, "", c.state, at, start);
    }
  }

  /** Exactly when a refresh is refused by the Change Set: something moved that may not move now. */
  lemma FollowAccepts(c: ChangeSet, seen: Lineage, at: Time)
    requires seen.base != "" && seen.head != "" && seen.branch != ""
    ensures Follow(c, seen, at).Ok? <==> seen == c.at || ((c.state == Active || c.state == Review) && c.updatedAt <= at)
  {
  }

  // ----- runs

  datatype BindingOp =
    | RefreshOp(git: Git, baseRevision: string, at: Time)
    | TransitionOp(state: ChangeSetState, at: Time)
    | AmendOp(added: seq<string>, reason: string, at: Time)

  /** Git answers name real commits and branches. */
  predicate GitAnswers(git: Git, revision: string) {
    git.head != "" && git.resolve(revision) != "" && (git.branch.Some? ==> git.branch.value != "")
  }

  function Rebind(b: ChangeBinding, changed: Result<ChangeSet, ChangeSetError>): Result<ChangeBinding, ChangeSetError> {
    match changed
    case Err(e) => Err(e)
    case Ok(c) => MakeBinding(c, b.baseRevision, b.observations)
  }

  /** One workspace operation on the latest binding. */
  function Step(b: ChangeBinding, op: BindingOp): Result<ChangeBinding, ChangeSetError> {
    match op
    case RefreshOp(git, revision, at) => Refresh(b, git, revision, at)
    case TransitionOp(state, at) => Rebind(b, Transition(b.changeSet, state, at))
    case AmendOp(added, reason, at) => Rebind(b, AmendScope(b.changeSet, added, reason, at))
  }

  /** A refused operation leaves the stored binding as it was. */
  function RunBinding(b: ChangeBinding, ops: seq<BindingOp>): ChangeBinding {
    if ops == [] then b
    else
      var before := RunBinding(b, ops[..|ops| - 1]);
      match Step(before, ops[|ops| - 1])
      case Ok(after) => after
      case Err(_) => before
  }

  predicate SoundOp(b: ChangeBinding, op: BindingOp) {
    op.RefreshOp? ==> GitAnswers(op.git, Or(op.baseRevision, b.changeSet.at.base))
  }

  predicate SoundOps(b: ChangeBinding, ops: seq<BindingOp>) {
    forall i :: 0 <= i < |ops| ==> SoundOp(RunBinding(b, ops[..i]), ops[i])
  }

  ghost predicate BindingInv(b: ChangeBinding, start: Lineage, initial: seq<string>) {
    && LineageOk(b.changeSet, start)
    && ScopesOk(b.changeSet, initial)
    && BindingAccepted(b)
    && OrdinalsCount(b)
  }

  ghost predicate OrdinalsCount(b: ChangeBinding) {
    forall i :: 0 <= i < |b.observations| ==> b.observations[i].ordinal == i + 1
  }

  /** `after` continues the history of `before`. */
  ghost predicate Continues(before: ChangeBinding, after: ChangeBinding) {
    && before.changeSet.lineage <= after.changeSet.lineage
    && before.changeSet.amendments <= after.changeSet.amendments
    && |after.changeSet.lineage| <= |before.changeSet.lineage| + 2
    && after.changeSet.repositoryId == before.changeSet.repositoryId
  }

  lemma RefreshKeeps(b: ChangeBinding, git: Git, revision: string, at: Time, start: Lineage, initial: seq<string>)
    requires BindingInv(b, start, initial) && GitAnswers(git, Or(revision, b.changeSet.at.base))
    ensures var r := Refresh(b, git, revision, at);
            r.Ok? ==> BindingInv(r.value, start, initial) && Continues(b, r.value)
  {
    var o := Observe(b.changeSet, git, Or(revision, b.baseRevision), Or(revision, b.changeSet.at.base),
                     |b.observations| + 1, at);
    if o.Ok? {
      FollowLands(b.changeSet, o.value.seen, at);
      FollowKeeps(b.changeSet, o.value.seen, at, start);
    }
  }

  lemma TransitionKeeps(b: ChangeBinding, state: ChangeSetState, at: Time, start: Lineage, initial: seq<string>)
    requires BindingInv(b, start, initial)
    ensures var r := Step(b, TransitionOp(state, at));
            r.Ok? ==> BindingInv(r.value, start, initial) && Continues(b, r.value)
  {
    var t := Transition(b.changeSet, state, at);
    if t.Ok? {
      assert t.value == b.changeSet.(state := state, updatedAt := at);
    }
  }

  lemma RebindKeeps(b: ChangeBinding, c: ChangeSet, start: Lineage, initial: seq<string>)
    requires BindingInv(b, start, initial) && LineageOk(c, start) && ScopesOk(c, initial)
    requires c.repositoryId == b.changeSet.repositoryId && c.lineage == b.changeSet.lineage
    requires b.changeSet.amendments <= c.amendments
    ensures var r := MakeBinding(c, b.baseRevision, b.observations);
            r.Ok? ==> BindingInv(r.value, start, initial) && Continues(b, r.value)
  {
  }

  lemma AmendFrame(c: ChangeSet, added: seq<string>, reason: string, at: Time, start: Lineage)
    requires AmendScope(c, added, reason, at).Ok? && LineageOk(c, start)
    ensures var d := AmendScope(c, added, reason, at).value;
            && LineageOk(d, start) && d.lineage == c.lineage
            && d.repositoryId == c.repositoryId && c.amendments <= d.amendments
  {
  }

  lemma AmendKeeps(b: ChangeBinding, added: seq<string>, reason: string, at: Time, start: Lineage, initial: seq<string>)
    requires BindingInv(b, start, initial)
    ensures var r := Step(b, AmendOp(added, reason, at));
            r.Ok? ==> BindingInv(r.value, start, initial) && Continues(b, r.value)
  {
    var t := AmendScope(b.changeSet, added, reason, at);
    if t.Ok? {
      AmendFrame(b.changeSet, added, reason, at, start);
      AmendScopeKeeps(b.changeSet, added, reason, at, initial);
      RebindKeeps(b, t.value, start, initial);
    }
  }

  lemma StepKeeps(b: ChangeBinding, op: BindingOp, start: Lineage, initial: seq<string>)
    requires BindingInv(b, start, initial) && SoundOp(b, op)
    ensures var r := Step(b, op);
            r.Ok? ==> BindingInv(r.value, start, initial) && Continues(b, r.value)
  {
    match op
    case RefreshOp(git, revision, at) => RefreshKeeps(b, git, revision, at, start, initial);
    case TransitionOp(state, at) => TransitionKeeps(b, state, at, start, initial);
    case AmendOp(added, reason, at) => AmendKeeps(b, added, reason, at, start, initial);
  }

  lemma {:induction false} RunKeeps(b: ChangeBinding, ops: seq<BindingOp>, start: Lineage, initial: seq<string>)
    requires BindingInv(b, start, initial) && SoundOps(b, ops)
    ensures BindingInv(RunBinding(b, ops), start, initial)
    ensures b.changeSet.lineage <= RunBinding(b, ops).changeSet.lineage
  {
    if ops != [] {
      var shorter := ops[..|ops| - 1];
      forall i | 0 <= i < |shorter|
        ensures SoundOp(RunBinding(b, shorter[..i]), shorter[i])
      {
        assert shorter[..i] == ops[..i];
      }
      RunKeeps(b, shorter, start, initial);
      StepKeeps(RunBinding(b, shorter), ops[|ops| - 1], start, initial);
    }
  }

  lemma CreateKeeps(planned: ChangeSet, git: Git, revision: string, at: Time)
    requires planned.lineage == [] && planned.amendments == [] && planned.at.head == planned.at.base
    requires NoDuplicates(planned.scopes)
    requires Create(planned, git, revision, at).Ok?
    ensures BindingInv(Create(planned, git, revision, at).value, planned.at, planned.scopes)
    ensures Create(planned, git, revision, at).value.changeSet.lineage ==
            [LineageEvent(Activated, at, planned.at, planned.at.(head := Or(git.head, planned.at.head)))]
    ensures Create(planned, git, revision, at).value.changeSet.repositoryId == planned.repositoryId
  {
    forall s
      ensures multiset(planned.scopes)[s] <= 1
    {
      UniqueMultiplicity(planned.scopes, s);
    }
    RecordLineageKeeps(planned, Activated, "", git.head, "", Active, at, planned.at);
  }

  /**
   * Over every run of plan, create, refresh, transition and amend: replaying the events by
   * kind from the planned base gives the current base, head and branch, the events chain
   * without gap, and the declared scopes are the initial ones plus the disjoint amendments.
   */
  lemma LineageReplay(planned: ChangeSet, git: Git, revision: string, at: Time, ops: seq<BindingOp>)
    requires Plan(planned.id, planned.goal, planned.repositoryId, planned.at.base, planned.at.branch,
                  planned.worktree, planned.scopes, planned.createdAt) == Ok(planned)
    requires Create(planned, git, revision, at).Ok?
    requires SoundOps(Create(planned, git, revision, at).value, ops)
    ensures var c := RunBinding(Create(planned, git, revision, at).value, ops).changeSet;
            && Replay(Lineage(planned.at.base, planned.at.base, planned.at.branch), c.lineage) == c.at
            && Chained(Lineage(planned.at.base, planned.at.base, planned.at.branch), c.lineage)
            && c.lineage != [] && c.lineage[0].kind == Activated
            && multiset(c.scopes) == multiset(planned.scopes) + AmendedScopes(c.amendments)
            && NoDuplicates(c.scopes)
            && c.repositoryId == planned.repositoryId
  {
    var b := Create(planned, git, revision, at).value;
    CreateKeeps(planned, git, revision, at);
    RunLineage(b, ops, planned.at, planned.scopes);
  }

  lemma RunLineage(b: ChangeBinding, ops: seq<BindingOp>, start: Lineage, initial: seq<string>)
    requires BindingInv(b, start, initial) && SoundOps(b, ops)
    requires b.changeSet.lineage != [] && b.changeSet.lineage[0].kind == Activated
    ensures var c := RunBinding(b, ops).changeSet;
            && LineageOk(c, start) && ScopesOk(c, initial) && NoDuplicates(c.scopes)
            && c.lineage != [] && c.lineage[0].kind == Activated
            && c.repositoryId == b.changeSet.repositoryId
  {
    RunKeeps(b, ops, start, initial);
    RunRepository(b, ops);
    SingleOccurrence(RunBinding(b, ops).changeSet.scopes);
  }

  lemma {:induction false} RunRepository(b: ChangeBinding, ops: seq<BindingOp>)
    ensures RunBinding(b, ops).changeSet.repositoryId == b.changeSet.repositoryId
  {
    if ops != [] {
      RunRepository(b, ops[..|ops| - 1]);
    }
  }

  /** After a refresh the binding describes exactly what was observed. */
  lemma RefreshObserves(b: ChangeBinding, git: Git, baseRevision: string, at: Time)
    requires BindingAccepted(b)
    requires OrdinalsCount(b)
    requires GitAnswers(git, Or(baseRevision, b.changeSet.at.base))
    ensures var seen := Lineage(git.resolve(Or(baseRevision, b.changeSet.at.base)), git.head,
                                if git.branch.Some? then git.branch.value else "");
            && (Refresh(b, git, baseRevision, at).Ok? <==>
                  && git.repositoryId == b.changeSet.repositoryId && git.worktree == Some(b.changeSet.worktree) && git.branch.Some?
                  && b.observations[|b.observations| - 1].observedAt <= at
                  && (seen == b.changeSet.at
                      || ((b.changeSet.state == Active || b.changeSet.state == Review) && b.changeSet.updatedAt <= at)))
            && (Refresh(b, git, baseRevision, at).Ok? ==> Refresh(b, git, baseRevision, at).value.changeSet.at == seen)
  {
    var c := b.changeSet;
    if ContextMatches(c, git) {
      var seen := Lineage(git.resolve(Or(baseRevision, c.at.base)), git.head, git.branch.value);
      FollowAccepts(c, seen, at);
      var o := Observation(|b.observations| + 1, git.repositoryId, Or(baseRevision, b.baseRevision), seen,
                           git.worktree.value, at);
      var f := Follow(c, seen, at);
      if f.Ok? {
        var made := ChangeBinding(f.value, o.baseRevision, b.observations + [o]);
        assert made.observations[|b.observations|] == o;
        assert f.value.at == seen;
        if b.observations[|b.observations| - 1].observedAt <= at {
          assert BindingAccepted(made);
        } else {
          assert made.observations[|b.observations| - 1].observedAt > made.observations[|b.observations|].observedAt;
        }
      }
    }
  }

  // ----- states over runs

  /** The state changes there are, apart from activation. */
  predicate MayFollow(before: ChangeSetState, after: ChangeSetState) {
    || (after == Review && before == Active)
    || (after == Active && before == Review)
    || (after == Merged && before == Review)
    || (after == Closed && before == Merged)
    || (after == Abandoned && (before == Planned || before == Active || before == Review))
  }

  /**
   * Exactly when a change of state is accepted, and exactly what it leaves: the state asked for, its
   * time, and nothing else.
   */
  lemma StateChangesIff(b: ChangeBinding, state: ChangeSetState, at: Time)
    requires BindingAccepted(b)
    ensures Step(b, TransitionOp(state, at)).Ok? <==>
            && b.changeSet.updatedAt <= at
            && (|| (state == Review && b.changeSet.state == Active)
                || (state == Active && b.changeSet.state == Review)
                || (state == Merged && b.changeSet.state == Review)
                || (state == Closed && b.changeSet.state == Merged)
                || (state == Abandoned && (b.changeSet.state == Planned || b.changeSet.state == Active || b.changeSet.state == Review)))
    ensures Step(b, TransitionOp(state, at)).Ok? ==>
              Step(b, TransitionOp(state, at)).value == b.(changeSet := b.changeSet.(state := state, updatedAt := at))
  {
  }

  /** A created binding is of an active Change Set: the planned one at the observed head. */
  lemma CreatedIsActive(planned: ChangeSet, git: Git, revision: string, at: Time)
    ensures Create(planned, git, revision, at).Ok? ==>
              && planned.state == Planned && planned.updatedAt <= at
              && git.repositoryId == planned.repositoryId && git.worktree == Some(planned.worktree) && git.branch == Some(planned.at.branch)
              && git.resolve(revision) == planned.at.base
              && var c := Create(planned, git, revision, at).value.changeSet;
                 && c.state == Active && c.updatedAt == at
                 && c == planned.(state := Active, updatedAt := at, at := c.at, lineage := c.lineage)
                 && (git.head != "" ==> c.at == planned.at.(head := git.head))
  {
  }

  /** A refresh or an amendment never changes the state, and touches nothing while it is not active or in review. */
  lemma OthersKeepState(b: ChangeBinding, op: BindingOp)
    requires !op.TransitionOp? && Step(b, op).Ok?
    ensures Step(b, op).value.changeSet.state == b.changeSet.state
    ensures b.changeSet.state != Active && b.changeSet.state != Review ==> Step(b, op).value.changeSet == b.changeSet
  {
  }

  /** An amendment is accepted exactly for new scopes of a Change Set at work, and records them, its reason and its time. */
  lemma AmendAcceptsIff(c: ChangeSet, added: seq<string>, reason: string, at: Time)
    ensures AmendScope(c, added, reason, at).Ok? <==>
            && (c.state == Active || c.state == Review) && c.updatedAt <= at
            && NoDuplicates(added) && exists s :: s in added && s !in c.scopes
    ensures AmendScope(c, added, reason, at).Ok? ==>
              var d := AmendScope(c, added, reason, at).value;
              && d.amendments != [] && d.amendments[|d.amendments| - 1].reason == reason && d.amendments[|d.amendments| - 1].occurredAt == at
              && d == c.(scopes := d.scopes, updatedAt := at, amendments := d.amendments)
  {
    var novel := GenuinelyNew(added, c.scopes);
    if s :| s in added && s !in c.scopes {
      assert s in novel;
    }
    if novel != [] {
      assert novel[0] in novel;
    }
  }

  function StateOf(b: ChangeBinding, ops: seq<BindingOp>): ChangeSetState {
    RunBinding(b, ops).changeSet.state
  }

  lemma RunNext(b: ChangeBinding, ops: seq<BindingOp>)
    requires ops != []
    ensures var before := RunBinding(b, ops[..|ops| - 1]);
            RunBinding(b, ops) == match Step(before, ops[|ops| - 1]) case Ok(after) => after case Err(_) => before
  {
  }

  lemma {:induction false} RunStaysAccepted(b: ChangeBinding, ops: seq<BindingOp>)
    requires BindingAccepted(b)
    ensures BindingAccepted(RunBinding(b, ops))
  {
    if ops != [] {
      RunStaysAccepted(b, ops[..|ops| - 1]);
    }
  }

  lemma OneStepState(b: ChangeBinding, op: BindingOp)
    requires BindingAccepted(b) && Step(b, op).Ok?
    ensures Step(b, op).value.changeSet.state != b.changeSet.state ==> MayFollow(b.changeSet.state, Step(b, op).value.changeSet.state)
  {
    hide Step, BindingAccepted;
    if op.TransitionOp? {
      StateChangesIff(b, op.state, op.at);
    } else {
      OthersKeepState(b, op);
    }
  }

  /** Some prefix of the run is in `state`. */
  ghost predicate Was(b: ChangeBinding, ops: seq<BindingOp>, state: ChangeSetState) {
    exists m :: 0 <= m <= |ops| && StateOf(b, ops[..m]) == state
  }

  lemma WasBefore(b: ChangeBinding, ops: seq<BindingOp>, n: nat, state: ChangeSetState)
    requires n <= |ops| && Was(b, ops[..n], state)
    ensures Was(b, ops, state)
  {
    hide StateOf;
    var m :| 0 <= m <= n && StateOf(b, ops[..n][..m]) == state;
    assert ops[..n][..m] == ops[..m];
  }

  /**
   * Over every run: a Change Set is merged or closed only after a prefix in which it was in review, and
   * closed only after one in which it was merged.
   */
  lemma {:induction false} MergedOnlyAfterReview(b: ChangeBinding, ops: seq<BindingOp>)
    requires BindingAccepted(b) && b.changeSet.state != Merged && b.changeSet.state != Closed
    ensures StateOf(b, ops) == Merged || StateOf(b, ops) == Closed ==> Was(b, ops, Review)
    ensures StateOf(b, ops) == Closed ==> Was(b, ops, Merged)
  {
    if ops != [] {
      var n := |ops| - 1;
      var before := RunBinding(b, ops[..n]);
      MergedOnlyAfterReview(b, ops[..n]);
      RunStaysAccepted(b, ops[..n]);
      RunNext(b, ops);
      if Step(before, ops[n]).Ok? {
        OneStepState(before, ops[n]);
      }
      hide Step, BindingAccepted, RunBinding, Was;
      if Was(b, ops[..n], Review) {
        WasBefore(b, ops, n, Review);
      }
      if Was(b, ops[..n], Merged) {
        WasBefore(b, ops, n, Merged);
      }
      IsPrefixState(b, ops, n);
    }
  }

  lemma IsPrefixState(b: ChangeBinding, ops: seq<BindingOp>, n: nat)
    requires n <= |ops|
    ensures Was(b, ops, StateOf(b, ops[..n]))
  {
  }

  /** What a settled Change Set may still become: itself, or closed once it is merged. */
  ghost predicate Settles(before: ChangeSet, after: ChangeSet) {
    || after == before
    || (before.state == Merged && after == before.(state := Closed, updatedAt := after.updatedAt))
  }

  lemma StepSettles(b: ChangeBinding, op: BindingOp)
    requires BindingAccepted(b) && Step(b, op).Ok?
    requires b.changeSet.state == Merged || b.changeSet.state == Closed || b.changeSet.state == Abandoned
    ensures Settles(b.changeSet, Step(b, op).value.changeSet)
  {
    hide Step, BindingAccepted;
    if op.TransitionOp? {
      StateChangesIff(b, op.state, op.at);
    } else {
      OthersKeepState(b, op);
    }
  }

  /**
   * Over every run: a closed or abandoned Change Set never changes again, and of a merged one nothing
   * changes but that it may be closed: its base, head, branch and scopes are final.
   */
  lemma {:induction false} SettledForever(b: ChangeBinding, ops: seq<BindingOp>, m: nat)
    requires BindingAccepted(b) && m <= |ops|
    requires StateOf(b, ops[..m]) == Merged || StateOf(b, ops[..m]) == Closed || StateOf(b, ops[..m]) == Abandoned
    ensures Settles(RunBinding(b, ops[..m]).changeSet, RunBinding(b, ops).changeSet)
  {
    if m == |ops| {
      assert ops[..m] == ops;
    } else {
      var n := |ops| - 1;
      assert ops[..n][..m] == ops[..m];
      SettledForever(b, ops[..n], m);
      RunStaysAccepted(b, ops[..n]);
      RunNext(b, ops);
      var before := RunBinding(b, ops[..n]);
      if Step(before, ops[n]).Ok? {
        StepSettles(before, ops[n]);
      }
    }
  }

  /** From its creation on: active first, merged only after review. */
  lemma CreatedRuns(planned: ChangeSet, git: Git, revision: string, at: Time, ops: seq<BindingOp>)
    requires Create(planned, git, revision, at).Ok?
    ensures var b := Create(planned, git, revision, at).value;
            && StateOf(b, []) == Active
            && (StateOf(b, ops) == Merged || StateOf(b, ops) == Closed ==> Was(b, ops, Review))
  {
    CreatedIsActive(planned, git, revision, at);
    var b := Create(planned, git, revision, at).value;
    assert BindingAccepted(b);
    MergedOnlyAfterReview(b, ops);
  }
}
