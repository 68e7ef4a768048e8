/**
 * What a ledger holds of an imported plan, said of the plan's own tasks and of the stored ones
 * (application/plan_import.py).
 */
module PlanContents {
  import opened Common
  import opened Sorting
  import opened Records
  import opened Chain
  import opened Graphs
  import opened GraphSearch
  import opened TaskIntents
  import opened SourcePlans
  import Tasks

  /** Some task of this slug is not done in the source. */
  ghost predicate IsOpen(s: Snapshot, slug: Id) {
    exists i :: 0 <= i < |s.tasks| && s.tasks[i].slug == slug && s.tasks[i].status != "done"
  }

  /** The source task an import takes for its slug: the last that is not done. */
  ghost predicate IsTaken(s: Snapshot, i: int) {
    && 0 <= i < |s.tasks| && s.tasks[i].status != "done"
    && forall j :: i < j < |s.tasks| && s.tasks[j].slug == s.tasks[i].slug ==> s.tasks[j].status == "done"
  }

  /** The stored task asks for what the source task asks for. */
  predicate Stores(t: Task, p: PlanTask) {
    && t.id == p.slug && t.intent.title == p.title && t.intent.why == p.purpose && t.intent.what == p.what
    && t.intent.roiNote == None && t.priority == p.priority && multiset(t.scopes) == multiset(p.scopes)
  }

  /** The dependency of task number `i` on `d` is to be imported. */
  ghost predicate Depends(s: Snapshot, i: int, d: Id) {
    0 <= i < |s.tasks| && d in s.tasks[i].dependencies && IsOpen(s, s.tasks[i].slug) && IsOpen(s, d)
  }

  /** The conflict of task number `i` with `c` is to be imported. */
  ghost predicate Clashes(s: Snapshot, i: int, c: Id) {
    0 <= i < |s.tasks| && c in s.tasks[i].conflicts && IsOpen(s, s.tasks[i].slug) && IsOpen(s, c)
  }

  /** The key of the conflict between two tasks: the ids in order. */
  predicate Orders(k: Entity, a: Id, b: Id) {
    k == (if LexLeq(a, b) then Pair(a, b) else Pair(b, a))
  }

  predicate HasReason(p: Payload) {
    p.ConflictPayload? && p.conflict.reason == "reviewed source-plan semantic conflict"
  }

  predicate StoresTask(tasks: Tasks.TaskMap, p: PlanTask) {
    p.slug in tasks && Stores(tasks[p.slug], p)
  }

  ghost predicate StoresConflict(conflicts: Tasks.RelationMap, a: Id, b: Id) {
    exists k :: k in conflicts && Orders(k, a, b) && HasReason(conflicts[k])
  }

  /** Each task, dependency and conflict of the plan is stored. */
  ghost predicate StoresPlan(s: Snapshot, log: seq<Entry>) {
    && Tasks.LatestTasks(log).Some? && Tasks.Dependencies(log).Some? && Tasks.Conflicts(log).Some?
    && (forall i :: IsTaken(s, i) ==> StoresTask(Tasks.LatestTasks(log).value, s.tasks[i]))
    && (forall i, d :: Depends(s, i, d) ==> Pair(s.tasks[i].slug, d) in Tasks.Dependencies(log).value)
    && (forall i, c :: Clashes(s, i, c) ==> StoresConflict(Tasks.Conflicts(log).value, s.tasks[i].slug, c))
  }

  /** What is stored is a task, a dependency or a conflict of the plan. */
  ghost predicate StoresOnly(s: Snapshot, log: seq<Entry>) {
    && Tasks.LatestTasks(log).Some? && Tasks.Dependencies(log).Some? && Tasks.Conflicts(log).Some?
    && (forall id :: id in Tasks.LatestTasks(log).value ==>
          IsTask(s, id, Tasks.LatestTasks(log).value[id]))
    && (forall k :: k in Tasks.Dependencies(log).value ==> IsDependency(s, k))
    && (forall k :: k in Tasks.Conflicts(log).value ==> IsConflict(s, k) && HasReason(Tasks.Conflicts(log).value[k]))
  }

  ghost predicate IsTask(s: Snapshot, id: Id, t: Task) {
    exists i :: IsTaken(s, i) && s.tasks[i].slug == id && Stores(t, s.tasks[i])
  }

  ghost predicate IsDependency(s: Snapshot, k: Entity) {
    k.Pair? && exists i :: Depends(s, i, k.second) && s.tasks[i].slug == k.first
  }

  ghost predicate IsConflict(s: Snapshot, k: Entity) {
    exists i, c :: Clashes(s, i, c) && Orders(k, s.tasks[i].slug, c)
  }

  lemma OpenIsActionable(s: Snapshot, slug: Id)
    ensures IsOpen(s, slug) <==> slug in Actionable(s)
  {
  }

  lemma {:induction false} TakenIs(tasks: seq<PlanTask>, slug: Id) returns (i: nat)
    requires exists k :: 0 <= k < |tasks| && tasks[k].status != "done" && tasks[k].slug == slug
    ensures i < |tasks| && tasks[i] == TaskFor(tasks, slug)
    ensures forall j :: i < j < |tasks| && tasks[j].slug == slug ==> tasks[j].status == "done"
  {
    var n := |tasks| - 1;
    if tasks[n].status != "done" && tasks[n].slug == slug {
      i := n;
    } else {
      assert forall k :: 0 <= k < n ==> tasks[..n][k] == tasks[k];
      i := TakenIs(tasks[..n], slug);
    }
  }

  /** The intent of a source task, stored in any order of its scopes and at any time. */
  lemma IntendedStores(s: Snapshot, slug: Id, t: Task) returns (i: nat)
    requires IsIntended(s, slug, t)
    ensures IsTaken(s, i) && s.tasks[i].slug == slug && Stores(t, s.tasks[i])
  {
    i := TakenIs(s.tasks, slug);
    SortedAlike(t.scopes, s.tasks[i].scopes);
  }

  lemma IntendedIsTask(s: Snapshot, slug: Id, t: Task)
    requires IsIntended(s, slug, t)
    ensures IsTask(s, slug, t)
  {
    hide Stores;
    var i := IntendedStores(s, slug, t);
  }

  /** Sorted texts tell apart what multisets tell apart. */
  lemma SortedAlike(a: seq<string>, b: seq<string>)
    ensures SortBy(LexLeq, a) == SortBy(LexLeq, b) <==> multiset(a) == multiset(b)
  {
    var s, t := SortBy(LexLeq, a), SortBy(LexLeq, b);
    if multiset(a) == multiset(b) {
      LexIsTotalPreorder();
      SortByOrders(LexLeq, a);
      SortByOrders(LexLeq, b);
      OrderedOnce(s, t);
    } else {
      assert multiset(s) != multiset(t);
    }
  }

  lemma {:induction false} OrderedOnce(s: seq<string>, t: seq<string>)
    requires Ordered(LexLeq, s) && Ordered(LexLeq, t) && multiset(s) == multiset(t)
    ensures s == t
  {
    hide LexLeq, Ordered;
    assert |s| == |multiset(s)| == |multiset(t)| == |t|;
    if s != [] {
      InPermutation(s, t, s[0]);
      InPermutation(s, t, t[0]);
      FirstIsLeast(s, t[0]);
      FirstIsLeast(t, s[0]);
      LexAntisymmetric(s[0], t[0]);
      RestOrdered(s);
      RestOrdered(t);
      OrderedOnce(s[1..], t[1..]);
    }
  }

  lemma RestOrdered(s: seq<string>)
    requires Ordered(LexLeq, s) && s != []
    ensures Ordered(LexLeq, s[1..]) && s == [s[0]] + s[1..] && multiset(s[1..]) == multiset(s) - multiset{s[0]}
  {
    hide LexLeq;
    assert s == [s[0]] + s[1..];
  }

  lemma FirstIsLeast(s: seq<string>, x: string)
    requires Ordered(LexLeq, s) && x in s
    ensures LexLeq(s[0], x)
  {
    LexIsTotalPreorder();
  }

  /** The intent of a plan's task is stored exactly when its fields are. */
  lemma IntendedIff(s: Snapshot, i: nat, t: Task, at: Time)
    requires IsTaken(s, i)
    ensures s.tasks[i].slug in Actionable(s)
    ensures Stores(t, s.tasks[i]) <==> SameIntent(t, Expected(s, s.tasks[i].slug, at))
  {
    var j := TakenIs(s.tasks, s.tasks[i].slug);
    TakenOnce(s, i, j);
    SortedAlike(t.scopes, s.tasks[i].scopes);
  }

  lemma TakenOnce(s: Snapshot, i: nat, j: nat)
    requires IsTaken(s, i) && IsTaken(s, j) && s.tasks[i].slug == s.tasks[j].slug
    ensures i == j
  {
  }

  lemma TakenTasksAre(s: Snapshot, log: seq<Entry>, i: nat)
    requires Contains(s, log) && IsTaken(s, i)
    ensures Tasks.LatestTasks(log).Some? && StoresTask(Tasks.LatestTasks(log).value, s.tasks[i])
  {
    hide NativeEdges, NativeConflicts, HasEdge, HasConflict, Tasks.LatestTasks, IsIntended, Stores;
    var slug := s.tasks[i].slug;
    assert HasTask(s, log, slug);
    var j := IntendedStores(s, slug, Tasks.LatestTasks(log).value[slug]);
    TakenOnce(s, i, j);
  }

  /** What an import has finished is every task of the plan with its own fields, and every relation. */
  lemma ContainedIsStored(s: Snapshot, log: seq<Entry>)
    requires Contains(s, log) && Tasks.PlanOk(log)
    ensures StoresPlan(s, log)
  {
    hide Actionable, HasTask, Tasks.LatestTasks, Tasks.Relations, StoresTask, Acyclic;
    forall i | IsTaken(s, i)
      ensures StoresTask(Tasks.LatestTasks(log).value, s.tasks[i])
    {
      TakenTasksAre(s, log, i);
    }
    forall i, d | Depends(s, i, d)
      ensures Pair(s.tasks[i].slug, d) in Tasks.Dependencies(log).value
    {
      OpenIsActionable(s, s.tasks[i].slug);
      OpenIsActionable(s, d);
      assert HasEdge(log, (s.tasks[i].slug, d));
    }
    forall i, c | Clashes(s, i, c)
      ensures StoresConflict(Tasks.Conflicts(log).value, s.tasks[i].slug, c)
    {
      OpenIsActionable(s, s.tasks[i].slug);
      OpenIsActionable(s, c);
      var e := Tasks.Between(s.tasks[i].slug, c);
      assert e in NativeConflicts(s);
      assert HasConflict(log, e);
      assert Orders(Pair(e.0, e.1), s.tasks[i].slug, c) && HasReason(Tasks.Conflicts(log).value[Pair(e.0, e.1)]);
    }
  }

  /** What other importers of the plan and this one have stored comes from the plan. */
  lemma WithinIsStored(s: Snapshot, log: seq<Entry>)
    requires Within(s, log)
    ensures StoresOnly(s, log)
  {
    hide Actionable, Tasks.LatestTasks, Tasks.Relations, IsTask, IsIntended, Acyclic, IsDependency, IsConflict, HasReason;
    forall id | id in Tasks.LatestTasks(log).value
      ensures IsTask(s, id, Tasks.LatestTasks(log).value[id])
    {
      IntendedIsTask(s, id, Tasks.LatestTasks(log).value[id]);
    }
    forall k | k in Tasks.Dependencies(log).value
      ensures IsDependency(s, k)
    {
      NativeIsDependency(s, k);
    }
    forall k | k in Tasks.Conflicts(log).value
      ensures IsConflict(s, k) && HasReason(Tasks.Conflicts(log).value[k])
    {
      NativeIsConflict(s, k);
      ReviewedHasReason(Tasks.Conflicts(log).value[k]);
    }
  }

  lemma ReviewedHasReason(p: Payload)
    ensures IsReviewedConflict(p) <==> HasReason(p)
  {
  }

  lemma NativeIsDependency(s: Snapshot, k: Entity)
    requires k.Pair?
    ensures (k.first, k.second) in NativeEdges(s) <==> IsDependency(s, k)
  {
    OpenIsActionable(s, k.first);
    OpenIsActionable(s, k.second);
    hide IsOpen, Actionable;
    if (k.first, k.second) in NativeEdges(s) {
      var i :| 0 <= i < |s.tasks| && s.tasks[i].slug == k.first && k.second in s.tasks[i].dependencies;
      assert Depends(s, i, k.second);
    }
  }

  lemma NativeIsConflict(s: Snapshot, k: Entity)
    requires k.Pair?
    ensures (k.first, k.second) in NativeConflicts(s) <==> IsConflict(s, k)
  {
    hide Actionable, IsOpen;
    if (k.first, k.second) in NativeConflicts(s) {
      NativeClashes(s, k);
    }
    if i, c :| Clashes(s, i, c) && Orders(k, s.tasks[i].slug, c) {
      OpenIsActionable(s, s.tasks[i].slug);
      OpenIsActionable(s, c);
      assert Tasks.Between(s.tasks[i].slug, c) in NativeConflicts(s);
    }
  }

  lemma NativeClashes(s: Snapshot, k: Entity)
    requires k.Pair? && (k.first, k.second) in NativeConflicts(s)
    ensures IsConflict(s, k)
  {
    hide IsOpen, Actionable;
    var i, c :| 0 <= i < |s.tasks| && c in s.tasks[i].conflicts && s.tasks[i].slug in Actionable(s) && c in Actionable(s)
                && (k.first, k.second) == Tasks.Between(s.tasks[i].slug, c);
    OpenIsActionable(s, s.tasks[i].slug);
    OpenIsActionable(s, c);
    assert Clashes(s, i, c) && Orders(k, s.tasks[i].slug, c);
  }

  /** A dependency on a task that is done in the source. */
  ghost predicate IsSatisfied(s: Snapshot, e: (Id, Id)) {
    IsOpen(s, e.0) && !IsOpen(s, e.1) && exists i :: 0 <= i < |s.tasks| && s.tasks[i].slug == e.0 && e.1 in s.tasks[i].dependencies
  }

  lemma SatisfiedIs(s: Snapshot, e: (Id, Id))
    ensures e in SatisfiedEdges(s) <==> IsSatisfied(s, e)
  {
    OpenIsActionable(s, e.0);
    OpenIsActionable(s, e.1);
    hide IsOpen, Actionable;
    assert e == (e.0, e.1);
  }

  /** As imported: idea if the source says so, else todo, and nothing has happened to the task since. */
  ghost predicate IsUntouched(s: Snapshot, t: Task) {
    && t.events == [] && t.updatedAt == t.createdAt
    && exists i :: IsTaken(s, i) && s.tasks[i].slug == t.id && t.state == (if s.tasks[i].status == "idea" then Idea else Todo)
  }

  lemma AsCreatedIsUntouched(s: Snapshot, t: Task)
    requires IsAsCreated(s, t)
    ensures IsUntouched(s, t)
  {
    var i := TakenIs(s.tasks, t.id);
    assert IsTaken(s, i);
  }

  ghost predicate AllUntouched(s: Snapshot, log: seq<Entry>) {
    && Tasks.LatestTasks(log).Some?
    && forall id :: id in Tasks.LatestTasks(log).value ==> IsUntouched(s, Tasks.LatestTasks(log).value[id])
  }

  lemma AsCreatedAreUntouched(s: Snapshot, log: seq<Entry>)
    requires AllAsCreated(s, log)
    ensures AllUntouched(s, log)
  {
    hide IsAsCreated, IsUntouched;
    forall id | id in Tasks.LatestTasks(log).value
      ensures IsUntouched(s, Tasks.LatestTasks(log).value[id])
    {
      AsCreatedIsUntouched(s, Tasks.LatestTasks(log).value[id]);
    }
  }

  // ----- a ledger that holds something else

  /** A task of the plan is stored with other fields. */
  ghost predicate HasDifferentTask(s: Snapshot, tasks: Tasks.TaskMap) {
    exists i :: IsTaken(s, i) && s.tasks[i].slug in tasks && !Stores(tasks[s.tasks[i].slug], s.tasks[i])
  }

  /** A conflict of the plan is stored for another reason. */
  ghost predicate HasDifferentReason(s: Snapshot, conflicts: Tasks.RelationMap) {
    exists k | k in conflicts :: k.Pair? && IsConflict(s, k) && !HasReason(conflicts[k])
  }

  lemma DifferentTaskStays(s: Snapshot, a: seq<Entry>, b: seq<Entry>)
    requires Grown(a, b) && HasDifferentTask(s, Tasks.LatestTasks(a).value)
    ensures HasDifferentTask(s, Tasks.LatestTasks(b).value)
  {
    hide Tasks.LatestTasks, Tasks.Relations, IsTaken;
    hide RelationsGrown;
    var i := DifferentTask(s, Tasks.LatestTasks(a).value);
    HasDifferent(s, Tasks.LatestTasks(b).value, i);
  }

  lemma DifferentTask(s: Snapshot, tasks: Tasks.TaskMap) returns (i: nat)
    requires HasDifferentTask(s, tasks)
    ensures IsTaken(s, i) && i < |s.tasks| && s.tasks[i].slug in tasks && !Stores(tasks[s.tasks[i].slug], s.tasks[i])
  {
    i :| IsTaken(s, i) && s.tasks[i].slug in tasks && !Stores(tasks[s.tasks[i].slug], s.tasks[i]);
  }

  lemma HasDifferent(s: Snapshot, tasks: Tasks.TaskMap, i: nat)
    requires IsTaken(s, i) && i < |s.tasks| && s.tasks[i].slug in tasks && !Stores(tasks[s.tasks[i].slug], s.tasks[i])
    ensures HasDifferentTask(s, tasks)
  {
  }

  lemma DifferentReasonStays(s: Snapshot, a: seq<Entry>, b: seq<Entry>)
    requires Grown(a, b) && HasDifferentReason(s, Tasks.Conflicts(a).value)
    ensures HasDifferentReason(s, Tasks.Conflicts(b).value)
  {
    hide Tasks.LatestTasks, Tasks.Relations, IsConflict, HasReason, TasksGrown;
    var k :| k in Tasks.Conflicts(a).value && k.Pair? && IsConflict(s, k) && !HasReason(Tasks.Conflicts(a).value[k]);
    assert k in Tasks.Conflicts(b).value;
  }
}
