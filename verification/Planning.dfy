/** Dependency-aware task selection (application/task_planning.py). */
module Planning {
  import opened Common
  import opened Sorting
  import opened Records
  import opened Chain
  import opened Graphs
  import opened GraphSearch
  import opened TaskIntents
  import opened Tasks
  import LedgerStore

  /** What `list`, `dependencies` and `conflicts` answer on one ledger. */
  datatype Plan = Plan(tasks: TaskMap, dependencies: Edges, conflicts: Edges)

  datatype Reason = NotSelectable(state: TaskState) | DependenciesNotDone(ids: seq<Id>) | ConflictsInProgress(ids: seq<Id>)

  datatype Eligibility = Eligibility(task: Task, eligible: bool, reasons: seq<Reason>)

  datatype Selection = Selection(considered: nat, eligible: nat, tasks: seq<Eligibility>, skipped: seq<Eligibility>)

  datatype PlanningError = MissingTask | BadLimit

  predicate ReferencesExist(p: Plan) {
    && (forall e :: e in p.dependencies ==> e.0 in p.tasks && e.1 in p.tasks)
    && (forall e :: e in p.conflicts ==> e.0 in p.tasks && e.1 in p.tasks)
  }

  function UnmetDependencies(p: Plan, id: Id): set<Id> {
    set e | e in p.dependencies && e.0 == id && e.1 in p.tasks && p.tasks[e.1].state != Done :: e.1
  }

  function ActiveConflicts(p: Plan, id: Id): set<Id> {
    (set e | e in p.conflicts && e.0 == id && e.1 in p.tasks && p.tasks[e.1].state == InProgress :: e.1)
    + (set e | e in p.conflicts && e.1 == id && e.0 in p.tasks && p.tasks[e.0].state == InProgress :: e.0)
  }

  /** A task may start: it is selectable, its dependencies are done, no conflicting task runs. */
  predicate Eligible(p: Plan, id: Id) {
    && id in p.tasks
    && (p.tasks[id].state == Idea || p.tasks[id].state == Todo)
    && UnmetDependencies(p, id) == {}
    && ActiveConflicts(p, id) == {}
  }

  /** The evaluation of one task: every obstacle is listed, and each reason lists exactly its own. */
  ghost predicate Explains(p: Plan, e: Eligibility) {
    && e.task.id in p.tasks && e.task == p.tasks[e.task.id]
    && (e.eligible <==> Eligible(p, e.task.id))
    && (e.eligible <==> e.reasons == [])
    && (e.task.state != Idea && e.task.state != Todo ==> NotSelectable(e.task.state) in e.reasons)
    && (UnmetDependencies(p, e.task.id) != {} ==> exists r :: r in e.reasons && r.DependenciesNotDone?)
    && (ActiveConflicts(p, e.task.id) != {} ==> exists r :: r in e.reasons && r.ConflictsInProgress?)
    && (forall r :: r in e.reasons ==>
          match r
          case NotSelectable(state) => state == e.task.state && state != Idea && state != Todo
          case DependenciesNotDone(ids) => ids != [] && (set x | x in ids) == UnmetDependencies(p, e.task.id)
          case ConflictsInProgress(ids) => ids != [] && (set x | x in ids) == ActiveConflicts(p, e.task.id))
  }

  ghost predicate Consistent(p: Plan) {
    forall id :: id in p.tasks ==> p.tasks[id].id == id
  }

  /** One entry for every task, in order of ids. */
  ghost predicate EvaluationOf(p: Plan, evaluated: seq<Eligibility>, ids: seq<Id>) {
    && |evaluated| == |ids|
    && (forall i :: 0 <= i < |ids| ==> evaluated[i].task.id == ids[i] && Explains(p, evaluated[i]))
  }

  ghost predicate AllIds(p: Plan, ids: seq<Id>) {
    && (forall x :: x in ids <==> x in p.tasks)
    && (forall i, j :: 0 <= i < j < |ids| ==> ids[i] != ids[j])
    && Ordered(LexLeq, ids)
  }

  /** Fills a dictionary from relation pairs, refusing one that names a missing task. */
  method Index(tasks: TaskMap, pairs: Edges) returns (r: Option<Adjacency>)
    ensures r.Some? <==> forall e :: e in pairs ==> e.0 in tasks && e.1 in tasks
    ensures r.Some? ==> EdgesOf(r.value) == pairs
  {
    hide EdgesOf, Neighbours;
    var graph: Adjacency := map[];
    var rest := pairs;
    assert EdgesOf(graph) == {} by { EmptyGraph(); }
    while rest != {}
      invariant rest <= pairs
      invariant EdgesOf(graph) == pairs - rest
      invariant forall e :: e in pairs - rest ==> e.0 in tasks && e.1 in tasks
      decreases |rest|
    {
      var e :| e in rest;
      if e.0 !in tasks || e.1 !in tasks {
        return None;
      }
      EdgeAdded(graph, e.0, e.1);
      graph := graph[e.0 := Neighbours(graph, e.0) + {e.1}];
      rest := rest - {e};
    }
    return Some(graph);
  }

  lemma EmptyGraph()
    ensures EdgesOf(map[]) == {}
  {
  }

  function Reverse(es: Edges): Edges {
    set e | e in es :: (e.1, e.0)
  }

  method EvaluateTask(p: Plan, dependencies: Adjacency, conflicts: Adjacency, opposite: Adjacency, id: Id)
    returns (e: Eligibility)
    requires Consistent(p) && ReferencesExist(p) && id in p.tasks
    requires EdgesOf(dependencies) == p.dependencies
    requires EdgesOf(conflicts) == p.conflicts && EdgesOf(opposite) == Reverse(p.conflicts)
    ensures e.task.id == id && Explains(p, e)
  {
    hide Explains;
    Lookup(p, dependencies, conflicts, opposite, id);
    var task := p.tasks[id];
    var reasons: seq<Reason> := [];
    if task.state != Idea && task.state != Todo {
      reasons := reasons + [NotSelectable(task.state)];
    }
    var unmet := Sorted(set d | d in Neighbours(dependencies, id) && d in p.tasks && p.tasks[d].state != Done);
    if unmet != [] {
      reasons := reasons + [DependenciesNotDone(unmet)];
    }
    var around := Neighbours(conflicts, id) + Neighbours(opposite, id);
    var active := Sorted(set c | c in around && c in p.tasks && p.tasks[c].state == InProgress);
    if active != [] {
      reasons := reasons + [ConflictsInProgress(active)];
    }
    e := Eligibility(task, reasons == [], reasons);
    assert reasons == Reasons(task.state, unmet, active);
    ReasonsExplain(p, id, unmet, active);
  }

  /** One reason for each kind of obstacle there is. */
  function Reasons(state: TaskState, unmet: seq<Id>, active: seq<Id>): seq<Reason> {
    (if state != Idea && state != Todo then [NotSelectable(state)] else [])
    + (if unmet != [] then [DependenciesNotDone(unmet)] else [])
    + (if active != [] then [ConflictsInProgress(active)] else [])
  }

  lemma ReasonsExplain(p: Plan, id: Id, unmet: seq<Id>, active: seq<Id>)
    requires Consistent(p) && id in p.tasks
    requires forall x :: x in unmet <==> x in UnmetDependencies(p, id)
    requires forall x :: x in active <==> x in ActiveConflicts(p, id)
    ensures var rs := Reasons(p.tasks[id].state, unmet, active); Explains(p, Eligibility(p.tasks[id], rs == [], rs))
  {
    hide UnmetDependencies, ActiveConflicts;
    var rs := Reasons(p.tasks[id].state, unmet, active);
    assert (set x | x in unmet) == UnmetDependencies(p, id) && (set x | x in active) == ActiveConflicts(p, id);
    if unmet != [] {
      assert unmet[0] in UnmetDependencies(p, id);
      assert DependenciesNotDone(unmet) in rs;
    } else {
      NothingListed(UnmetDependencies(p, id), unmet);
    }
    if active != [] {
      assert active[0] in ActiveConflicts(p, id);
      assert ConflictsInProgress(active) in rs;
    } else {
      NothingListed(ActiveConflicts(p, id), active);
    }
  }

  lemma NothingListed(s: set<Id>, listed: seq<Id>)
    requires listed == [] && forall x :: x in listed <==> x in s
    ensures s == {}
  {
  }

  lemma Lookup(p: Plan, dependencies: Adjacency, conflicts: Adjacency, opposite: Adjacency, id: Id)
    requires EdgesOf(dependencies) == p.dependencies
    requires EdgesOf(conflicts) == p.conflicts && EdgesOf(opposite) == Reverse(p.conflicts)
    ensures UnmetDependencies(p, id) == set d | d in Neighbours(dependencies, id) && d in p.tasks && p.tasks[d].state != Done
    ensures ActiveConflicts(p, id) ==
            set c | c in Neighbours(conflicts, id) + Neighbours(opposite, id) && c in p.tasks && p.tasks[c].state == InProgress
  {
    forall x
      ensures x in Neighbours(dependencies, id) <==> (id, x) in p.dependencies
      ensures x in Neighbours(conflicts, id) <==> (id, x) in p.conflicts
      ensures x in Neighbours(opposite, id) <==> (x, id) in p.conflicts
    {
      NeighbourIsEdge(dependencies, id, x);
      NeighbourIsEdge(conflicts, id, x);
      NeighbourIsEdge(opposite, id, x);
    }
  }

  /** `_evaluate` */
  method Evaluate(p: Plan) returns (r: Result<seq<Eligibility>, PlanningError>, ghost ids: seq<Id>)
    requires Consistent(p)
    ensures r.Ok? <==> ReferencesExist(p)
    ensures r.Err? ==> r.error == MissingTask
    ensures r.Ok? ==> AllIds(p, ids) && EvaluationOf(p, r.value, ids)
  {
    hide Explains, EdgesOf, EvaluationOf, Ordered;
    ids := [];
    var dependencies := Index(p.tasks, p.dependencies);
    if dependencies.None? {
      return Err(MissingTask), ids;
    }
    var conflicts := Index(p.tasks, p.conflicts);
    if conflicts.None? {
      return Err(MissingTask), ids;
    }
    var opposite := Index(p.tasks, Reverse(p.conflicts));
    var order := Sorted(p.tasks.Keys);
    ids := order;
    var evaluated: seq<Eligibility> := [];
    NothingEvaluated(p);
    assert order[..0] == [];
    while |evaluated| < |order|
      invariant |evaluated| <= |order|
      invariant EvaluationOf(p, evaluated, order[..|evaluated|])
    {
      assert order[|evaluated|] in order;
      var e := EvaluateTask(p, dependencies.value, conflicts.value, opposite.value, order[|evaluated|]);
      EvaluationGrows(p, evaluated, order, e);
      evaluated := evaluated + [e];
    }
    assert order[..|evaluated|] == order;
    return Ok(evaluated), ids;
  }

  lemma NothingEvaluated(p: Plan)
    ensures EvaluationOf(p, [], [])
  {
  }

  lemma EvaluationGrows(p: Plan, evaluated: seq<Eligibility>, order: seq<Id>, e: Eligibility)
    requires |evaluated| < |order| && EvaluationOf(p, evaluated, order[..|evaluated|])
    requires e.task.id == order[|evaluated|] && Explains(p, e)
    ensures EvaluationOf(p, evaluated + [e], order[..|evaluated| + 1])
  {
    hide Explains;
  }

  // ----- selection

  /** Priority, then age, then id. */
  predicate Before(a: Task, b: Task) {
    a.priority < b.priority
    || (a.priority == b.priority && (a.createdAt < b.createdAt || (a.createdAt == b.createdAt && LexLeq(a.id, b.id))))
  }

  predicate BeforeEntry(a: Eligibility, b: Eligibility) {
    Before(a.task, b.task)
  }

  lemma BeforeIsTotal()
    ensures TotalPreorder(BeforeEntry)
  {
    LexIsTotalPreorder();
    forall x, y
      ensures BeforeEntry(x, y) || BeforeEntry(y, x)
    {
      assert LexLeq(x.task.id, y.task.id) || LexLeq(y.task.id, x.task.id);
    }
    forall x, y, z | BeforeEntry(x, y) && BeforeEntry(y, z)
      ensures BeforeEntry(x, z)
    {
      assert LexLeq(x.task.id, y.task.id) && LexLeq(y.task.id, z.task.id) ==> LexLeq(x.task.id, z.task.id);
    }
  }

  function OnlyEligible(s: seq<Eligibility>, eligible: bool): (r: seq<Eligibility>)
    ensures forall e :: e in r <==> e in s && e.eligible == eligible
    ensures multiset(r) <= multiset(s)
  {
    if s == [] then []
    else
      assert s == [s[0]] + s[1..];
      (if s[0].eligible == eligible then [s[0]] else []) + OnlyEligible(s[1..], eligible)
  }

  /** The task `next` puts first: eligible, and before every other eligible task. */
  ghost predicate FirstChoice(p: Plan, id: Id) {
    Eligible(p, id) && forall other :: Eligible(p, other) ==> Before(p.tasks[id], p.tasks[other])
  }

  predicate Lists(s: seq<Eligibility>, id: Id) {
    exists i :: 0 <= i < |s| && s[i].task.id == id
  }

  /** Evaluations of different tasks. */
  ghost predicate Distinct(p: Plan, s: seq<Eligibility>) {
    && (forall e :: e in s ==> Explains(p, e))
    && (forall i, j :: 0 <= i < j < |s| ==> s[i].task.id != s[j].task.id)
  }

  /** Every eligible task once, in order. There is only one such list. */
  ghost predicate Ranking(p: Plan, s: seq<Eligibility>) {
    Distinct(p, s) && Ordered(BeforeEntry, s) && forall id :: Lists(s, id) <==> Eligible(p, id)
  }

  /** Every other task once, each with a reason. */
  ghost predicate LeftOver(p: Plan, s: seq<Eligibility>) {
    Distinct(p, s) && forall id :: Lists(s, id) <==> id in p.tasks && !Eligible(p, id)
  }

  /** Selecting entries of an evaluation, in whatever order, repeats no task. */
  lemma SelectedDistinct(p: Plan, ids: seq<Id>, evaluated: seq<Eligibility>, s: seq<Eligibility>)
    requires AllIds(p, ids) && EvaluationOf(p, evaluated, ids) && multiset(s) <= multiset(evaluated)
    ensures Distinct(p, s)
  {
    hide Explains, Ordered;
    forall e | e in s
      ensures e in evaluated
    {
      assert e in multiset(s);
      assert e in multiset(evaluated);
    }
    EntriesOnce(evaluated);
    SingleOccurrence(s);
    forall i, j | 0 <= i < j < |s|
      ensures s[i].task.id != s[j].task.id
    {
      assert s[i] in s && s[j] in s;
      var a :| 0 <= a < |evaluated| && evaluated[a] == s[i];
      var b :| 0 <= b < |evaluated| && evaluated[b] == s[j];
      assert ids[a] == s[i].task.id && ids[b] == s[j].task.id;
    }
  }

  lemma {:induction false} EntriesOnce(s: seq<Eligibility>)
    requires forall i, j :: 0 <= i < j < |s| ==> s[i].task.id != s[j].task.id
    ensures forall e :: multiset(s)[e] <= 1
  {
    if s != [] {
      EntriesOnce(s[1..]);
      assert s == [s[0]] + s[1..];
      assert s[0] !in s[1..];
    }
  }

  lemma SelectedLists(p: Plan, ids: seq<Id>, evaluated: seq<Eligibility>, s: seq<Eligibility>, eligible: bool)
    requires AllIds(p, ids) && EvaluationOf(p, evaluated, ids)
    requires forall e :: e in s <==> e in evaluated && e.eligible == eligible
    ensures forall id :: Lists(s, id) <==> id in p.tasks && Eligible(p, id) == eligible
  {
    hide Eligible, Ordered;
    forall id
      ensures Lists(s, id) <==> id in p.tasks && Eligible(p, id) == eligible
    {
      if Lists(s, id) {
        var i :| 0 <= i < |s| && s[i].task.id == id;
        assert s[i] in evaluated;
        var j :| 0 <= j < |evaluated| && evaluated[j] == s[i];
        assert Explains(p, evaluated[j]);
      }
      if id in p.tasks && Eligible(p, id) == eligible {
        var j :| 0 <= j < |ids| && ids[j] == id;
        assert Explains(p, evaluated[j]) && evaluated[j] in s;
      }
    }
  }

  lemma EligibleIsTask(p: Plan, id: Id)
    requires Eligible(p, id)
    ensures id in p.tasks
  {
  }

  /** The first of a ranking comes before every other eligible task. */
  lemma FirstOfRanking(p: Plan, s: seq<Eligibility>)
    requires Ranking(p, s)
    ensures s == [] <==> forall id :: !Eligible(p, id)
    ensures s != [] ==> FirstChoice(p, s[0].task.id)
  {
    hide Eligible, Before;
    forall i | 0 <= i < |s|
      ensures Lists(s, s[i].task.id) && s[i].task.id in p.tasks && s[i].task == p.tasks[s[i].task.id]
    {
      assert s[i] in s;
      assert Explains(p, s[i]);
    }
    forall other | Eligible(p, other)
      ensures s != [] && other in p.tasks && s[0].task.id in p.tasks && Before(p.tasks[s[0].task.id], p.tasks[other])
    {
      EligibleIsTask(p, other);
      assert Lists(s, other);
      var i :| 0 <= i < |s| && s[i].task.id == other;
      LexIsTotalPreorder();
      BeforeItself(s[0].task);
      assert i > 0 ==> BeforeEntry(s[0], s[i]);
    }
    if s != [] {
      assert Lists(s, s[0].task.id);
      assert Eligible(p, s[0].task.id);
    }
  }

  /** Of two tasks the more urgent, then the older, then the one with the smaller id. */
  ghost predicate Precedes(a: Task, b: Task) {
    || a.priority < b.priority
    || (a.priority == b.priority && a.createdAt < b.createdAt)
    || (a.priority == b.priority && a.createdAt == b.createdAt && LexLess(a.id, b.id))
  }

  lemma BeforeIs(a: Task, b: Task)
    requires a.id != b.id
    ensures Before(a, b) <==> Precedes(a, b)
  {
    hide LexLeq, LexLess;
    LexLeqIs(a.id, b.id);
  }

  /** What a task needs to start, relation by relation. */
  lemma EligibleIff(p: Plan, id: Id)
    ensures Eligible(p, id) <==>
            && id in p.tasks && (p.tasks[id].state == Idea || p.tasks[id].state == Todo)
            && (forall d :: (id, d) in p.dependencies && d in p.tasks ==> p.tasks[d].state == Done)
            && (forall c :: ((id, c) in p.conflicts || (c, id) in p.conflicts) && c in p.tasks ==> p.tasks[c].state != InProgress)
  {
    forall d
      ensures d in UnmetDependencies(p, id) <==> (id, d) in p.dependencies && d in p.tasks && p.tasks[d].state != Done
      ensures d in ActiveConflicts(p, id) <==>
              ((id, d) in p.conflicts || (d, id) in p.conflicts) && d in p.tasks && p.tasks[d].state == InProgress
    {
      assert (id, d).0 == id && (id, d).1 == d && (d, id).0 == d && (d, id).1 == id;
    }
  }

  /** A ranking is in strict order, each task before all that follow it. */
  lemma RankingPrecedes(p: Plan, s: seq<Eligibility>)
    requires Ranking(p, s)
    ensures forall i, j :: 0 <= i < j < |s| ==> Precedes(s[i].task, s[j].task)
  {
    hide Precedes, Before, Explains, Lists;
    forall i, j | 0 <= i < j < |s|
      ensures Precedes(s[i].task, s[j].task)
    {
      assert BeforeEntry(s[i], s[j]);
      BeforeIs(s[i].task, s[j].task);
    }
  }

  lemma RankedAreEligible(p: Plan, s: seq<Eligibility>)
    requires Ranking(p, s)
    ensures forall e :: e in s ==> Eligible(p, e.task.id)
  {
    hide Eligible, Distinct, Ordered;
    forall e | e in s
      ensures Eligible(p, e.task.id)
    {
      var i :| 0 <= i < |s| && s[i] == e;
      assert Lists(s, e.task.id);
    }
  }

  lemma BeforeItself(t: Task)
    ensures Before(t, t)
  {
    LexTotal(t.id, t.id);
  }

  /** The entries that are eligible, sorted. */
  method Rank(p: Plan, evaluated: seq<Eligibility>, ghost ids: seq<Id>) returns (eligible: seq<Eligibility>)
    requires AllIds(p, ids) && EvaluationOf(p, evaluated, ids)
    ensures Ranking(p, eligible)
  {
    hide Explains, Eligible, EvaluationOf, AllIds, Ordered, Before, TotalPreorder, Lists, Distinct;
    var chosen := OnlyEligible(evaluated, true);
    eligible := SortBy(BeforeEntry, chosen);
    forall e
      ensures e in eligible <==> e in evaluated && e.eligible
    {
      InPermutation(eligible, chosen, e);
    }
    BeforeIsTotal();
    SortByOrders(BeforeEntry, chosen);
    SelectedDistinct(p, ids, evaluated, eligible);
    SelectedLists(p, ids, evaluated, eligible, true);
    RankingFrom(p, eligible);
  }

  /** `next`: the eligible tasks in order, at most `limit` of them. */
  method Next(p: Plan, limit: int) returns (r: Result<Selection, PlanningError>)
    requires Consistent(p)
    ensures r.Ok? <==> 1 <= limit <= 100 && ReferencesExist(p)
    ensures r.Err? ==> r.error == if 1 <= limit <= 100 then MissingTask else BadLimit
    ensures r.Ok? ==> exists ranking ::
              && Ranking(p, ranking) && r.value.eligible == |ranking|
              && r.value.tasks == ranking[..if |ranking| < limit then |ranking| else limit]
    ensures r.Ok? ==> r.value.considered == |p.tasks| && LeftOver(p, r.value.skipped)
    ensures r.Ok? ==> (r.value.tasks != [] <==> exists id :: Eligible(p, id))
    ensures r.Ok? && r.value.tasks != [] ==> FirstChoice(p, r.value.tasks[0].task.id)
    ensures r.Ok? ==> forall e :: e in r.value.tasks ==> Eligible(p, e.task.id)
    ensures r.Ok? ==> forall i, j :: 0 <= i < j < |r.value.tasks| ==> Precedes(r.value.tasks[i].task, r.value.tasks[j].task)
  {
    hide Precedes;
    hide Explains, Eligible, ReferencesExist, Consistent, EvaluationOf, AllIds, FirstChoice, Ranking, Lists, Distinct;
    if limit < 1 || limit > 100 {
      return Err(BadLimit);
    }
    ghost var ids;
    var evaluation;
    evaluation, ids := Evaluate(p);
    if evaluation.Err? {
      return Err(evaluation.error);
    }
    var evaluated := evaluation.value;
    var eligible := Rank(p, evaluated, ids);
    FirstOfRanking(p, eligible);
    RankedAreEligible(p, eligible);
    RankingPrecedes(p, eligible);
    var tasks := if |eligible| < limit then eligible else eligible[..limit];
    var skipped := OnlyEligible(evaluated, false);
    SelectedDistinct(p, ids, evaluated, skipped);
    SelectedLists(p, ids, evaluated, skipped, false);
    EvaluatedAll(p, ids, evaluated);
    assert tasks == eligible[..if |eligible| < limit then |eligible| else limit];
    return Ok(Selection(|evaluated|, |eligible|, tasks, skipped));
  }

  lemma RankingFrom(p: Plan, s: seq<Eligibility>)
    requires Distinct(p, s) && Ordered(BeforeEntry, s)
    requires forall id :: Lists(s, id) <==> id in p.tasks && Eligible(p, id)
    ensures Ranking(p, s)
  {
    hide Distinct, Ordered, Lists, UnmetDependencies, ActiveConflicts;
  }

  lemma EvaluatedAll(p: Plan, ids: seq<Id>, evaluated: seq<Eligibility>)
    requires AllIds(p, ids) && EvaluationOf(p, evaluated, ids)
    ensures |evaluated| == |p.tasks|
  {
    hide Explains, Ordered;
    DistinctCount(ids);
    assert Elements(ids) == p.tasks.Keys;
  }

  // ----- no deadlock

  function Unfinished(p: Plan): set<Id> {
    set id | id in p.tasks && p.tasks[id].state != Done
  }

  /** A plan nobody is working on: every task still to do, or done. */
  ghost predicate Idle(p: Plan) {
    && Consistent(p) && ReferencesExist(p) && Acyclic(p.dependencies)
    && forall id :: id in p.tasks ==> p.tasks[id].state == Idea || p.tasks[id].state == Todo || p.tasks[id].state == Done
  }

  /** In an idle acyclic plan with work left some task can start. */
  lemma NeverDeadlocks(p: Plan)
    requires Idle(p) && Unfinished(p) != {}
    ensures exists id :: Eligible(p, id)
  {
    var id := AcyclicHasSink(p.dependencies, Unfinished(p));
    forall d
      ensures d !in UnmetDependencies(p, id)
    {
      assert (id, d) in p.dependencies ==> d !in Unfinished(p);
    }
    assert Eligible(p, id);
  }

  function Finish(p: Plan, id: Id): Plan
    requires id in p.tasks
  {
    p.(tasks := p.tasks[id := p.tasks[id].(state := Done)])
  }

  lemma FinishKeepsIdle(p: Plan, id: Id)
    requires Idle(p) && Eligible(p, id)
    ensures Idle(Finish(p, id)) && Unfinished(Finish(p, id)) == Unfinished(p) - {id} && id in Unfinished(p)
  {
    hide Acyclic;
  }

  /** `order` finishes tasks of `p` only after what they depend on. */
  ghost predicate FinishesInOrder(p: Plan, order: seq<Id>) {
    forall i, d :: 0 <= i < |order| && (order[i], d) in p.dependencies ==>
      (d in p.tasks && p.tasks[d].state == Done) || d in order[..i]
  }

  /**
   * Repeatedly finishing the first choice of `next` drains the plan: every unfinished task is
   * chosen exactly once, after all its dependencies, in as many rounds as there are tasks.
   */
  method Drain(start: Plan) returns (order: seq<Id>)
    requires Idle(start)
    ensures |order| == |Unfinished(start)|
    ensures (set x | x in order) == Unfinished(start)
    ensures forall i, j :: 0 <= i < j < |order| ==> order[i] != order[j]
    ensures FinishesInOrder(start, order)
  {
    hide Eligible, Acyclic, FinishesInOrder, Idle;
    var p := start;
    order := [];
    DrainStarts(start);
    while Unfinished(p) != {}
      invariant Idle(p) && Drained(start, p, order)
      invariant |order| + |Unfinished(p)| == |Unfinished(start)|
      decreases |Unfinished(p)|
    {
      NeverDeadlocks(p);
      IdleIsConsistent(p);
      var selection := Next(p, 1);
      var id := selection.value.tasks[0].task.id;
      assert Eligible(p, id);
      FinishKeepsIdle(p, id);
      DrainStep(start, p, order, id);
      p := Finish(p, id);
      order := order + [id];
    }
  }

  lemma IdleIsConsistent(p: Plan)
    requires Idle(p)
    ensures Consistent(p) && ReferencesExist(p)
  {
  }

  /** Exactly the tasks of `order` were finished since `start`, in order. */
  ghost predicate Drained(start: Plan, p: Plan, order: seq<Id>) {
    && p.dependencies == start.dependencies && p.conflicts == start.conflicts && p.tasks.Keys == start.tasks.Keys
    && (forall id :: id in p.tasks ==>
          p.tasks[id].state == if id in order then Done else start.tasks[id].state)
    && (set x | x in order) == Unfinished(start) - Unfinished(p)
    && (forall i, j :: 0 <= i < j < |order| ==> order[i] != order[j])
    && FinishesInOrder(start, order)
  }

  lemma DrainStarts(start: Plan)
    ensures Drained(start, start, [])
  {
  }

  lemma DrainStep(start: Plan, p: Plan, order: seq<Id>, id: Id)
    requires Drained(start, p, order) && Eligible(p, id) && ReferencesExist(p)
    ensures Drained(start, Finish(p, id), order + [id])
  {
    var longer := order + [id];
    assert id in Unfinished(p);
    assert id !in order;
    forall i, d | 0 <= i < |longer| && (longer[i], d) in start.dependencies
      ensures (d in start.tasks && start.tasks[d].state == Done) || d in longer[..i]
    {
      if i < |order| {
        assert longer[..i] == order[..i];
      } else {
        assert longer[..i] == order;
        assert d !in UnmetDependencies(p, id);
        assert (id, d).1 in p.tasks;
      }
    }
    assert Unfinished(Finish(p, id)) == Unfinished(p) - {id};
    assert (set x | x in longer) == (set x | x in order) + {id};
  }

  // ----- the plan of a ledger

  /** What the task service answers on a ledger. */
  function PlanOf(log: seq<Entry>): Option<Plan> {
    match (LatestTasks(log), Dependencies(log), Conflicts(log))
    case (Some(tasks), Some(dependencies), Some(conflicts)) => Some(Plan(tasks, PairsOf(dependencies), PairsOf(conflicts)))
    case _ => None
  }

  /** In a sound ledger planning never fails on its references. */
  lemma SoundLedgerPlans(log: seq<Entry>)
    requires PlanOk(log)
    ensures PlanOf(log).Some?
    ensures var p := PlanOf(log).value; Consistent(p) && ReferencesExist(p) && Acyclic(p.dependencies)
  {
    hide Acyclic, LatestTasks, Relations, ValidHistory;
    var p := PlanOf(log).value;
    forall e | e in p.dependencies
      ensures e.0 in p.tasks && e.1 in p.tasks
    {
      assert Pair(e.0, e.1) in Dependencies(log).value;
    }
    forall e | e in p.conflicts
      ensures e.0 in p.tasks && e.1 in p.tasks
    {
      assert Pair(e.0, e.1) in Conflicts(log).value;
    }
  }

  // ----- three reads

  /** What `_evaluate` works on: it reads tasks, dependencies and conflicts from a snapshot each. */
  function PlanOver(first: seq<Entry>, second: seq<Entry>, third: seq<Entry>): Option<Plan> {
    match (LatestTasks(first), Dependencies(second), Conflicts(third))
    case (Some(tasks), Some(dependencies), Some(conflicts)) => Some(Plan(tasks, PairsOf(dependencies), PairsOf(conflicts)))
    case _ => None
  }

  lemma {:induction false} TasksOnlyAdded(log: seq<Entry>, n: nat)
    requires n <= |log| && LatestTasks(log).Some?
    ensures LatestTasks(log[..n]).Some? && LatestTasks(log[..n]).value.Keys <= LatestTasks(log).value.Keys
  {
    if n < |log| {
      assert log[..|log| - 1][..n] == log[..n];
      TasksOnlyAdded(log[..|log| - 1], n);
    } else {
      assert log[..n] == log;
    }
  }

  lemma {:induction false} RelationsOnlyAdded(log: seq<Entry>, n: nat, kind: Kind, identity: Identity)
    requires n <= |log| && Relations(log, kind, identity).Some?
    ensures Relations(log[..n], kind, identity).Some?
    ensures PairsOf(Relations(log[..n], kind, identity).value) <= PairsOf(Relations(log, kind, identity).value)
  {
    if n < |log| {
      assert log[..|log| - 1][..n] == log[..n];
      RelationsOnlyAdded(log[..|log| - 1], n, kind, identity);
    } else {
      assert log[..n] == log;
    }
  }

  /** A relation read later names a task that the first read did not see: it was created in between. */
  ghost predicate NamesNewTask(first: seq<Entry>, later: seq<Entry>, pairs: Edges)
    requires LatestTasks(first).Some? && LatestTasks(later).Some?
  {
    exists e :: e in pairs && NamesNew(LatestTasks(first).value, LatestTasks(later).value, e)
  }

  predicate NamesNew(seen: TaskMap, now: TaskMap, e: (Id, Id)) {
    (e.0 in now && e.0 !in seen) || (e.1 in now && e.1 !in seen)
  }

  lemma PlanDecodes(log: seq<Entry>)
    requires PlanOk(log)
    ensures LatestTasks(log).Some? && Dependencies(log).Some? && Conflicts(log).Some?
    ensures forall e :: e in PairsOf(Dependencies(log).value) ==> e.0 in LatestTasks(log).value && e.1 in LatestTasks(log).value
    ensures forall e :: e in PairsOf(Conflicts(log).value) ==> e.0 in LatestTasks(log).value && e.1 in LatestTasks(log).value
  {
    hide Acyclic, LatestTasks, Relations, ValidHistory;
    forall e | e in PairsOf(Dependencies(log).value)
      ensures e.0 in LatestTasks(log).value && e.1 in LatestTasks(log).value
    {
      assert Pair(e.0, e.1) in Dependencies(log).value;
    }
    forall e | e in PairsOf(Conflicts(log).value)
      ensures e.0 in LatestTasks(log).value && e.1 in LatestTasks(log).value
    {
      assert Pair(e.0, e.1) in Conflicts(log).value;
    }
  }

  /** A relation of a sound later ledger is missing a task of the first exactly when it names a new one. */
  lemma MissingIffNew(first: seq<Entry>, later: seq<Entry>, pairs: Edges)
    requires LatestTasks(first).Some? && LatestTasks(later).Some?
    requires forall e :: e in pairs ==> e.0 in LatestTasks(later).value && e.1 in LatestTasks(later).value
    ensures (forall e :: e in pairs ==> e.0 in LatestTasks(first).value && e.1 in LatestTasks(first).value)
            <==> !NamesNewTask(first, later, pairs)
  {
    hide LatestTasks;
    var seen, now := LatestTasks(first).value, LatestTasks(later).value;
    if !NamesNewTask(first, later, pairs) {
      forall e | e in pairs
        ensures e.0 in seen && e.1 in seen
      {
        assert !NamesNew(seen, now, e);
      }
    }
  }

  /**
   * Planning over three reads of a growing sound ledger fails exactly when a relation names a task
   * created after the first read; and what it answers as eligible is eligible in the first ledger.
   */
  lemma ThreeReadsPlan(first: seq<Entry>, second: seq<Entry>, third: seq<Entry>)
    requires PlanOk(first) && PlanOk(second) && PlanOk(third) && first <= second <= third
    ensures PlanOver(first, second, third).Some? && PlanOf(first).Some?
    ensures LatestTasks(first).Some? && LatestTasks(second).Some? && LatestTasks(third).Some?
    ensures Dependencies(second).Some? && Conflicts(third).Some?
    ensures var p := PlanOver(first, second, third).value;
            && Consistent(p)
            && (!ReferencesExist(p) <==>
                  NamesNewTask(first, second, PairsOf(Dependencies(second).value)) || NamesNewTask(first, third, PairsOf(Conflicts(third).value)))
            && (forall id :: Eligible(p, id) ==> Eligible(PlanOf(first).value, id))
  {
    hide LatestTasks, Relations, PlanOk, Eligible, NamesNewTask;
    PlanDecodes(first);
    PlanDecodes(second);
    PlanDecodes(third);
    SoundLedgerPlans(first);
    MissingIffNew(first, second, PairsOf(Dependencies(second).value));
    MissingIffNew(first, third, PairsOf(Conflicts(third).value));
    assert first == second[..|first|] && first == third[..|first|];
    RelationsOnlyAdded(second, |first|, DependencyKind, DependencyIdentity);
    RelationsOnlyAdded(third, |first|, ConflictKind, ConflictIdentity);
    forall id | Eligible(PlanOver(first, second, third).value, id)
      ensures Eligible(PlanOf(first).value, id)
    {
      FewerRelationsStayEligible(PlanOf(first).value, PlanOver(first, second, third).value, id);
    }
  }

  lemma FewerRelationsStayEligible(p: Plan, q: Plan, id: Id)
    requires p.tasks == q.tasks && p.dependencies <= q.dependencies && p.conflicts <= q.conflicts && Eligible(q, id)
    ensures Eligible(p, id)
  {
    assert UnmetDependencies(p, id) <= UnmetDependencies(q, id);
    assert ActiveConflicts(p, id) <= ActiveConflicts(q, id);
  }

  function NewTask(id: Id): Task {
    Task(id, Intent("title", "why", "what", None), 0, Todo, [], 0, 0, [])
  }

  function With(log: seq<Entry>, d: Draft): seq<Entry> {
    log + [NextEntry(log, d)]
  }

  /** A ledger with two tasks, the first depending on the second. */
  function TwoTasks(): seq<Entry> {
    With(With(With([], TaskDraft(NewTask("a"))), TaskDraft(NewTask("b"))), DependencyDraft("a", "b", 0))
  }

  lemma NoEdgeNoReach(a: Id, b: Id)
    requires a != b
    ensures !Reach({}, a, b)
  {
    var none: Edges := {};
    forall p | PathFrom(none, p, a, b)
      ensures (p[0], p[1]) in none
    {
    }
  }

  lemma FirstTwo()
    ensures var two := With(With([], TaskDraft(NewTask("a"))), TaskDraft(NewTask("b")));
            && PlanOk([]) && PlanOk(two) && Dependencies(two) == Some(map[])
            && LatestTasks(two).value.Keys == {"a", "b"}
  {
    hide Acyclic, LatestTasks, Relations;
    EmptyPlanOk();
    assert LatestTasks([]) == Some(map[]) && Dependencies([]) == Some(map[]) by { NothingYet(); }
    TaskVersionKeepsPlan([], NextEntry([], TaskDraft(NewTask("a"))));
    var one := With([], TaskDraft(NewTask("a")));
    TaskVersionKeepsPlan(one, NextEntry(one, TaskDraft(NewTask("b"))));
  }

  lemma TwoTasksSound()
    ensures PlanOk([]) && PlanOk(TwoTasks()) && LatestTasks(TwoTasks()).value.Keys == {"a", "b"}
    ensures ("a", "b") in PairsOf(Dependencies(TwoTasks()).value)
  {
    hide Acyclic, Reach, LatestTasks, Relations;
    FirstTwo();
    var two := With(With([], TaskDraft(NewTask("a"))), TaskDraft(NewTask("b")));
    assert PairsOf(map[]) == {};
    NoEdgeNoReach("b", "a");
    CandidateEdgeIrrelevant({}, "a", "b");
    AddDependencyKeepsPlan(two, "a", "b", 0);
    assert Pair("a", "b") in Dependencies(TwoTasks()).value;
  }

  /** An input on which planning fails: both tasks and the relation are added between the first two reads. */
  lemma ReadsCanMiss()
    ensures PlanOk([]) && PlanOk(TwoTasks()) && [] <= TwoTasks()
    ensures PlanOver([], TwoTasks(), TwoTasks()).Some? && !ReferencesExist(PlanOver([], TwoTasks(), TwoTasks()).value)
  {
    hide LatestTasks, Relations, PlanOk, TwoTasks, ReferencesExist, PlanOver;
    TwoTasksSound();
    NothingYet();
    ThreeReadsPlan([], TwoTasks(), TwoTasks());
    assert NamesNew(map[], LatestTasks(TwoTasks()).value, ("a", "b"));
    assert NamesNewTask([], TwoTasks(), PairsOf(Dependencies(TwoTasks()).value));
  }

  lemma NothingYet()
    ensures LatestTasks([]) == Some(map[]) && Dependencies([]) == Some(map[])
  {
  }

  datatype ReadError = Malformed | Failed(error: PlanningError)

  /** `next` on a ledger: three snapshots, between which other clients append. */
  method NextFromLedger(store: LedgerStore.Store, limit: int, between: seq<Draft>, more: seq<Draft>)
    returns (r: Result<Selection, ReadError>, ghost first: seq<Entry>, ghost second: seq<Entry>)
    requires ValidChain(store.log)
    modifies store
    ensures ValidChain(store.log) && first == old(store.log)
    ensures second == LedgerStore.Extend(first, between) && store.log == LedgerStore.Extend(second, more)
    ensures r == Err(Malformed) ==> 1 <= limit <= 100 && PlanOver(first, second, store.log).None?
    ensures PlanOk(first) && PlanOk(second) && PlanOk(store.log) && 1 <= limit <= 100 ==>
              && (r.Ok? <==> ReferencesExist(PlanOver(first, second, store.log).value))
              && (r.Err? ==> r.error == Failed(MissingTask))
              && (r.Ok? ==> forall e :: e in r.value.tasks ==> Eligible(PlanOf(first).value, e.task.id))
  {
    hide Ranking, LeftOver, FirstChoice, PlanOk, Eligible, ReferencesExist, LatestTasks, Relations;
    first, second := store.log, store.log;
    if limit < 1 || limit > 100 {
      store.Interfere(between);
      second := store.log;
      store.Interfere(more);
      return Err(Failed(BadLimit)), first, second;
    }
    var tasks := CollectTasks(store.log);
    store.Interfere(between);
    second := store.log;
    var dependencies := CollectRelations(store.log, DependencyKind, DependencyIdentity);
    store.Interfere(more);
    var conflicts := CollectRelations(store.log, ConflictKind, ConflictIdentity);
    if PlanOk(first) && PlanOk(second) && PlanOk(store.log) {
      ThreeReadsPlan(first, second, store.log);
    }
    if tasks.None? || dependencies.None? || conflicts.None? {
      return Err(Malformed), first, second;
    }
    var p := Plan(tasks.value, PairsOf(dependencies.value), PairsOf(conflicts.value));
    TasksAreNamed(first);
    var selection := Next(p, limit);
    r := if selection.Ok? then Ok(selection.value) else Err(Failed(selection.error));
  }

  lemma {:induction false} TasksAreNamed(log: seq<Entry>)
    requires LatestTasks(log).Some?
    ensures forall id :: id in LatestTasks(log).value ==> LatestTasks(log).value[id].id == id
  {
    if log != [] {
      TasksAreNamed(log[..|log| - 1]);
    }
  }
}
