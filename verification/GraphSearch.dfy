/** The three graph searches of the repository, each decided against the theory of graphs. */
module GraphSearch {
  import opened Common
  import opened Sorting
  import opened Graphs

  type Adjacency = map<Id, set<Id>>

  /** `graph.get(a, ())` */
  function Neighbours(g: Adjacency, a: Id): set<Id> {
    if a in g then g[a] else {}
  }

  function EdgesOf(g: Adjacency): Edges {
    set a, b | a in g && b in g[a] :: (a, b)
  }

  /** The elements of a set in the order of `leq`: Python's `sorted`. */
  method SortedBy<T(==, !new)>(leq: (T, T) -> bool, s: set<T>) returns (r: seq<T>)
    requires TotalPreorder(leq)
    ensures forall x :: x in r <==> x in s
    ensures forall i, j :: 0 <= i < j < |r| ==> r[i] != r[j]
    ensures Ordered(leq, r)
  {
    var picked: seq<T> := [];
    var rest := s;
    while rest != {}
      invariant rest <= s
      invariant forall x :: x in picked <==> x in s && x !in rest
      invariant forall x :: multiset(picked)[x] <= 1
      decreases |rest|
    {
      var x :| x in rest;
      assert x !in picked;
      picked := picked + [x];
      rest := rest - {x};
    }
    r := SortBy(leq, picked);
    forall x
      ensures x in r <==> x in s
    {
      InPermutation(r, picked, x);
    }
    SingleOccurrence(r);
    SortByOrders(leq, picked);
  }

  /** The elements of a set of ids in lexicographic order. */
  method Sorted(s: set<Id>) returns (r: seq<Id>)
    ensures forall x :: x in r <==> x in s
    ensures forall i, j :: 0 <= i < j < |r| ==> r[i] != r[j]
    ensures Ordered(LexLeq, r)
  {
    LexIsTotalPreorder();
    r := SortedBy(LexLeq, s);
  }

  lemma NeighbourIsEdge(g: Adjacency, a: Id, b: Id)
    ensures b in Neighbours(g, a) <==> (a, b) in EdgesOf(g)
  {
  }

  /** All nodes an adjacency mentions. */
  function NodesOf(g: Adjacency): set<Id> {
    g.Keys + set a, b | a in g && b in g[a] :: b
  }

  /**
   * `_reaches` (application/tasks.py): a depth-first walk over a stack that may hold a node
   * many times. It ends on every graph and answers exactly whether `target` can be reached.
   */
  method Reaches(graph: Adjacency, start: Id, target: Id) returns (found: bool)
    ensures found <==> Reach(EdgesOf(graph), start, target)
  {
    hide EdgesOf, Reach, NodesOf, Neighbours;
    ghost var es := EdgesOf(graph);
    ghost var nodes := NodesOf(graph) + {start};
    var pending := [start];
    var seen: set<Id> := {};
    ReachSelf(es, start);
    while pending != []
      invariant forall x :: x in pending ==> x in nodes && Reach(es, start, x)
      invariant seen <= nodes && target !in seen
      invariant start in seen || start in pending
      invariant Expanded(es, seen, pending)
      decreases |nodes - seen|, |pending|
    {
      var current := pending[|pending| - 1];
      ghost var stack := pending;
      pending := pending[..|pending| - 1];
      assert stack == pending + [current];
      if current == target {
        return true;
      }
      if current !in seen {
        Smaller(nodes - (seen + {current}), nodes - seen, current);
        var next := Sorted(Neighbours(graph, current));
        forall x
          ensures x in next <==> (current, x) in es
        {
          NeighbourIsEdge(graph, current, x);
        }
        forall x | x in next
          ensures x in nodes && Reach(es, start, x)
        {
          EdgeNodes(graph, current, x);
          ReachLast(es, start, current, x);
        }
        seen := seen + {current};
        pending := pending + next;
      }
    }
    if Reach(es, start, target) {
      ClosedContainsReachable(es, seen, start, target);
    }
    return false;
  }

  /** What a seen node leads to is seen or still on the stack. */
  ghost predicate Expanded(es: Edges, seen: set<Id>, pending: seq<Id>) {
    forall e :: e in es && e.0 in seen ==> e.1 in seen || e.1 in pending
  }

  lemma EdgeNodes(g: Adjacency, a: Id, b: Id)
    requires (a, b) in EdgesOf(g)
    ensures a in NodesOf(g) && b in NodesOf(g)
  {
  }

  // ----- adapters/weft_plan.py

  datatype PlanTask = PlanTask(slug: Id, status: string, title: string, purpose: string, what: string, priority: nat,
                               scopes: seq<string>, dependencies: seq<Id>, conflicts: seq<Id>)

  datatype GraphError = MissingDependency(slug: Id) | SelfDependency(slug: Id) | MissingConflict(slug: Id)
                      | SelfConflict(slug: Id) | CycleFound

  function Slugs(tasks: seq<PlanTask>): set<Id> {
    set i | 0 <= i < |tasks| :: tasks[i].slug
  }

  function DependencyEdges(tasks: seq<PlanTask>): Edges {
    set i, d | 0 <= i < |tasks| && d in tasks[i].dependencies :: (tasks[i].slug, d)
  }

  /** Every reference names a task of the plan, and none its own task. */
  predicate ReferencesResolve(tasks: seq<PlanTask>, n: nat)
    requires n <= |tasks|
  {
    forall i :: 0 <= i < n ==> TaskResolves(tasks, i)
  }

  predicate TaskResolves(tasks: seq<PlanTask>, i: nat)
    requires i < |tasks|
  {
    && (forall d :: d in tasks[i].dependencies ==> d in Slugs(tasks) && d != tasks[i].slug)
    && (forall c :: c in tasks[i].conflicts ==> c in Slugs(tasks) && c != tasks[i].slug)
  }

  ghost predicate AcceptedPlan(tasks: seq<PlanTask>) {
    ReferencesResolve(tasks, |tasks|) && Acyclic(DependencyEdges(tasks))
  }

  /** The nested `visit` of `_validate_graph` with the two sets it mutates. */
  class CycleSearch {
    const graph: Adjacency
    const nodes: set<Id>
    var visiting: set<Id>
    var visited: set<Id>

    constructor (graph: Adjacency, nodes: set<Id>)
      ensures this.graph == graph && this.nodes == nodes && visiting == {} && visited == {}
    {
      this.graph, this.nodes := graph, nodes;
      visiting, visited := {}, {};
    }

    ghost predicate Valid()
      reads this
    {
      && EdgesWithin(EdgesOf(graph), nodes)
      && visiting <= nodes && visited <= nodes && visiting !! visited
      && Finished(EdgesOf(graph), visited)
    }

    /** Answers whether `slug` could be visited without meeting a cycle. */
    method Visit(slug: Id) returns (ok: bool)
      requires Valid() && LeadTo(EdgesOf(graph), visiting, slug) && slug in nodes
      modifies this
      ensures ok ==> Valid() && visiting == old(visiting) && old(visited) <= visited && slug in visited
      ensures !ok ==> !Acyclic(EdgesOf(graph))
      decreases |nodes - visiting|
    {
      hide EdgesOf, Reach, Acyclic, Finished, LeadTo, Neighbours;
      ghost var es := EdgesOf(graph);
      if slug in visiting {
        LeadsToItself(es, visiting, slug);
        return false;
      }
      if slug in visited {
        return true;
      }
      Smaller(nodes - (visiting + {slug}), nodes - visiting, slug);
      visiting := visiting + {slug};
      var dependencies := Sorted(Neighbours(graph, slug));
      var i := 0;
      while i < |dependencies|
        invariant 0 <= i <= |dependencies|
        invariant Valid() && visiting == old(visiting) + {slug} && old(visited) <= visited
        invariant forall j :: 0 <= j < i ==> dependencies[j] in visited
      {
        var dependency := dependencies[i];
        NeighbourIsEdge(graph, slug, dependency);
        StillLead(es, old(visiting), slug, dependency);
        assert (slug, dependency).1 in nodes;
        ok := Visit(dependency);
        if !ok {
          return false;
        }
        i := i + 1;
      }
      forall d | (slug, d) in es
        ensures d in visited
      {
        NeighbourIsEdge(graph, slug, d);
      }
      FinishOne(es, visited, slug);
      visiting := visiting - {slug};
      visited := visited + {slug};
      return true;
    }
  }

  ghost predicate EdgesWithin(es: Edges, nodes: set<Id>) {
    forall e :: e in es ==> e.0 in nodes && e.1 in nodes
  }

  /** Finished nodes lead only to finished nodes and lie on no cycle. */
  ghost predicate Finished(es: Edges, visited: set<Id>) {
    ClosedUnder(es, visited) && forall e :: e in es && e.0 in visited ==> !Reach(es, e.1, e.0)
  }

  /** Every node being visited leads to `slug` by at least one edge. */
  ghost predicate LeadTo(es: Edges, visiting: set<Id>, slug: Id) {
    forall v :: v in visiting ==> exists x :: (v, x) in es && Reach(es, x, slug)
  }

  lemma LeadsToItself(es: Edges, visiting: set<Id>, slug: Id)
    requires LeadTo(es, visiting, slug) && slug in visiting
    ensures !Acyclic(es)
  {
    var x :| (slug, x) in es && Reach(es, x, slug);
    assert Reach(es, (slug, x).1, (slug, x).0);
  }

  lemma StillLead(es: Edges, before: set<Id>, slug: Id, dependency: Id)
    requires LeadTo(es, before, slug) && (slug, dependency) in es
    ensures LeadTo(es, before + {slug}, dependency)
  {
    forall v | v in before + {slug}
      ensures exists x :: (v, x) in es && Reach(es, x, dependency)
    {
      if v in before {
        var x :| (v, x) in es && Reach(es, x, slug);
        ReachLast(es, x, slug, dependency);
      } else {
        ReachSelf(es, dependency);
      }
    }
  }

  /** A node all of whose prerequisites are finished lies on no cycle. */
  lemma FinishOne(es: Edges, visited: set<Id>, slug: Id)
    requires Finished(es, visited) && slug !in visited
    requires forall d :: (slug, d) in es ==> d in visited
    ensures Finished(es, visited + {slug})
  {
    forall e | e in es && e.0 == slug
      ensures e.1 in visited && !Reach(es, e.1, e.0)
    {
      assert e == (slug, e.1);
      if Reach(es, e.1, slug) {
        ClosedContainsReachable(es, visited, e.1, slug);
      }
    }
  }

  lemma AllFinishedIsAcyclic(es: Edges, nodes: set<Id>, visited: set<Id>)
    requires Finished(es, visited) && EdgesWithin(es, nodes) && nodes <= visited
    ensures Acyclic(es)
  {
  }

  /** `_validate_graph`: returns normally exactly on plans whose references resolve without a cycle. */
  method ValidateGraph(tasks: seq<PlanTask>) returns (r: Result<(), GraphError>)
    ensures r.Ok? <==> AcceptedPlan(tasks)
    ensures r.Err? && r.error != CycleFound ==> !ReferencesResolve(tasks, |tasks|)
    ensures r == Err(CycleFound) ==> ReferencesResolve(tasks, |tasks|) && !Acyclic(DependencyEdges(tasks))
  {
    var bySlug := Slugs(tasks);
    var graph: Adjacency := map[];
    var i := 0;
    while i < |tasks|
      invariant 0 <= i <= |tasks|
      invariant ReferencesResolve(tasks, i)
      invariant EdgesOf(graph) == DependencyEdges(tasks[..i])
    {
      var task := tasks[i];
      var j := 0;
      while j < |task.dependencies|
        invariant 0 <= j <= |task.dependencies|
        invariant forall k :: 0 <= k < j ==> task.dependencies[k] in bySlug && task.dependencies[k] != task.slug
        invariant EdgesOf(graph) == DependencyEdges(tasks[..i]) + (set k | 0 <= k < j :: (task.slug, task.dependencies[k]))
      {
        var dependency := task.dependencies[j];
        if dependency !in bySlug {
          assert !TaskResolves(tasks, i);
          return Err(MissingDependency(task.slug));
        }
        if dependency == task.slug {
          assert !TaskResolves(tasks, i);
          return Err(SelfDependency(task.slug));
        }
        EdgeAdded(graph, task.slug, dependency);
        graph := graph[task.slug := Neighbours(graph, task.slug) + {dependency}];
        j := j + 1;
      }
      j := 0;
      while j < |task.conflicts|
        invariant 0 <= j <= |task.conflicts|
        invariant forall k :: 0 <= k < j ==> task.conflicts[k] in bySlug && task.conflicts[k] != task.slug
      {
        var conflict := task.conflicts[j];
        if conflict !in bySlug {
          assert !TaskResolves(tasks, i);
          return Err(MissingConflict(task.slug));
        }
        if conflict == task.slug {
          assert !TaskResolves(tasks, i);
          return Err(SelfConflict(task.slug));
        }
        j := j + 1;
      }
      EdgesGrow(tasks, i);
      i := i + 1;
    }
    assert tasks[..i] == tasks;
    EdgesInside(tasks);
    r := SearchCycles(graph, bySlug);
  }

  /** The loop that starts a visit at every slug in order. */
  method SearchCycles(graph: Adjacency, bySlug: set<Id>) returns (r: Result<(), GraphError>)
    requires EdgesWithin(EdgesOf(graph), bySlug)
    ensures r == if Acyclic(EdgesOf(graph)) then Ok(()) else Err(CycleFound)
  {
    var search := new CycleSearch(graph, bySlug);
    var slugs := Sorted(bySlug);
    var i := 0;
    while i < |slugs|
      invariant 0 <= i <= |slugs|
      invariant search.Valid() && search.visiting == {} && search.graph == graph && search.nodes == bySlug
      invariant forall j :: 0 <= j < i ==> slugs[j] in search.visited
    {
      var ok := search.Visit(slugs[i]);
      if !ok {
        return Err(CycleFound);
      }
      i := i + 1;
    }
    AllFinishedIsAcyclic(EdgesOf(graph), bySlug, search.visited);
    return Ok(());
  }

  lemma EdgeAdded(g: Adjacency, a: Id, b: Id)
    ensures EdgesOf(g[a := Neighbours(g, a) + {b}]) == EdgesOf(g) + {(a, b)}
  {
  }

  lemma EdgesGrow(tasks: seq<PlanTask>, i: nat)
    requires i < |tasks|
    ensures DependencyEdges(tasks[..i + 1]) ==
            DependencyEdges(tasks[..i]) + (set k | 0 <= k < |tasks[i].dependencies| :: (tasks[i].slug, tasks[i].dependencies[k]))
  {
    var longer, shorter := tasks[..i + 1], tasks[..i];
    forall e
      ensures e in DependencyEdges(longer) <==>
                e in DependencyEdges(shorter) || (exists k :: 0 <= k < |tasks[i].dependencies| && e == (tasks[i].slug, tasks[i].dependencies[k]))
    {
      if e in DependencyEdges(longer) {
        var k, d :| 0 <= k < |longer| && d in longer[k].dependencies && e == (longer[k].slug, d);
        if k < i {
          assert shorter[k] == longer[k];
        }
      }
      if e in DependencyEdges(shorter) {
        var k, d :| 0 <= k < |shorter| && d in shorter[k].dependencies && e == (shorter[k].slug, d);
        assert longer[k] == shorter[k];
      }
      if k :| 0 <= k < |tasks[i].dependencies| && e == (tasks[i].slug, tasks[i].dependencies[k]) {
        assert longer[i] == tasks[i] && tasks[i].dependencies[k] in longer[i].dependencies;
      }
    }
  }

  lemma EdgesInside(tasks: seq<PlanTask>)
    requires ReferencesResolve(tasks, |tasks|)
    ensures forall e :: e in DependencyEdges(tasks) ==> e.0 in Slugs(tasks) && e.1 in Slugs(tasks) && e.0 != e.1
  {
    forall e | e in DependencyEdges(tasks)
      ensures e.0 in Slugs(tasks) && e.1 in Slugs(tasks) && e.0 != e.1
    {
      var i, d :| 0 <= i < |tasks| && d in tasks[i].dependencies && e == (tasks[i].slug, d);
      assert TaskResolves(tasks, i);
    }
  }
}
