/** The Kahn topological sort of scripts/validate_tasks.py. */
module TaskFiles {
  import opened Common
  import opened Graphs
  import opened GraphSearch

  /** `graph` holds the dependents of each task, `reverse` its dependencies. */
  ghost predicate Mirrored(graph: Adjacency, reverse: Adjacency) {
    forall a, b :: a in Neighbours(graph, b) <==> b in Neighbours(reverse, a)
  }

  /** The dependencies of `n` that are not done. */
  function Open(reverse: Adjacency, n: Id, done: set<Id>): set<Id> {
    Neighbours(reverse, n) - done
  }

  /** Every node's counter is the number of its dependencies that are not done. */
  ghost predicate Counted(nodes: set<Id>, reverse: Adjacency, indegree: map<Id, int>, done: set<Id>) {
    indegree.Keys == nodes && forall n :: n in nodes ==> indegree[n] == |Open(reverse, n, done)|
  }

  /** Counters while the dependents of `slug` in `served` have been told that it is done. */
  ghost predicate PartlyCounted(nodes: set<Id>, reverse: Adjacency, indegree: map<Id, int>, done: set<Id>, served: set<Id>) {
    && indegree.Keys == nodes
    && forall n :: n in nodes ==> indegree[n] == |Open(reverse, n, done)| - (if n in served then 1 else 0)
  }

  /** The nodes queued or visited are, once each, those whose counter is zero. */
  ghost predicate Scheduled(nodes: set<Id>, indegree: map<Id, int>, order: seq<Id>) {
    && indegree.Keys == nodes
    && (forall i, j :: 0 <= i < j < |order| ==> order[i] != order[j])
    && (forall n :: n in order <==> n in nodes && indegree[n] == 0)
  }

  ghost predicate DependenciesFirst(reverse: Adjacency, order: seq<Id>) {
    forall i, d :: 0 <= i < |order| && d in Neighbours(reverse, order[i]) ==> d in order[..i]
  }

  lemma OneFewer(reverse: Adjacency, n: Id, done: set<Id>, slug: Id)
    requires slug !in done
    ensures |Open(reverse, n, done + {slug})| == |Open(reverse, n, done)| - (if slug in Neighbours(reverse, n) then 1 else 0)
  {
    if slug in Neighbours(reverse, n) {
      assert Open(reverse, n, done) == Open(reverse, n, done + {slug}) + {slug};
    } else {
      assert Open(reverse, n, done) == Open(reverse, n, done + {slug});
    }
  }

  /** After the inner loop every counter reflects that `slug` is done. */
  lemma ServedAll(nodes: set<Id>, graph: Adjacency, reverse: Adjacency, indegree: map<Id, int>, done: set<Id>, slug: Id)
    requires Mirrored(graph, reverse) && slug !in done
    requires PartlyCounted(nodes, reverse, indegree, done, Neighbours(graph, slug))
    ensures Counted(nodes, reverse, indegree, done + {slug})
  {
    forall n | n in nodes
      ensures indegree[n] == |Open(reverse, n, done + {slug})|
    {
      OneFewer(reverse, n, done, slug);
    }
  }

  /** A node with no open dependency has all of them among the visited ones. */
  lemma NothingOpen(reverse: Adjacency, n: Id, done: set<Id>)
    requires |Open(reverse, n, done)| == 0
    ensures Neighbours(reverse, n) <= done
  {
    forall d | d in Neighbours(reverse, n)
      ensures d in done
    {
      assert d in done || d in Open(reverse, n, done);
    }
  }

  lemma ServeOneCount(nodes: set<Id>, reverse: Adjacency, indegree: map<Id, int>, done: set<Id>, served: set<Id>, next: Id)
    requires PartlyCounted(nodes, reverse, indegree, done, served) && next in nodes && next !in served
    ensures PartlyCounted(nodes, reverse, indegree[next := indegree[next] - 1], done, served + {next})
    ensures indegree[next] == |Open(reverse, next, done)|
  {
  }

  lemma ServeOneSchedule(nodes: set<Id>, indegree: map<Id, int>, order: seq<Id>, next: Id)
    requires Scheduled(nodes, indegree, order) && next in nodes && indegree[next] > 0
    ensures var less := indegree[next := indegree[next] - 1];
            Scheduled(nodes, less, if less[next] == 0 then order + [next] else order)
  {
    assert next !in order;
  }

  /** One turn of the outer loop: tell every dependent of `slug` that it is done. */
  method Serve(nodes: set<Id>, graph: Adjacency, reverse: Adjacency, counters: map<Id, int>, visited: seq<Id>, queued: seq<Id>, slug: Id)
    returns (indegree: map<Id, int>, queue: seq<Id>)
    requires Mirrored(graph, reverse) && slug in nodes && slug !in visited
    requires forall n :: n in Neighbours(graph, slug) ==> n in nodes
    requires Counted(nodes, reverse, counters, Elements(visited))
    requires Scheduled(nodes, counters, visited + [slug] + queued)
    ensures Counted(nodes, reverse, indegree, Elements(visited) + {slug})
    ensures Scheduled(nodes, indegree, visited + [slug] + queue)
    ensures queued <= queue
  {
    hide Scheduled, Mirrored, Neighbours, Open;
    indegree, queue := counters, queued;
    var dependents := Sorted(Neighbours(graph, slug));
    ghost var done := Elements(visited);
    ghost var served: set<Id> := {};
    var i := 0;
    while i < |dependents|
      invariant 0 <= i <= |dependents|
      invariant served == Elements(dependents[..i])
      invariant PartlyCounted(nodes, reverse, indegree, done, served)
      invariant Scheduled(nodes, indegree, visited + [slug] + queue)
      invariant queued <= queue
    {
      var next := dependents[i];
      StillOpen(graph, reverse, next, done, slug);
      ServeOneCount(nodes, reverse, indegree, done, served, next);
      ServeOneSchedule(nodes, indegree, visited + [slug] + queue, next);
      indegree := indegree[next := indegree[next] - 1];
      if indegree[next] == 0 {
        assert visited + [slug] + (queue + [next]) == visited + [slug] + queue + [next];
        queue := queue + [next];
      }
      assert Elements(dependents[..i + 1]) == served + {next};
      served := served + {next};
      i := i + 1;
    }
    assert served == Neighbours(graph, slug);
    ServedAll(nodes, graph, reverse, indegree, done, slug);
  }

  lemma StillOpen(graph: Adjacency, reverse: Adjacency, n: Id, done: set<Id>, slug: Id)
    requires Mirrored(graph, reverse) && n in Neighbours(graph, slug) && slug !in done
    ensures |Open(reverse, n, done)| > 0
  {
    assert slug in Open(reverse, n, done);
  }

  /**
   * Kahn's loop. It visits tasks after all their dependencies, visits every task exactly when
   * the dependencies have no cycle, and leaves with a positive counter exactly the tasks it
   * did not visit, each of which depends on another of them.
   */
  method KahnSort(nodes: set<Id>, graph: Adjacency, reverse: Adjacency) returns (visited: seq<Id>, indegree: map<Id, int>)
    requires Mirrored(graph, reverse) && EdgesWithin(EdgesOf(reverse), nodes)
    ensures Topological(EdgesOf(reverse), visited)
    ensures Elements(visited) <= nodes && |visited| == |Elements(visited)|
    ensures |visited| == |nodes| <==> Acyclic(EdgesOf(reverse))
    ensures indegree.Keys == nodes && forall n :: n in nodes ==> (indegree[n] > 0 <==> n !in visited)
    ensures forall n :: n in nodes && n !in visited ==> DependsOnLeftover(EdgesOf(reverse), nodes, visited, n)
  {
    hide EdgesOf, Topological, DependsOnLeftover, Acyclic, Mirrored, Scheduled, Counted, DependenciesFirst, EdgesWithin, Neighbours, Elements;
    indegree := map n | n in nodes :: |Neighbours(reverse, n)|;
    var queue := Sorted(set n | n in nodes && indegree[n] == 0);
    visited := [];
    Initial(nodes, reverse, indegree, queue);
    while queue != []
      invariant Counted(nodes, reverse, indegree, Elements(visited))
      invariant Scheduled(nodes, indegree, visited + queue)
      invariant DependenciesFirst(reverse, visited)
      decreases |nodes| - |visited|
    {
      var slug := queue[0];
      assert visited + queue == visited + [slug] + queue[1..];
      SlugIsNew(nodes, indegree, visited, queue);
      SlugIsReady(nodes, reverse, indegree, visited, slug);
      DependentsInside(nodes, graph, reverse, slug);
      indegree, queue := Serve(nodes, graph, reverse, indegree, visited, queue[1..], slug);
      AppendReady(reverse, visited, slug);
      ElementsGrow(visited, slug);
      visited := visited + [slug];
      VisitedFits(nodes, indegree, visited, queue);
    }
    assert visited + queue == visited;
    ConcludeOrder(nodes, reverse, indegree, visited);
    ConcludeLeftover(nodes, reverse, indegree, visited);
    ConcludeCycle(nodes, reverse, visited);
  }

  lemma ElementsGrow(s: seq<Id>, x: Id)
    ensures Elements(s + [x]) == Elements(s) + {x}
  {
  }

  lemma Initial(nodes: set<Id>, reverse: Adjacency, indegree: map<Id, int>, queue: seq<Id>)
    requires indegree == map n | n in nodes :: |Neighbours(reverse, n)|
    requires forall x :: x in queue <==> x in nodes && indegree[x] == 0
    requires forall i, j :: 0 <= i < j < |queue| ==> queue[i] != queue[j]
    ensures Counted(nodes, reverse, indegree, Elements([])) && Scheduled(nodes, indegree, [] + queue)
    ensures DependenciesFirst(reverse, [])
  {
    assert [] + queue == queue;
    forall n | n in nodes
      ensures indegree[n] == |Open(reverse, n, Elements([]))|
    {
      assert Open(reverse, n, Elements([])) == Neighbours(reverse, n);
    }
  }

  lemma SlugIsReady(nodes: set<Id>, reverse: Adjacency, indegree: map<Id, int>, visited: seq<Id>, slug: Id)
    requires Counted(nodes, reverse, indegree, Elements(visited)) && slug in nodes && indegree[slug] == 0
    ensures Neighbours(reverse, slug) <= Elements(visited)
  {
    NothingOpen(reverse, slug, Elements(visited));
  }

  lemma SlugIsNew(nodes: set<Id>, indegree: map<Id, int>, visited: seq<Id>, queue: seq<Id>)
    requires queue != [] && Scheduled(nodes, indegree, visited + queue)
    ensures indegree.Keys == nodes
    ensures queue[0] in nodes && indegree[queue[0]] == 0 && queue[0] !in visited
  {
    var order := visited + queue;
    assert order[|visited|] == queue[0];
    assert queue[0] in order;
    forall i | 0 <= i < |visited|
      ensures visited[i] != queue[0]
    {
      assert order[i] == visited[i];
    }
  }

  lemma DependentsInside(nodes: set<Id>, graph: Adjacency, reverse: Adjacency, slug: Id)
    requires Mirrored(graph, reverse) && EdgesWithin(EdgesOf(reverse), nodes)
    ensures forall n :: n in Neighbours(graph, slug) ==> n in nodes
  {
    forall n | n in Neighbours(graph, slug)
      ensures n in nodes
    {
      NeighbourIsEdge(reverse, n, slug);
      assert (n, slug).0 in nodes;
    }
  }

  lemma AppendReady(reverse: Adjacency, visited: seq<Id>, slug: Id)
    requires DependenciesFirst(reverse, visited) && Neighbours(reverse, slug) <= Elements(visited)
    ensures DependenciesFirst(reverse, visited + [slug])
  {
    var order := visited + [slug];
    forall i, d | 0 <= i < |order| && d in Neighbours(reverse, order[i])
      ensures d in order[..i]
    {
      if i < |visited| {
        assert order[..i] == visited[..i];
      } else {
        assert order[..i] == visited;
      }
    }
  }

  lemma VisitedFits(nodes: set<Id>, indegree: map<Id, int>, visited: seq<Id>, queue: seq<Id>)
    requires Scheduled(nodes, indegree, visited + queue)
    ensures |visited| <= |nodes| && Elements(visited) <= nodes && |Elements(visited)| == |visited|
  {
    var order := visited + queue;
    forall i | 0 <= i < |visited|
      ensures order[i] == visited[i] && visited[i] in nodes
    {
      assert order[i] in order;
    }
    DistinctCount(visited);
    Subset(Elements(visited), nodes);
  }

  /** `n` depends on a task that was not visited either. */
  ghost predicate DependsOnLeftover(es: Edges, nodes: set<Id>, visited: seq<Id>, n: Id) {
    exists d :: (n, d) in es && d in nodes && d !in visited
  }

  lemma ConcludeOrder(nodes: set<Id>, reverse: Adjacency, indegree: map<Id, int>, visited: seq<Id>)
    requires Scheduled(nodes, indegree, visited) && DependenciesFirst(reverse, visited)
    ensures Topological(EdgesOf(reverse), visited)
    ensures Elements(visited) <= nodes && |visited| == |Elements(visited)|
  {
    hide EdgesOf, Neighbours;
    assert visited + [] == visited;
    VisitedFits(nodes, indegree, visited, []);
    forall i, y | 0 <= i < |visited| && (visited[i], y) in EdgesOf(reverse)
      ensures y in visited[..i]
    {
      NeighbourIsEdge(reverse, visited[i], y);
    }
  }

  lemma ConcludeLeftover(nodes: set<Id>, reverse: Adjacency, indegree: map<Id, int>, visited: seq<Id>)
    requires EdgesWithin(EdgesOf(reverse), nodes)
    requires Counted(nodes, reverse, indegree, Elements(visited)) && Scheduled(nodes, indegree, visited)
    ensures indegree.Keys == nodes && forall n :: n in nodes ==> (indegree[n] > 0 <==> n !in visited)
    ensures forall n :: n in nodes && n !in visited ==> DependsOnLeftover(EdgesOf(reverse), nodes, visited, n)
  {
    hide EdgesOf, Neighbours;
    forall n | n in nodes && n !in visited
      ensures DependsOnLeftover(EdgesOf(reverse), nodes, visited, n)
    {
      assert indegree[n] != 0;
      var d :| d in Open(reverse, n, Elements(visited));
      NeighbourIsEdge(reverse, n, d);
      assert (n, d).1 in nodes;
    }
  }

  lemma ConcludeCycle(nodes: set<Id>, reverse: Adjacency, visited: seq<Id>)
    requires EdgesWithin(EdgesOf(reverse), nodes)
    requires Topological(EdgesOf(reverse), visited)
    requires Elements(visited) <= nodes && |visited| == |Elements(visited)|
    requires forall n :: n in nodes && n !in visited ==> DependsOnLeftover(EdgesOf(reverse), nodes, visited, n)
    ensures |visited| == |nodes| <==> Acyclic(EdgesOf(reverse))
  {
    hide EdgesOf, Acyclic, Topological;
    var es := EdgesOf(reverse);
    var leftover := nodes - Elements(visited);
    assert nodes == Elements(visited) + leftover;
    if Acyclic(es) {
      if leftover != {} {
        var x := AcyclicHasSink(es, leftover);
        assert false;
      }
    } else if leftover == {} {
      TopologicalIsAcyclic(es, visited);
    }
  }

  // ----- the checks before the sort, and the agreement of the two detectors

  datatype FileError = UnknownDependency(slug: Id) | OwnDependency(slug: Id) | CycleInvolving(slugs: seq<Id>)

  function DeclaredEdges(tasks: map<Id, seq<Id>>): Edges {
    set slug, d | slug in tasks && d in tasks[slug] :: (slug, d)
  }

  predicate DependenciesKnown(tasks: map<Id, seq<Id>>) {
    forall slug, d :: slug in tasks && d in tasks[slug] ==> d in tasks && d != slug
  }

  lemma MirrorGrows(graph: Adjacency, reverse: Adjacency, slug: Id, dep: Id)
    requires Mirrored(graph, reverse)
    ensures Mirrored(graph[dep := Neighbours(graph, dep) + {slug}], reverse[slug := Neighbours(reverse, slug) + {dep}])
  {
    var g, r := graph[dep := Neighbours(graph, dep) + {slug}], reverse[slug := Neighbours(reverse, slug) + {dep}];
    forall a, b
      ensures a in Neighbours(g, b) <==> b in Neighbours(r, a)
    {
      assert a in Neighbours(graph, b) <==> b in Neighbours(reverse, a);
    }
  }

  /** `reverse` holds the dependencies of the tasks outside `rest`. */
  ghost predicate Loaded(tasks: map<Id, seq<Id>>, reverse: Adjacency, rest: set<Id>) {
    forall slug :: Neighbours(reverse, slug) == if slug in tasks && slug !in rest then Elements(tasks[slug]) else {}
  }

  ghost predicate KnownSoFar(tasks: map<Id, seq<Id>>, rest: set<Id>) {
    forall slug, d :: slug in tasks && slug !in rest && d in tasks[slug] ==> d in tasks && d != slug
  }

  /** The inner loop: the dependencies of one task go into both dictionaries. */
  method LoadTask(tasks: map<Id, seq<Id>>, graph0: Adjacency, reverse0: Adjacency, ghost rest: set<Id>, slug: Id)
    returns (r: Result<(Adjacency, Adjacency), FileError>)
    requires slug in tasks && slug in rest
    requires Mirrored(graph0, reverse0) && Loaded(tasks, reverse0, rest)
    ensures r.Ok? <==> forall d :: d in tasks[slug] ==> d in tasks && d != slug
    ensures r.Ok? ==> Mirrored(r.value.0, r.value.1) && Loaded(tasks, r.value.1, rest - {slug})
    ensures r.Err? ==> !r.error.CycleInvolving?
  {
    hide Mirrored;
    var graph, reverse := graph0, reverse0;
    var depends := tasks[slug];
    var i := 0;
    while i < |depends|
      invariant 0 <= i <= |depends|
      invariant Mirrored(graph, reverse)
      invariant forall d :: d in depends[..i] ==> d in tasks && d != slug
      invariant reverse == reverse0 || reverse == reverse0[slug := Elements(depends[..i])]
      invariant Neighbours(reverse, slug) == Elements(depends[..i])
    {
      var dep := depends[i];
      if dep !in tasks {
        return Err(UnknownDependency(slug));
      }
      if dep == slug {
        return Err(OwnDependency(slug));
      }
      MirrorGrows(graph, reverse, slug, dep);
      assert depends[..i + 1] == depends[..i] + [dep];
      ElementsGrow(depends[..i], dep);
      graph := graph[dep := Neighbours(graph, dep) + {slug}];
      reverse := reverse[slug := Neighbours(reverse, slug) + {dep}];
      i := i + 1;
    }
    assert depends[..i] == depends;
    return Ok((graph, reverse));
  }

  /** `main` from the dependency loop on, for tasks read in any order: normal return or the failure it exits with. */
  method Validate(tasks: map<Id, seq<Id>>) returns (r: Result<seq<Id>, FileError>)
    ensures r.Ok? <==> DependenciesKnown(tasks) && Acyclic(DeclaredEdges(tasks))
    ensures r.Ok? ==> Topological(DeclaredEdges(tasks), r.value) && Elements(r.value) == tasks.Keys
    ensures r.Err? && r.error.CycleInvolving? ==>
              DependenciesKnown(tasks) && StuckTogether(DeclaredEdges(tasks), r.error.slugs)
  {
    hide Mirrored, EdgesOf, DeclaredEdges, Acyclic, Topological, StuckTogether, Loaded;
    var graph: Adjacency := map[];
    var reverse: Adjacency := map[];
    var rest := tasks.Keys;
    LoadedNone(tasks);
    while rest != {}
      invariant rest <= tasks.Keys
      invariant Mirrored(graph, reverse) && Loaded(tasks, reverse, rest)
      invariant KnownSoFar(tasks, rest)
      decreases |rest|
    {
      var slug :| slug in rest;
      var loaded := LoadTask(tasks, graph, reverse, rest, slug);
      if loaded.Err? {
        return Err(loaded.error);
      }
      graph, reverse := loaded.value.0, loaded.value.1;
      rest := rest - {slug};
    }
    SameEdges(tasks, reverse);
    KnownWithin(tasks);
    r := Sort(tasks.Keys, graph, reverse);
  }

  lemma LoadedNone(tasks: map<Id, seq<Id>>)
    ensures Mirrored(map[], map[]) && Loaded(tasks, map[], tasks.Keys)
  {
  }

  lemma KnownWithin(tasks: map<Id, seq<Id>>)
    requires DependenciesKnown(tasks)
    ensures EdgesWithin(DeclaredEdges(tasks), tasks.Keys)
  {
  }

  lemma SameEdges(tasks: map<Id, seq<Id>>, reverse: Adjacency)
    requires Loaded(tasks, reverse, {})
    ensures EdgesOf(reverse) == DeclaredEdges(tasks)
  {
    forall e
      ensures e in EdgesOf(reverse) <==> e in DeclaredEdges(tasks)
    {
      NeighbourIsEdge(reverse, e.0, e.1);
      assert e == (e.0, e.1);
      assert e.1 in Neighbours(reverse, e.0) <==> e.0 in tasks && e.1 in tasks[e.0];
    }
  }

  /** The reported tasks each depend on another of them, so they contain or await a cycle. */
  ghost predicate StuckTogether(es: Edges, slugs: seq<Id>) {
    slugs != [] && forall n :: n in slugs ==> exists d :: (n, d) in es && d in slugs
  }

  /** The sort and the report of the tasks it could not place. */
  method Sort(nodes: set<Id>, graph: Adjacency, reverse: Adjacency) returns (r: Result<seq<Id>, FileError>)
    requires Mirrored(graph, reverse) && EdgesWithin(EdgesOf(reverse), nodes)
    ensures r.Ok? <==> Acyclic(EdgesOf(reverse))
    ensures r.Ok? ==> Topological(EdgesOf(reverse), r.value) && Elements(r.value) == nodes
    ensures r.Err? ==> r.error.CycleInvolving? && StuckTogether(EdgesOf(reverse), r.error.slugs)
  {
    hide EdgesOf, Acyclic, Topological, Mirrored, EdgesWithin, StuckTogether, DependsOnLeftover, Elements, Neighbours;
    var visited, indegree := KahnSort(nodes, graph, reverse);
    SameSize(nodes, visited);
    if |visited| != |nodes| {
      var cycleNodes := Sorted(set n | n in nodes && indegree[n] > 0);
      Stuck(EdgesOf(reverse), nodes, visited, cycleNodes);
      return Err(CycleInvolving(cycleNodes));
    }
    return Ok(visited);
  }

  lemma SameSize(nodes: set<Id>, visited: seq<Id>)
    requires Elements(visited) <= nodes && |visited| == |Elements(visited)|
    ensures |visited| == |nodes| <==> Elements(visited) == nodes
  {
    assert nodes == Elements(visited) + (nodes - Elements(visited));
  }

  lemma LeftoverIsListed(es: Edges, nodes: set<Id>, visited: seq<Id>, slugs: seq<Id>, n: Id)
    requires forall m :: m in slugs <==> m in nodes && m !in visited
    requires DependsOnLeftover(es, nodes, visited, n)
    ensures exists d :: (n, d) in es && d in slugs
  {
    var d :| (n, d) in es && d in nodes && d !in visited;
    assert d in slugs;
  }

  lemma Stuck(es: Edges, nodes: set<Id>, visited: seq<Id>, slugs: seq<Id>)
    requires Elements(visited) <= nodes && Elements(visited) != nodes
    requires forall n :: n in slugs <==> n in nodes && n !in visited
    requires forall n :: n in nodes && n !in visited ==> DependsOnLeftover(es, nodes, visited, n)
    ensures StuckTogether(es, slugs)
  {
    hide DependsOnLeftover;
    var leftover := nodes - Elements(visited);
    assert nodes == Elements(visited) + leftover;
    var x :| x in leftover;
    assert x in slugs;
    forall n | n in slugs
      ensures exists d :: (n, d) in es && d in slugs
    {
      LeftoverIsListed(es, nodes, visited, slugs, n);
    }
  }

  /** The dependencies of a source plan as the task files declare them. */
  ghost predicate SamePlan(tasks: map<Id, seq<Id>>, plan: seq<PlanTask>) {
    tasks.Keys == Slugs(plan) && DeclaredEdges(tasks) == DependencyEdges(plan)
  }

  predicate ConflictsResolve(plan: seq<PlanTask>) {
    forall i, c :: 0 <= i < |plan| && c in plan[i].conflicts ==> c in Slugs(plan) && c != plan[i].slug
  }

  /**
   * On one dependency graph the recursive search accepts exactly what Kahn's loop sorts
   * completely, up to the conflict references only the former looks at.
   */
  method DetectorsAgree(tasks: map<Id, seq<Id>>, plan: seq<PlanTask>) returns (dfs: bool, kahn: bool)
    requires SamePlan(tasks, plan)
    ensures dfs <==> kahn && ConflictsResolve(plan)
    ensures dfs <==> AcceptedPlan(plan)
  {
    hide DeclaredEdges, DependencyEdges, Acyclic, Topological, ReferencesResolve, ConflictsResolve, DependenciesKnown;
    var accepted := ValidateGraph(plan);
    var sorted := Validate(tasks);
    dfs, kahn := accepted.Ok?, sorted.Ok?;
    SameReferences(tasks, plan);
  }

  lemma SameReferences(tasks: map<Id, seq<Id>>, plan: seq<PlanTask>)
    requires SamePlan(tasks, plan)
    ensures ReferencesResolve(plan, |plan|) <==> DependenciesKnown(tasks) && ConflictsResolve(plan)
  {
    if ReferencesResolve(plan, |plan|) {
      ResolvedIsKnown(tasks, plan);
    }
    if DependenciesKnown(tasks) && ConflictsResolve(plan) {
      KnownIsResolved(tasks, plan);
    }
  }

  lemma ResolvedIsKnown(tasks: map<Id, seq<Id>>, plan: seq<PlanTask>)
    requires SamePlan(tasks, plan) && ReferencesResolve(plan, |plan|)
    ensures DependenciesKnown(tasks) && ConflictsResolve(plan)
  {
    EdgesInside(plan);
    forall slug, d | slug in tasks && d in tasks[slug]
      ensures d in tasks && d != slug
    {
      assert (slug, d) in DeclaredEdges(tasks);
      assert (slug, d).1 in Slugs(plan) && (slug, d).0 != (slug, d).1;
    }
    forall i, c | 0 <= i < |plan| && c in plan[i].conflicts
      ensures c in Slugs(plan) && c != plan[i].slug
    {
      assert TaskResolves(plan, i);
    }
  }

  lemma KnownIsResolved(tasks: map<Id, seq<Id>>, plan: seq<PlanTask>)
    requires SamePlan(tasks, plan) && DependenciesKnown(tasks) && ConflictsResolve(plan)
    ensures ReferencesResolve(plan, |plan|)
  {
    forall i | 0 <= i < |plan|
      ensures TaskResolves(plan, i)
    {
      forall d | d in plan[i].dependencies
        ensures d in Slugs(plan) && d != plan[i].slug
      {
        assert (plan[i].slug, d) in DependencyEdges(plan);
        assert (plan[i].slug, d) in DeclaredEdges(tasks);
      }
      forall c | c in plan[i].conflicts
        ensures c in Slugs(plan) && c != plan[i].slug
      {
      }
    }
  }
}
