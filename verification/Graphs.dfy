/** Dependency graphs as finite sets of edges (task, prerequisite): reachability and cycles. */
module Graphs {
  import opened Common

  type Edges = set<(Id, Id)>

  ghost predicate Path(es: Edges, p: seq<Id>) {
    p != [] && forall i :: 0 <= i < |p| - 1 ==> (p[i], p[i + 1]) in es
  }

  ghost predicate PathFrom(es: Edges, p: seq<Id>, a: Id, b: Id) {
    Path(es, p) && p[0] == a && p[|p| - 1] == b
  }

  /** Reachability by zero or more edges. */
  ghost predicate Reach(es: Edges, a: Id, b: Id) {
    exists p :: PathFrom(es, p, a, b)
  }

  /** No edge lies on a cycle. */
  ghost predicate Acyclic(es: Edges) {
    forall e :: e in es ==> !Reach(es, e.1, e.0)
  }

  lemma ReachSelf(es: Edges, a: Id)
    ensures Reach(es, a, a)
  {
    assert PathFrom(es, [a], a, a);
  }

  lemma ReachFirst(es: Edges, a: Id, b: Id, c: Id)
    requires (a, b) in es && Reach(es, b, c)
    ensures Reach(es, a, c)
  {
    var p :| PathFrom(es, p, b, c);
    assert PathFrom(es, [a] + p, a, c);
  }

  lemma ReachLast(es: Edges, a: Id, b: Id, c: Id)
    requires Reach(es, a, b) && (b, c) in es
    ensures Reach(es, a, c)
  {
    var p :| PathFrom(es, p, a, b);
    assert PathFrom(es, p + [c], a, c);
  }

  lemma ReachTransitive(es: Edges, a: Id, b: Id, c: Id)
    requires Reach(es, a, b) && Reach(es, b, c)
    ensures Reach(es, a, c)
  {
    var p :| PathFrom(es, p, a, b);
    var q :| PathFrom(es, q, b, c);
    var r := p + q[1..];
    forall i | 0 <= i < |r| - 1
      ensures (r[i], r[i + 1]) in es
    {
      if i >= |p| - 1 {
        assert r[i] == q[i - (|p| - 1)];
      }
    }
    assert PathFrom(es, r, a, c);
  }

  /** The first step of a path that is not a single node. */
  lemma FirstStep(es: Edges, p: seq<Id>, a: Id, b: Id)
    requires PathFrom(es, p, a, b) && |p| > 1
    ensures (a, p[1]) in es && PathFrom(es, p[1..], p[1], b)
  {
  }

  lemma ReachMonotone(es: Edges, fs: Edges, a: Id, b: Id)
    requires es <= fs && Reach(es, a, b)
    ensures Reach(fs, a, b)
  {
    var p :| PathFrom(es, p, a, b);
    assert PathFrom(fs, p, a, b);
  }

  lemma AcyclicSubset(es: Edges, fs: Edges)
    requires es <= fs && Acyclic(fs)
    ensures Acyclic(es)
  {
    forall e | e in es
      ensures !Reach(es, e.1, e.0)
    {
      if Reach(es, e.1, e.0) {
        ReachMonotone(es, fs, e.1, e.0);
      }
    }
  }

  /** Acyclic graphs are exactly those without a closed path. */
  lemma AcyclicMeansNoClosedPath(es: Edges)
    ensures Acyclic(es) <==> forall p :: Path(es, p) && |p| > 1 ==> p[0] != p[|p| - 1]
  {
    if Acyclic(es) {
      forall p | Path(es, p) && |p| > 1
        ensures p[0] != p[|p| - 1]
      {
        FirstStep(es, p, p[0], p[|p| - 1]);
        assert Reach(es, p[1], p[|p| - 1]);
        assert !Reach(es, (p[0], p[1]).1, (p[0], p[1]).0);
      }
    } else {
      var e :| e in es && Reach(es, e.1, e.0);
      var p :| PathFrom(es, p, e.1, e.0);
      var q := [e.0] + p;
      assert e == (e.0, e.1);
      assert Path(es, q) && |q| > 1 && q[0] == q[|q| - 1];
    }
  }

  /** A path that may use the edge `(t, d)` avoids it or passes through it. */
  lemma {:induction false} ThroughEdge(es: Edges, t: Id, d: Id, p: seq<Id>, a: Id, b: Id)
    requires PathFrom(es + {(t, d)}, p, a, b)
    ensures Reach(es, a, b) || (Reach(es, a, t) && Reach(es, d, b))
    decreases |p|
  {
    if |p| == 1 {
      ReachSelf(es, a);
    } else {
      var x := p[1];
      FirstStep(es + {(t, d)}, p, a, b);
      ThroughEdge(es, t, d, p[1..], x, b);
      if (a, x) in es {
        if Reach(es, x, b) {
          ReachFirst(es, a, x, b);
        } else {
          ReachFirst(es, a, x, t);
        }
      } else {
        ReachSelf(es, t);
      }
    }
  }

  /** Testing for a cycle with the candidate edge already inserted answers the same. */
  lemma CandidateEdgeIrrelevant(es: Edges, t: Id, d: Id)
    ensures Reach(es + {(t, d)}, d, t) <==> Reach(es, d, t)
  {
    if Reach(es + {(t, d)}, d, t) {
      var p :| PathFrom(es + {(t, d)}, p, d, t);
      ThroughEdge(es, t, d, p, d, t);
    }
    if Reach(es, d, t) {
      ReachMonotone(es, es + {(t, d)}, d, t);
    }
  }

  /** An edge closes a cycle exactly when its prerequisite already reaches its task. */
  lemma EdgeClosesCycleIff(es: Edges, t: Id, d: Id)
    requires Acyclic(es)
    ensures Acyclic(es + {(t, d)}) <==> !Reach(es, d, t)
  {
    var fs := es + {(t, d)};
    CandidateEdgeIrrelevant(es, t, d);
    if Reach(es, d, t) {
      assert (t, d) in fs && Reach(fs, (t, d).1, (t, d).0);
    } else {
      forall e | e in fs
        ensures !Reach(fs, e.1, e.0)
      {
        if Reach(fs, e.1, e.0) {
          var p :| PathFrom(fs, p, e.1, e.0);
          ThroughEdge(es, t, d, p, e.1, e.0);
          if e in es {
            assert e == (e.0, e.1);
            ReachFirst(es, e.0, e.1, t);
            ReachTransitive(es, d, e.0, t);
          }
        }
      }
    }
  }

  ghost predicate ClosedUnder(es: Edges, s: set<Id>) {
    forall e :: e in es && e.0 in s ==> e.1 in s
  }

  lemma {:induction false} ReachStaysInside(es: Edges, s: set<Id>, p: seq<Id>, a: Id, b: Id)
    requires ClosedUnder(es, s) && a in s && PathFrom(es, p, a, b)
    ensures b in s
    decreases |p|
  {
    if |p| > 1 {
      FirstStep(es, p, a, b);
      assert (a, p[1]).1 in s;
      ReachStaysInside(es, s, p[1..], p[1], b);
    }
  }

  lemma ClosedContainsReachable(es: Edges, s: set<Id>, a: Id, b: Id)
    requires ClosedUnder(es, s) && a in s && Reach(es, a, b)
    ensures b in s
  {
    var p :| PathFrom(es, p, a, b);
    ReachStaysInside(es, s, p, a, b);
  }

  /** In an acyclic graph every nonempty set of nodes has a member with no prerequisite in it. */
  lemma {:induction false} AcyclicHasSink(es: Edges, nodes: set<Id>) returns (x: Id)
    requires Acyclic(es) && nodes != {}
    ensures x in nodes && forall y :: (x, y) in es ==> y !in nodes
    decreases |nodes|
  {
    x :| x in nodes;
    if y :| y in nodes && (x, y) in es {
      assert !Reach(es, (x, y).1, (x, y).0);
      var below := set z | z in nodes && Reach(es, y, z);
      ReachSelf(es, y);
      assert y in below;
      assert below <= nodes - {x};
      Smaller(below, nodes, x);
      x := AcyclicHasSink(es, below);
      forall w | (x, w) in es
        ensures w !in nodes
      {
        if w in nodes {
          ReachLast(es, y, x, w);
        }
      }
    }
  }

  function Elements(s: seq<Id>): set<Id> {
    set x | x in s
  }

  lemma {:induction false} DistinctCount(s: seq<Id>)
    requires forall i, j :: 0 <= i < j < |s| ==> s[i] != s[j]
    ensures |Elements(s)| == |s|
  {
    if s != [] {
      var n := |s| - 1;
      DistinctCount(s[..n]);
      assert s[n] !in s[..n];
      assert Elements(s) == Elements(s[..n]) + {s[n]};
    }
  }

  lemma Smaller<T>(s: set<T>, t: set<T>, x: T)
    requires s <= t - {x} && x in t
    ensures |s| < |t|
  {
    Subset(s, t - {x});
  }

  lemma {:induction false} Subset<T>(s: set<T>, t: set<T>)
    requires s <= t
    ensures |s| <= |t|
  {
    if s != {} {
      var x :| x in s;
      Subset(s - {x}, t - {x});
    }
  }

  // ----- orders

  /** Prerequisites come strictly earlier in `order`, which lists the sources of all edges. */
  ghost predicate Topological(es: Edges, order: seq<Id>) {
    && (forall i, j :: 0 <= i < j < |order| ==> order[i] != order[j])
    && (forall i, y :: 0 <= i < |order| && (order[i], y) in es ==> y in order[..i])
  }

  lemma {:induction false} ReachGoesBack(es: Edges, order: seq<Id>, p: seq<Id>, a: Id, i: nat, b: Id)
    requires Topological(es, order) && PathFrom(es, p, a, b)
    requires i < |order| && order[i] == a
    ensures b in order[..i + 1]
    decreases |p|
  {
    if |p| > 1 {
      FirstStep(es, p, a, b);
      assert p[1] in order[..i];
      var j :| 0 <= j < i && order[j] == p[1];
      ReachGoesBack(es, order, p[1..], p[1], j, b);
      assert order[..j + 1] <= order[..i + 1];
    }
  }

  /** A graph whose tasks can all be listed after their prerequisites has no cycle. */
  lemma TopologicalIsAcyclic(es: Edges, order: seq<Id>)
    requires Topological(es, order) && forall e :: e in es ==> e.0 in order
    ensures Acyclic(es)
  {
    forall e | e in es
      ensures !Reach(es, e.1, e.0)
    {
      var i :| 0 <= i < |order| && order[i] == e.0;
      assert (order[i], e.1) == e;
      var j :| 0 <= j < i && order[j] == e.1;
      if Reach(es, e.1, e.0) {
        var p :| PathFrom(es, p, e.1, e.0);
        ReachGoesBack(es, order, p, e.1, j, e.0);
      }
    }
  }
}
