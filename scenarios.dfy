/**
 * Concrete graphs, each with its degrees, its verdict and the walk the
 * first-available rule takes on it: the graph `main` builds, a triangle, a
 * path, a star, two disjoint triangles, and two triangles sharing a node (a
 * "bowtie") where the walk stops with edges left. Node `i` carries label
 * `i + 1`.
 *
 * Neighbours are taken in edge-list order. Each edge list is written so that,
 * at every step of its walk, the first edge in list order at the current node
 * is also the first one petgraph enumerates (outgoing edges newest first,
 * then incoming ones): the edges of `main`'s graph are listed newest first,
 * and the bowtie's fourth edge is written from label 4 to label 2.
 */
module Scenarios {
  import opened UnGraphs
  import opened Eulerian
  import opened Fleury

  /** One step of `Walk`, with the neighbour, the edge index and the smaller
      edge list given explicitly. */
  lemma WalkStepAt(edges: seq<Edge>, a: nat, b: nat, k: nat, smaller: seq<Edge>)
    requires Neighbours(edges, a) != [] && Neighbours(edges, a)[0] == b
    requires FindEdge(edges, a, b) == Some(k) && k < |edges| && smaller == Without(edges, k)
    ensures Walk(edges, a) == Run([Step(a, b, edges[k])] + Walk(smaller, b).steps, Walk(smaller, b).rest, Walk(smaller, b).last)
  {
    WalkUnfolds(edges, a);
  }

  /** The positions below `n` of the odd entries of `ds`, in increasing order. */
  function OddPositions(ds: seq<nat>, n: nat): seq<nat>
    requires n <= |ds|
  {
    if n == 0 then [] else OddPositions(ds, n - 1) + (if IsOdd(ds[n - 1]) then [n - 1] else [])
  }

  /** With `ds` the degree of every node, the odd-degree nodes are the
      positions of the odd entries of `ds`. */
  lemma OddNodesAre(g: Graph, ds: seq<nat>)
    requires |ds| == |g.labels| && forall x :: 0 <= x < |ds| ==> Degree(g, x) == ds[x]
    ensures OddDegreeNodes(g) == OddPositions(ds, |ds|)
  {
    OddBelowPositions(g, ds, |ds|);
  }

  lemma {:induction false} OddBelowPositions(g: Graph, ds: seq<nat>, n: nat)
    requires n <= |ds| && forall x :: 0 <= x < |ds| ==> Degree(g, x) == ds[x]
    ensures OddBelow(g, n) == OddPositions(ds, n)
  {
    if n > 0 {
      OddBelowPositions(g, ds, n - 1);
    }
  }

  /** An edge list counts at least the endpoints of any one of its edges. */
  lemma {:induction false} OneEnd(edges: seq<Edge>, k: nat, x: nat)
    requires k < |edges|
    ensures EndpointCount(edges, x) >= EndsAt(edges[k], x)
  {
    if k > 0 {
      OneEnd(edges[1..], k - 1, x);
    }
  }

  /** ... and at least the endpoints of any two distinct edges. */
  lemma {:induction false} TwoEnds(edges: seq<Edge>, j: nat, k: nat, x: nat)
    requires j < |edges| && k < |edges| && j != k
    ensures EndpointCount(edges, x) >= EndsAt(edges[j], x) + EndsAt(edges[k], x)
  {
    if j == 0 {
      OneEnd(edges[1..], k - 1, x);
    } else if k == 0 {
      OneEnd(edges[1..], j - 1, x);
    } else {
      TwoEnds(edges[1..], j - 1, k - 1, x);
    }
  }

  /** A node on a cycle has degree at least 2: the cycle arrives at it and
      leaves it by two different edges, or by one self-loop. */
  lemma NodeOnCycle(edges: seq<Edge>, ids: seq<nat>, path: seq<nat>, i: nat)
    requires IsCycle(edges, ids, path) && i < |ids|
    ensures EndpointCount(edges, path[i]) >= 2
  {
    var p := if i == 0 then |ids| - 1 else i - 1;
    assert Joins(edges[ids[p]], path[p], path[p + 1]) && path[p + 1] == path[i];
    assert Joins(edges[ids[i]], path[i], path[i + 1]);
    if p == i {
      OneEnd(edges, ids[i], path[i]);
    } else {
      TwoEnds(edges, ids[p], ids[i], path[i]);
    }
  }

  /** Step `i` of a cycle uses an edge whose two ends both have degree at
      least 2. */
  lemma CycleStep(edges: seq<Edge>, ids: seq<nat>, path: seq<nat>, i: nat)
    requires IsCycle(edges, ids, path) && i < |ids|
    ensures ids[i] < |edges| && Joins(edges[ids[i]], path[i], path[i + 1])
    ensures EndpointCount(edges, path[i]) >= 2 && EndpointCount(edges, path[i + 1]) >= 2
  {
    NodeOnCycle(edges, ids, path, i);
    NodeOnCycle(edges, ids, path, if i + 1 < |ids| then i + 1 else 0);
  }

  // The graph built by `main`.

  /** The graph built in `main`: six nodes, eight edges, listed newest first. */
  function MainGraph(): Graph {
    Graph([1, 2, 3, 4, 5, 6],
          [Edge(3, 5), Edge(1, 4), Edge(1, 2), Edge(0, 5), Edge(0, 4), Edge(0, 3), Edge(0, 2), Edge(0, 1)])
  }

  /** Every edge of the graph joins two of its 6 nodes. */
  lemma MainValid(g: Graph)
    requires g == MainGraph()
    ensures ValidGraph(g)
  {
    assert g.edges == [Edge(3, 5), Edge(1, 4), Edge(1, 2), Edge(0, 5), Edge(0, 4), Edge(0, 3), Edge(0, 2), Edge(0, 1)];
  }

  lemma MainEndpoints0(edges: seq<Edge>)
    requires edges == [Edge(3, 5), Edge(1, 4), Edge(1, 2), Edge(0, 5), Edge(0, 4), Edge(0, 3), Edge(0, 2), Edge(0, 1)]
    ensures EndpointCount(edges, 0) == 5
  {
    assert EndpointCount([Edge(3, 5), Edge(1, 4), Edge(1, 2), Edge(0, 5), Edge(0, 4), Edge(0, 3), Edge(0, 2), Edge(0, 1)], 0) == 5;
  }

  lemma MainEndpoints1(edges: seq<Edge>)
    requires edges == [Edge(3, 5), Edge(1, 4), Edge(1, 2), Edge(0, 5), Edge(0, 4), Edge(0, 3), Edge(0, 2), Edge(0, 1)]
    ensures EndpointCount(edges, 1) == 3
  {
    assert EndpointCount([Edge(3, 5), Edge(1, 4), Edge(1, 2), Edge(0, 5), Edge(0, 4), Edge(0, 3), Edge(0, 2), Edge(0, 1)], 1) == 3;
  }

  lemma MainEndpoints2(edges: seq<Edge>)
    requires edges == [Edge(3, 5), Edge(1, 4), Edge(1, 2), Edge(0, 5), Edge(0, 4), Edge(0, 3), Edge(0, 2), Edge(0, 1)]
    ensures EndpointCount(edges, 2) == 2
  {
    assert EndpointCount([Edge(3, 5), Edge(1, 4), Edge(1, 2), Edge(0, 5), Edge(0, 4), Edge(0, 3), Edge(0, 2), Edge(0, 1)], 2) == 2;
  }

  lemma MainEndpoints3(edges: seq<Edge>)
    requires edges == [Edge(3, 5), Edge(1, 4), Edge(1, 2), Edge(0, 5), Edge(0, 4), Edge(0, 3), Edge(0, 2), Edge(0, 1)]
    ensures EndpointCount(edges, 3) == 2
  {
    assert EndpointCount([Edge(3, 5), Edge(1, 4), Edge(1, 2), Edge(0, 5), Edge(0, 4), Edge(0, 3), Edge(0, 2), Edge(0, 1)], 3) == 2;
  }

  lemma MainEndpoints4(edges: seq<Edge>)
    requires edges == [Edge(3, 5), Edge(1, 4), Edge(1, 2), Edge(0, 5), Edge(0, 4), Edge(0, 3), Edge(0, 2), Edge(0, 1)]
    ensures EndpointCount(edges, 4) == 2
  {
    assert EndpointCount([Edge(3, 5), Edge(1, 4), Edge(1, 2), Edge(0, 5), Edge(0, 4), Edge(0, 3), Edge(0, 2), Edge(0, 1)], 4) == 2;
  }

  lemma MainEndpoints5(edges: seq<Edge>)
    requires edges == [Edge(3, 5), Edge(1, 4), Edge(1, 2), Edge(0, 5), Edge(0, 4), Edge(0, 3), Edge(0, 2), Edge(0, 1)]
    ensures EndpointCount(edges, 5) == 2
  {
    assert EndpointCount([Edge(3, 5), Edge(1, 4), Edge(1, 2), Edge(0, 5), Edge(0, 4), Edge(0, 3), Edge(0, 2), Edge(0, 1)], 5) == 2;
  }


  /** Label 1 has degree 5, label 2 degree 3, the others 2. */
  lemma MainDegrees(g: Graph)
    requires g == MainGraph()
    ensures |g.labels| == 6 && forall x :: 0 <= x < 6 ==> Degree(g, x) == [5, 3, 2, 2, 2, 2][x]
  {
    MainEndpoints0(g.edges);
    MainEndpoints1(g.edges);
    MainEndpoints2(g.edges);
    MainEndpoints3(g.edges);
    MainEndpoints4(g.edges);
    MainEndpoints5(g.edges);
  }

  lemma MainOddPositions()
    ensures OddPositions([5, 3, 2, 2, 2, 2], 6) == [0, 1]
  {
  }

  /** Labels 1 and 2 have odd degree. */
  lemma MainOddNodes(g: Graph)
    requires g == MainGraph()
    ensures OddDegreeNodes(g) == [0, 1]
  {
    MainDegrees(g);
    OddNodesAre(g, [5, 3, 2, 2, 2, 2]);
    MainOddPositions();
  }

  /** The walk starts at label 2, the odd node of lower degree. */
  lemma MainStart(g: Graph)
    requires g == MainGraph()
    ensures FleuryStartPoint(g) == 1
  {
    MainDegrees(g);
    MainOddNodes(g);
  }

  /** Labels 1, 2 and 3 form a cycle through edges 7, 2 and 6. */
  lemma MainCycle(edges: seq<Edge>)
    requires edges == MainGraph().edges
    ensures IsCycle(edges, [7, 2, 6], [0, 1, 2, 0])
  {
  }

  lemma MainCyclic(g: Graph)
    requires g == MainGraph()
    ensures IsCyclic(g)
  {
    MainCycle(g.edges);
  }

  /** From label 2 the walk uses all eight edges and ends at label 1, the other odd node. */
  lemma MainWalk(edges: seq<Edge>)
    requires edges == MainGraph().edges
    ensures Walk(edges, 1) == Run([Step(1, 4, Edge(1, 4)), Step(4, 0, Edge(0, 4)), Step(0, 5, Edge(0, 5)), Step(5, 3, Edge(3, 5)), Step(3, 0, Edge(0, 3)), Step(0, 2, Edge(0, 2)), Step(2, 1, Edge(1, 2)), Step(1, 0, Edge(0, 1))],
                                   [], 0)
  {
    MainWalkStep0(edges);
  }

  lemma MainStepQueries0(edges: seq<Edge>)
    requires edges == [Edge(3, 5), Edge(1, 4), Edge(1, 2), Edge(0, 5), Edge(0, 4), Edge(0, 3), Edge(0, 2), Edge(0, 1)]
    ensures Neighbours(edges, 1) != [] && Neighbours(edges, 1)[0] == 4
    ensures FindEdge(edges, 1, 4) == Some(1)
  {
    assert Neighbours([Edge(3, 5), Edge(1, 4), Edge(1, 2), Edge(0, 5), Edge(0, 4), Edge(0, 3), Edge(0, 2), Edge(0, 1)], 1)[0] == 4;
    assert FindEdge([Edge(3, 5), Edge(1, 4), Edge(1, 2), Edge(0, 5), Edge(0, 4), Edge(0, 3), Edge(0, 2), Edge(0, 1)], 1, 4) == Some(1);
  }

  lemma MainStepRemoval0(edges: seq<Edge>)
    requires edges == [Edge(3, 5), Edge(1, 4), Edge(1, 2), Edge(0, 5), Edge(0, 4), Edge(0, 3), Edge(0, 2), Edge(0, 1)]
    ensures 1 < |edges| && edges[1] == Edge(1, 4) && Without(edges, 1) == [Edge(3, 5), Edge(1, 2), Edge(0, 5), Edge(0, 4), Edge(0, 3), Edge(0, 2), Edge(0, 1)]
  {
  }

  lemma MainWalkStep0(edges: seq<Edge>)
    requires edges == [Edge(3, 5), Edge(1, 4), Edge(1, 2), Edge(0, 5), Edge(0, 4), Edge(0, 3), Edge(0, 2), Edge(0, 1)]
    ensures Walk(edges, 1) == Run([Step(1, 4, Edge(1, 4)), Step(4, 0, Edge(0, 4)), Step(0, 5, Edge(0, 5)), Step(5, 3, Edge(3, 5)), Step(3, 0, Edge(0, 3)), Step(0, 2, Edge(0, 2)), Step(2, 1, Edge(1, 2)), Step(1, 0, Edge(0, 1))], [], 0)
  {
    MainStepQueries0(edges);
    MainStepRemoval0(edges);
    var smaller := Without(edges, 1);
    MainWalkStep1(smaller);
    WalkStepAt(edges, 1, 4, 1, smaller);
  }

  lemma MainStepQueries1(edges: seq<Edge>)
    requires edges == [Edge(3, 5), Edge(1, 2), Edge(0, 5), Edge(0, 4), Edge(0, 3), Edge(0, 2), Edge(0, 1)]
    ensures Neighbours(edges, 4) != [] && Neighbours(edges, 4)[0] == 0
    ensures FindEdge(edges, 4, 0) == Some(3)
  {
    assert Neighbours([Edge(3, 5), Edge(1, 2), Edge(0, 5), Edge(0, 4), Edge(0, 3), Edge(0, 2), Edge(0, 1)], 4)[0] == 0;
    assert FindEdge([Edge(3, 5), Edge(1, 2), Edge(0, 5), Edge(0, 4), Edge(0, 3), Edge(0, 2), Edge(0, 1)], 4, 0) == Some(3);
  }

  lemma MainStepRemoval1(edges: seq<Edge>)
    requires edges == [Edge(3, 5), Edge(1, 2), Edge(0, 5), Edge(0, 4), Edge(0, 3), Edge(0, 2), Edge(0, 1)]
    ensures 3 < |edges| && edges[3] == Edge(0, 4) && Without(edges, 3) == [Edge(3, 5), Edge(1, 2), Edge(0, 5), Edge(0, 3), Edge(0, 2), Edge(0, 1)]
  {
  }

  lemma MainWalkStep1(edges: seq<Edge>)
    requires edges == [Edge(3, 5), Edge(1, 2), Edge(0, 5), Edge(0, 4), Edge(0, 3), Edge(0, 2), Edge(0, 1)]
    ensures Walk(edges, 4) == Run([Step(4, 0, Edge(0, 4)), Step(0, 5, Edge(0, 5)), Step(5, 3, Edge(3, 5)), Step(3, 0, Edge(0, 3)), Step(0, 2, Edge(0, 2)), Step(2, 1, Edge(1, 2)), Step(1, 0, Edge(0, 1))], [], 0)
  {
    MainStepQueries1(edges);
    MainStepRemoval1(edges);
    var smaller := Without(edges, 3);
    MainWalkStep2(smaller);
    WalkStepAt(edges, 4, 0, 3, smaller);
  }

  lemma MainStepQueries2(edges: seq<Edge>)
    requires edges == [Edge(3, 5), Edge(1, 2), Edge(0, 5), Edge(0, 3), Edge(0, 2), Edge(0, 1)]
    ensures Neighbours(edges, 0) != [] && Neighbours(edges, 0)[0] == 5
    ensures FindEdge(edges, 0, 5) == Some(2)
  {
    assert Neighbours([Edge(3, 5), Edge(1, 2), Edge(0, 5), Edge(0, 3), Edge(0, 2), Edge(0, 1)], 0)[0] == 5;
    assert FindEdge([Edge(3, 5), Edge(1, 2), Edge(0, 5), Edge(0, 3), Edge(0, 2), Edge(0, 1)], 0, 5) == Some(2);
  }

  lemma MainStepRemoval2(edges: seq<Edge>)
    requires edges == [Edge(3, 5), Edge(1, 2), Edge(0, 5), Edge(0, 3), Edge(0, 2), Edge(0, 1)]
    ensures 2 < |edges| && edges[2] == Edge(0, 5) && Without(edges, 2) == [Edge(3, 5), Edge(1, 2), Edge(0, 3), Edge(0, 2), Edge(0, 1)]
  {
  }

  lemma MainWalkStep2(edges: seq<Edge>)
    requires edges == [Edge(3, 5), Edge(1, 2), Edge(0, 5), Edge(0, 3), Edge(0, 2), Edge(0, 1)]
    ensures Walk(edges, 0) == Run([Step(0, 5, Edge(0, 5)), Step(5, 3, Edge(3, 5)), Step(3, 0, Edge(0, 3)), Step(0, 2, Edge(0, 2)), Step(2, 1, Edge(1, 2)), Step(1, 0, Edge(0, 1))], [], 0)
  {
    MainStepQueries2(edges);
    MainStepRemoval2(edges);
    var smaller := Without(edges, 2);
    MainWalkStep3(smaller);
    WalkStepAt(edges, 0, 5, 2, smaller);
  }

  lemma MainStepQueries3(edges: seq<Edge>)
    requires edges == [Edge(3, 5), Edge(1, 2), Edge(0, 3), Edge(0, 2), Edge(0, 1)]
    ensures Neighbours(edges, 5) != [] && Neighbours(edges, 5)[0] == 3
    ensures FindEdge(edges, 5, 3) == Some(0)
  {
    assert Neighbours([Edge(3, 5), Edge(1, 2), Edge(0, 3), Edge(0, 2), Edge(0, 1)], 5)[0] == 3;
    assert FindEdge([Edge(3, 5), Edge(1, 2), Edge(0, 3), Edge(0, 2), Edge(0, 1)], 5, 3) == Some(0);
  }

  lemma MainStepRemoval3(edges: seq<Edge>)
    requires edges == [Edge(3, 5), Edge(1, 2), Edge(0, 3), Edge(0, 2), Edge(0, 1)]
    ensures 0 < |edges| && edges[0] == Edge(3, 5) && Without(edges, 0) == [Edge(1, 2), Edge(0, 3), Edge(0, 2), Edge(0, 1)]
  {
  }

  lemma MainWalkStep3(edges: seq<Edge>)
    requires edges == [Edge(3, 5), Edge(1, 2), Edge(0, 3), Edge(0, 2), Edge(0, 1)]
    ensures Walk(edges, 5) == Run([Step(5, 3, Edge(3, 5)), Step(3, 0, Edge(0, 3)), Step(0, 2, Edge(0, 2)), Step(2, 1, Edge(1, 2)), Step(1, 0, Edge(0, 1))], [], 0)
  {
    MainStepQueries3(edges);
    MainStepRemoval3(edges);
    var smaller := Without(edges, 0);
    MainWalkStep4(smaller);
    WalkStepAt(edges, 5, 3, 0, smaller);
  }

  lemma MainStepQueries4(edges: seq<Edge>)
    requires edges == [Edge(1, 2), Edge(0, 3), Edge(0, 2), Edge(0, 1)]
    ensures Neighbours(edges, 3) != [] && Neighbours(edges, 3)[0] == 0
    ensures FindEdge(edges, 3, 0) == Some(1)
  {
    assert Neighbours([Edge(1, 2), Edge(0, 3), Edge(0, 2), Edge(0, 1)], 3)[0] == 0;
    assert FindEdge([Edge(1, 2), Edge(0, 3), Edge(0, 2), Edge(0, 1)], 3, 0) == Some(1);
  }

  lemma MainStepRemoval4(edges: seq<Edge>)
    requires edges == [Edge(1, 2), Edge(0, 3), Edge(0, 2), Edge(0, 1)]
    ensures 1 < |edges| && edges[1] == Edge(0, 3) && Without(edges, 1) == [Edge(1, 2), Edge(0, 2), Edge(0, 1)]
  {
  }

  lemma MainWalkStep4(edges: seq<Edge>)
    requires edges == [Edge(1, 2), Edge(0, 3), Edge(0, 2), Edge(0, 1)]
    ensures Walk(edges, 3) == Run([Step(3, 0, Edge(0, 3)), Step(0, 2, Edge(0, 2)), Step(2, 1, Edge(1, 2)), Step(1, 0, Edge(0, 1))], [], 0)
  {
    MainStepQueries4(edges);
    MainStepRemoval4(edges);
    var smaller := Without(edges, 1);
    MainWalkStep5(smaller);
    WalkStepAt(edges, 3, 0, 1, smaller);
  }

  lemma MainStepQueries5(edges: seq<Edge>)
    requires edges == [Edge(1, 2), Edge(0, 2), Edge(0, 1)]
    ensures Neighbours(edges, 0) != [] && Neighbours(edges, 0)[0] == 2
    ensures FindEdge(edges, 0, 2) == Some(1)
  {
    assert Neighbours([Edge(1, 2), Edge(0, 2), Edge(0, 1)], 0)[0] == 2;
    assert FindEdge([Edge(1, 2), Edge(0, 2), Edge(0, 1)], 0, 2) == Some(1);
  }

  lemma MainStepRemoval5(edges: seq<Edge>)
    requires edges == [Edge(1, 2), Edge(0, 2), Edge(0, 1)]
    ensures 1 < |edges| && edges[1] == Edge(0, 2) && Without(edges, 1) == [Edge(1, 2), Edge(0, 1)]
  {
  }

  lemma MainWalkStep5(edges: seq<Edge>)
    requires edges == [Edge(1, 2), Edge(0, 2), Edge(0, 1)]
    ensures Walk(edges, 0) == Run([Step(0, 2, Edge(0, 2)), Step(2, 1, Edge(1, 2)), Step(1, 0, Edge(0, 1))], [], 0)
  {
    MainStepQueries5(edges);
    MainStepRemoval5(edges);
    var smaller := Without(edges, 1);
    MainWalkStep6(smaller);
    WalkStepAt(edges, 0, 2, 1, smaller);
  }

  lemma MainStepQueries6(edges: seq<Edge>)
    requires edges == [Edge(1, 2), Edge(0, 1)]
    ensures Neighbours(edges, 2) != [] && Neighbours(edges, 2)[0] == 1
    ensures FindEdge(edges, 2, 1) == Some(0)
  {
    assert Neighbours([Edge(1, 2), Edge(0, 1)], 2)[0] == 1;
    assert FindEdge([Edge(1, 2), Edge(0, 1)], 2, 1) == Some(0);
  }

  lemma MainStepRemoval6(edges: seq<Edge>)
    requires edges == [Edge(1, 2), Edge(0, 1)]
    ensures 0 < |edges| && edges[0] == Edge(1, 2) && Without(edges, 0) == [Edge(0, 1)]
  {
  }

  lemma MainWalkStep6(edges: seq<Edge>)
    requires edges == [Edge(1, 2), Edge(0, 1)]
    ensures Walk(edges, 2) == Run([Step(2, 1, Edge(1, 2)), Step(1, 0, Edge(0, 1))], [], 0)
  {
    MainStepQueries6(edges);
    MainStepRemoval6(edges);
    var smaller := Without(edges, 0);
    MainWalkStep7(smaller);
    WalkStepAt(edges, 2, 1, 0, smaller);
  }

  lemma MainStepQueries7(edges: seq<Edge>)
    requires edges == [Edge(0, 1)]
    ensures Neighbours(edges, 1) != [] && Neighbours(edges, 1)[0] == 0
    ensures FindEdge(edges, 1, 0) == Some(0)
  {
    assert Neighbours([Edge(0, 1)], 1)[0] == 0;
    assert FindEdge([Edge(0, 1)], 1, 0) == Some(0);
  }

  lemma MainStepRemoval7(edges: seq<Edge>)
    requires edges == [Edge(0, 1)]
    ensures 0 < |edges| && edges[0] == Edge(0, 1) && Without(edges, 0) == []
  {
  }

  lemma MainWalkStep7(edges: seq<Edge>)
    requires edges == [Edge(0, 1)]
    ensures Walk(edges, 1) == Run([Step(1, 0, Edge(0, 1))], [], 0)
  {
    MainStepQueries7(edges);
    MainStepRemoval7(edges);
    var smaller := Without(edges, 0);
    assert smaller == [];
    WalkStepAt(edges, 1, 0, 0, smaller);
  }

  lemma MainLabels(labels: seq<int>, steps: seq<Step>)
    requires labels == [1, 2, 3, 4, 5, 6] && steps == [Step(1, 4, Edge(1, 4)), Step(4, 0, Edge(0, 4)), Step(0, 5, Edge(0, 5)), Step(5, 3, Edge(3, 5)), Step(3, 0, Edge(0, 3)), Step(0, 2, Edge(0, 2)), Step(2, 1, Edge(1, 2)), Step(1, 0, Edge(0, 1))]
    ensures StepsWithin(steps, |labels|) && Labelled(labels, steps) == [(2, 5), (5, 1), (1, 6), (6, 4), (4, 1), (1, 3), (3, 2), (2, 1)]
  {
    assert StepsWithin([Step(1, 4, Edge(1, 4)), Step(4, 0, Edge(0, 4)), Step(0, 5, Edge(0, 5)), Step(5, 3, Edge(3, 5)), Step(3, 0, Edge(0, 3)), Step(0, 2, Edge(0, 2)), Step(2, 1, Edge(1, 2)), Step(1, 0, Edge(0, 1))], 6);
  }

  /** The pairs printed along that walk. */
  lemma MainTrail(g: Graph)
    requires g == MainGraph()
    ensures StepsWithin(Walk(g.edges, 1).steps, |g.labels|)
    ensures Labelled(g.labels, Walk(g.edges, 1).steps) == [(2, 5), (5, 1), (1, 6), (6, 4), (4, 1), (1, 3), (3, 2), (2, 1)]
  {
    MainWalk(g.edges);
    MainLabels(g.labels, Walk(g.edges, 1).steps);
  }

  /** Two odd nodes and a cycle: the graph passes the test. */
  lemma MainVerdict(g: Graph)
    requires g == MainGraph()
    ensures IsCyclic(g) && HasAnEulerianPath(g, true)
  {
    MainCyclic(g);
    MainOddNodes(g);
  }

  /** `apply_fleury` on this graph returns the trail of the walk above. */
  method MainRun() returns (trail: Option<seq<(int, int)>>)
    ensures trail == Some([(2, 5), (5, 1), (1, 6), (6, 4), (4, 1), (1, 3), (3, 2), (2, 1)])
  {
    var g := MainGraph();
    MainValid(g);
    MainVerdict(g);
    MainStart(g);
    MainTrail(g);
    trail := ApplyFleury(g, true);
  }

  // A triangle: the circuit case.

  /** Three nodes joined in a triangle. */
  function TriangleGraph(): Graph {
    Graph([1, 2, 3],
          [Edge(0, 1), Edge(1, 2), Edge(2, 0)])
  }

  /** Every edge of the graph joins two of its 3 nodes. */
  lemma TriangleValid(g: Graph)
    requires g == TriangleGraph()
    ensures ValidGraph(g)
  {
    assert g.edges == [Edge(0, 1), Edge(1, 2), Edge(2, 0)];
  }

  lemma TriangleEndpoints0(edges: seq<Edge>)
    requires edges == [Edge(0, 1), Edge(1, 2), Edge(2, 0)]
    ensures EndpointCount(edges, 0) == 2
  {
    assert EndpointCount([Edge(0, 1), Edge(1, 2), Edge(2, 0)], 0) == 2;
  }

  lemma TriangleEndpoints1(edges: seq<Edge>)
    requires edges == [Edge(0, 1), Edge(1, 2), Edge(2, 0)]
    ensures EndpointCount(edges, 1) == 2
  {
    assert EndpointCount([Edge(0, 1), Edge(1, 2), Edge(2, 0)], 1) == 2;
  }

  lemma TriangleEndpoints2(edges: seq<Edge>)
    requires edges == [Edge(0, 1), Edge(1, 2), Edge(2, 0)]
    ensures EndpointCount(edges, 2) == 2
  {
    assert EndpointCount([Edge(0, 1), Edge(1, 2), Edge(2, 0)], 2) == 2;
  }


  /** Every node has degree 2. */
  lemma TriangleDegrees(g: Graph)
    requires g == TriangleGraph()
    ensures |g.labels| == 3 && forall x :: 0 <= x < 3 ==> Degree(g, x) == [2, 2, 2][x]
  {
    TriangleEndpoints0(g.edges);
    TriangleEndpoints1(g.edges);
    TriangleEndpoints2(g.edges);
  }

  lemma TriangleOddPositions()
    ensures OddPositions([2, 2, 2], 3) == []
  {
  }

  /** No node has odd degree. */
  lemma TriangleOddNodes(g: Graph)
    requires g == TriangleGraph()
    ensures OddDegreeNodes(g) == []
  {
    TriangleDegrees(g);
    OddNodesAre(g, [2, 2, 2]);
    TriangleOddPositions();
  }

  /** With no odd node the walk starts at the first node. */
  lemma TriangleStart(g: Graph)
    requires g == TriangleGraph()
    ensures FleuryStartPoint(g) == 0
  {
    TriangleDegrees(g);
    TriangleOddNodes(g);
  }

  /** The three edges form a cycle. */
  lemma TriangleCycle(edges: seq<Edge>)
    requires edges == TriangleGraph().edges
    ensures IsCycle(edges, [0, 1, 2], [0, 1, 2, 0])
  {
  }

  lemma TriangleCyclic(g: Graph)
    requires g == TriangleGraph()
    ensures IsCyclic(g)
  {
    TriangleCycle(g.edges);
  }

  /** The walk uses all three edges and closes at label 1. */
  lemma TriangleWalk(edges: seq<Edge>)
    requires edges == TriangleGraph().edges
    ensures Walk(edges, 0) == Run([Step(0, 1, Edge(0, 1)), Step(1, 2, Edge(1, 2)), Step(2, 0, Edge(2, 0))],
                                   [], 0)
  {
    TriangleWalkStep0(edges);
  }

  lemma TriangleStepQueries0(edges: seq<Edge>)
    requires edges == [Edge(0, 1), Edge(1, 2), Edge(2, 0)]
    ensures Neighbours(edges, 0) != [] && Neighbours(edges, 0)[0] == 1
    ensures FindEdge(edges, 0, 1) == Some(0)
  {
    assert Neighbours([Edge(0, 1), Edge(1, 2), Edge(2, 0)], 0)[0] == 1;
    assert FindEdge([Edge(0, 1), Edge(1, 2), Edge(2, 0)], 0, 1) == Some(0);
  }

  lemma TriangleStepRemoval0(edges: seq<Edge>)
    requires edges == [Edge(0, 1), Edge(1, 2), Edge(2, 0)]
    ensures 0 < |edges| && edges[0] == Edge(0, 1) && Without(edges, 0) == [Edge(1, 2), Edge(2, 0)]
  {
  }

  lemma TriangleWalkStep0(edges: seq<Edge>)
    requires edges == [Edge(0, 1), Edge(1, 2), Edge(2, 0)]
    ensures Walk(edges, 0) == Run([Step(0, 1, Edge(0, 1)), Step(1, 2, Edge(1, 2)), Step(2, 0, Edge(2, 0))], [], 0)
  {
    TriangleStepQueries0(edges);
    TriangleStepRemoval0(edges);
    var smaller := Without(edges, 0);
    TriangleWalkStep1(smaller);
    WalkStepAt(edges, 0, 1, 0, smaller);
  }

  lemma TriangleStepQueries1(edges: seq<Edge>)
    requires edges == [Edge(1, 2), Edge(2, 0)]
    ensures Neighbours(edges, 1) != [] && Neighbours(edges, 1)[0] == 2
    ensures FindEdge(edges, 1, 2) == Some(0)
  {
    assert Neighbours([Edge(1, 2), Edge(2, 0)], 1)[0] == 2;
    assert FindEdge([Edge(1, 2), Edge(2, 0)], 1, 2) == Some(0);
  }

  lemma TriangleStepRemoval1(edges: seq<Edge>)
    requires edges == [Edge(1, 2), Edge(2, 0)]
    ensures 0 < |edges| && edges[0] == Edge(1, 2) && Without(edges, 0) == [Edge(2, 0)]
  {
  }

  lemma TriangleWalkStep1(edges: seq<Edge>)
    requires edges == [Edge(1, 2), Edge(2, 0)]
    ensures Walk(edges, 1) == Run([Step(1, 2, Edge(1, 2)), Step(2, 0, Edge(2, 0))], [], 0)
  {
    TriangleStepQueries1(edges);
    TriangleStepRemoval1(edges);
    var smaller := Without(edges, 0);
    TriangleWalkStep2(smaller);
    WalkStepAt(edges, 1, 2, 0, smaller);
  }

  lemma TriangleStepQueries2(edges: seq<Edge>)
    requires edges == [Edge(2, 0)]
    ensures Neighbours(edges, 2) != [] && Neighbours(edges, 2)[0] == 0
    ensures FindEdge(edges, 2, 0) == Some(0)
  {
    assert Neighbours([Edge(2, 0)], 2)[0] == 0;
    assert FindEdge([Edge(2, 0)], 2, 0) == Some(0);
  }

  lemma TriangleStepRemoval2(edges: seq<Edge>)
    requires edges == [Edge(2, 0)]
    ensures 0 < |edges| && edges[0] == Edge(2, 0) && Without(edges, 0) == []
  {
  }

  lemma TriangleWalkStep2(edges: seq<Edge>)
    requires edges == [Edge(2, 0)]
    ensures Walk(edges, 2) == Run([Step(2, 0, Edge(2, 0))], [], 0)
  {
    TriangleStepQueries2(edges);
    TriangleStepRemoval2(edges);
    var smaller := Without(edges, 0);
    assert smaller == [];
    WalkStepAt(edges, 2, 0, 0, smaller);
  }

  lemma TriangleLabels(labels: seq<int>, steps: seq<Step>)
    requires labels == [1, 2, 3] && steps == [Step(0, 1, Edge(0, 1)), Step(1, 2, Edge(1, 2)), Step(2, 0, Edge(2, 0))]
    ensures StepsWithin(steps, |labels|) && Labelled(labels, steps) == [(1, 2), (2, 3), (3, 1)]
  {
    assert StepsWithin([Step(0, 1, Edge(0, 1)), Step(1, 2, Edge(1, 2)), Step(2, 0, Edge(2, 0))], 3);
  }

  /** The pairs printed along that walk. */
  lemma TriangleTrail(g: Graph)
    requires g == TriangleGraph()
    ensures StepsWithin(Walk(g.edges, 0).steps, |g.labels|)
    ensures Labelled(g.labels, Walk(g.edges, 0).steps) == [(1, 2), (2, 3), (3, 1)]
  {
    TriangleWalk(g.edges);
    TriangleLabels(g.labels, Walk(g.edges, 0).steps);
  }

  /** No odd node and a cycle: the graph passes the test. */
  lemma TriangleVerdict(g: Graph)
    requires g == TriangleGraph()
    ensures IsCyclic(g) && HasAnEulerianPath(g, true)
  {
    TriangleCyclic(g);
    TriangleOddNodes(g);
  }

  /** `apply_fleury` on this graph returns the trail of the walk above. */
  method TriangleRun() returns (trail: Option<seq<(int, int)>>)
    ensures trail == Some([(1, 2), (2, 3), (3, 1)])
  {
    var g := TriangleGraph();
    TriangleValid(g);
    TriangleVerdict(g);
    TriangleStart(g);
    TriangleTrail(g);
    trail := ApplyFleury(g, true);
  }

  // A path 1-2-3-4: it has an Eulerian trail, but no cycle.

  /** Four nodes joined in a line. */
  function PathGraph(): Graph {
    Graph([1, 2, 3, 4],
          [Edge(0, 1), Edge(1, 2), Edge(2, 3)])
  }

  /** Every edge of the graph joins two of its 4 nodes. */
  lemma PathValid(g: Graph)
    requires g == PathGraph()
    ensures ValidGraph(g)
  {
    assert g.edges == [Edge(0, 1), Edge(1, 2), Edge(2, 3)];
  }

  lemma PathEndpoints0(edges: seq<Edge>)
    requires edges == [Edge(0, 1), Edge(1, 2), Edge(2, 3)]
    ensures EndpointCount(edges, 0) == 1
  {
    assert EndpointCount([Edge(0, 1), Edge(1, 2), Edge(2, 3)], 0) == 1;
  }

  lemma PathEndpoints1(edges: seq<Edge>)
    requires edges == [Edge(0, 1), Edge(1, 2), Edge(2, 3)]
    ensures EndpointCount(edges, 1) == 2
  {
    assert EndpointCount([Edge(0, 1), Edge(1, 2), Edge(2, 3)], 1) == 2;
  }

  lemma PathEndpoints2(edges: seq<Edge>)
    requires edges == [Edge(0, 1), Edge(1, 2), Edge(2, 3)]
    ensures EndpointCount(edges, 2) == 2
  {
    assert EndpointCount([Edge(0, 1), Edge(1, 2), Edge(2, 3)], 2) == 2;
  }

  lemma PathEndpoints3(edges: seq<Edge>)
    requires edges == [Edge(0, 1), Edge(1, 2), Edge(2, 3)]
    ensures EndpointCount(edges, 3) == 1
  {
    assert EndpointCount([Edge(0, 1), Edge(1, 2), Edge(2, 3)], 3) == 1;
  }


  /** The two ends have degree 1, the middle nodes degree 2. */
  lemma PathDegrees(g: Graph)
    requires g == PathGraph()
    ensures |g.labels| == 4 && forall x :: 0 <= x < 4 ==> Degree(g, x) == [1, 2, 2, 1][x]
  {
    PathEndpoints0(g.edges);
    PathEndpoints1(g.edges);
    PathEndpoints2(g.edges);
    PathEndpoints3(g.edges);
  }

  lemma PathOddPositions()
    ensures OddPositions([1, 2, 2, 1], 4) == [0, 3]
  {
  }

  /** The two ends have odd degree. */
  lemma PathOddNodes(g: Graph)
    requires g == PathGraph()
    ensures OddDegreeNodes(g) == [0, 3]
  {
    PathDegrees(g);
    OddNodesAre(g, [1, 2, 2, 1]);
    PathOddPositions();
  }

  /** Both ends have degree 1; the tie goes to the earlier one, label 1. */
  lemma PathStart(g: Graph)
    requires g == PathGraph()
    ensures FleuryStartPoint(g) == 0
  {
    PathDegrees(g);
    PathOddNodes(g);
  }

  /** From label 1 the walk would cover the whole path. */
  lemma PathWalk(edges: seq<Edge>)
    requires edges == PathGraph().edges
    ensures Walk(edges, 0) == Run([Step(0, 1, Edge(0, 1)), Step(1, 2, Edge(1, 2)), Step(2, 3, Edge(2, 3))],
                                   [], 3)
  {
    PathWalkStep0(edges);
  }

  lemma PathStepQueries0(edges: seq<Edge>)
    requires edges == [Edge(0, 1), Edge(1, 2), Edge(2, 3)]
    ensures Neighbours(edges, 0) != [] && Neighbours(edges, 0)[0] == 1
    ensures FindEdge(edges, 0, 1) == Some(0)
  {
    assert Neighbours([Edge(0, 1), Edge(1, 2), Edge(2, 3)], 0)[0] == 1;
    assert FindEdge([Edge(0, 1), Edge(1, 2), Edge(2, 3)], 0, 1) == Some(0);
  }

  lemma PathStepRemoval0(edges: seq<Edge>)
    requires edges == [Edge(0, 1), Edge(1, 2), Edge(2, 3)]
    ensures 0 < |edges| && edges[0] == Edge(0, 1) && Without(edges, 0) == [Edge(1, 2), Edge(2, 3)]
  {
  }

  lemma PathWalkStep0(edges: seq<Edge>)
    requires edges == [Edge(0, 1), Edge(1, 2), Edge(2, 3)]
    ensures Walk(edges, 0) == Run([Step(0, 1, Edge(0, 1)), Step(1, 2, Edge(1, 2)), Step(2, 3, Edge(2, 3))], [], 3)
  {
    PathStepQueries0(edges);
    PathStepRemoval0(edges);
    var smaller := Without(edges, 0);
    PathWalkStep1(smaller);
    WalkStepAt(edges, 0, 1, 0, smaller);
  }

  lemma PathStepQueries1(edges: seq<Edge>)
    requires edges == [Edge(1, 2), Edge(2, 3)]
    ensures Neighbours(edges, 1) != [] && Neighbours(edges, 1)[0] == 2
    ensures FindEdge(edges, 1, 2) == Some(0)
  {
    assert Neighbours([Edge(1, 2), Edge(2, 3)], 1)[0] == 2;
    assert FindEdge([Edge(1, 2), Edge(2, 3)], 1, 2) == Some(0);
  }

  lemma PathStepRemoval1(edges: seq<Edge>)
    requires edges == [Edge(1, 2), Edge(2, 3)]
    ensures 0 < |edges| && edges[0] == Edge(1, 2) && Without(edges, 0) == [Edge(2, 3)]
  {
  }

  lemma PathWalkStep1(edges: seq<Edge>)
    requires edges == [Edge(1, 2), Edge(2, 3)]
    ensures Walk(edges, 1) == Run([Step(1, 2, Edge(1, 2)), Step(2, 3, Edge(2, 3))], [], 3)
  {
    PathStepQueries1(edges);
    PathStepRemoval1(edges);
    var smaller := Without(edges, 0);
    PathWalkStep2(smaller);
    WalkStepAt(edges, 1, 2, 0, smaller);
  }

  lemma PathStepQueries2(edges: seq<Edge>)
    requires edges == [Edge(2, 3)]
    ensures Neighbours(edges, 2) != [] && Neighbours(edges, 2)[0] == 3
    ensures FindEdge(edges, 2, 3) == Some(0)
  {
    assert Neighbours([Edge(2, 3)], 2)[0] == 3;
    assert FindEdge([Edge(2, 3)], 2, 3) == Some(0);
  }

  lemma PathStepRemoval2(edges: seq<Edge>)
    requires edges == [Edge(2, 3)]
    ensures 0 < |edges| && edges[0] == Edge(2, 3) && Without(edges, 0) == []
  {
  }

  lemma PathWalkStep2(edges: seq<Edge>)
    requires edges == [Edge(2, 3)]
    ensures Walk(edges, 2) == Run([Step(2, 3, Edge(2, 3))], [], 3)
  {
    PathStepQueries2(edges);
    PathStepRemoval2(edges);
    var smaller := Without(edges, 0);
    assert smaller == [];
    WalkStepAt(edges, 2, 3, 0, smaller);
  }

  lemma PathLabels(labels: seq<int>, steps: seq<Step>)
    requires labels == [1, 2, 3, 4] && steps == [Step(0, 1, Edge(0, 1)), Step(1, 2, Edge(1, 2)), Step(2, 3, Edge(2, 3))]
    ensures StepsWithin(steps, |labels|) && Labelled(labels, steps) == [(1, 2), (2, 3), (3, 4)]
  {
    assert StepsWithin([Step(0, 1, Edge(0, 1)), Step(1, 2, Edge(1, 2)), Step(2, 3, Edge(2, 3))], 4);
  }

  /** The pairs printed along that walk. */
  lemma PathTrail(g: Graph)
    requires g == PathGraph()
    ensures StepsWithin(Walk(g.edges, 0).steps, |g.labels|)
    ensures Labelled(g.labels, Walk(g.edges, 0).steps) == [(1, 2), (2, 3), (3, 4)]
  {
    PathWalk(g.edges);
    PathLabels(g.labels, Walk(g.edges, 0).steps);
  }

  /** No cycle: every edge has an end of degree 1 except the middle one, and only one edge joins the two middle nodes. */
  lemma PathAcyclic(g: Graph)
    requires g == PathGraph()
    ensures !IsCyclic(g)
  {
    PathDegrees(g);
    forall ids: seq<nat>, path: seq<nat>
      ensures !IsCycle(g.edges, ids, path)
    {
      if IsCycle(g.edges, ids, path) {
        CycleStep(g.edges, ids, path, 0);
        if |ids| > 1 {
          CycleStep(g.edges, ids, path, 1);
        }
        assert false;
      }
    }
  }

  /** Two odd nodes, but no cycle: the test rejects the graph. */
  lemma PathVerdict(g: Graph)
    requires g == PathGraph()
    ensures !IsCyclic(g) && CountOddDegreeNodes(g) == 2 && !HasAnEulerianPath(g, false)
  {
    PathAcyclic(g);
    PathOddNodes(g);
  }

  /** `apply_fleury` on this graph prints "Unable to apply!". */
  method PathRun() returns (trail: Option<seq<(int, int)>>)
    ensures trail == None
  {
    var g := PathGraph();
    PathValid(g);
    PathVerdict(g);
    trail := ApplyFleury(g, false);
  }

  // A star: four odd nodes.

  /** A centre joined to four leaves. */
  function StarGraph(): Graph {
    Graph([1, 2, 3, 4, 5],
          [Edge(0, 1), Edge(0, 2), Edge(0, 3), Edge(0, 4)])
  }

  /** Every edge of the graph joins two of its 5 nodes. */
  lemma StarValid(g: Graph)
    requires g == StarGraph()
    ensures ValidGraph(g)
  {
    assert g.edges == [Edge(0, 1), Edge(0, 2), Edge(0, 3), Edge(0, 4)];
  }

  lemma StarEndpoints0(edges: seq<Edge>)
    requires edges == [Edge(0, 1), Edge(0, 2), Edge(0, 3), Edge(0, 4)]
    ensures EndpointCount(edges, 0) == 4
  {
    assert EndpointCount([Edge(0, 1), Edge(0, 2), Edge(0, 3), Edge(0, 4)], 0) == 4;
  }

  lemma StarEndpoints1(edges: seq<Edge>)
    requires edges == [Edge(0, 1), Edge(0, 2), Edge(0, 3), Edge(0, 4)]
    ensures EndpointCount(edges, 1) == 1
  {
    assert EndpointCount([Edge(0, 1), Edge(0, 2), Edge(0, 3), Edge(0, 4)], 1) == 1;
  }

  lemma StarEndpoints2(edges: seq<Edge>)
    requires edges == [Edge(0, 1), Edge(0, 2), Edge(0, 3), Edge(0, 4)]
    ensures EndpointCount(edges, 2) == 1
  {
    assert EndpointCount([Edge(0, 1), Edge(0, 2), Edge(0, 3), Edge(0, 4)], 2) == 1;
  }

  lemma StarEndpoints3(edges: seq<Edge>)
    requires edges == [Edge(0, 1), Edge(0, 2), Edge(0, 3), Edge(0, 4)]
    ensures EndpointCount(edges, 3) == 1
  {
    assert EndpointCount([Edge(0, 1), Edge(0, 2), Edge(0, 3), Edge(0, 4)], 3) == 1;
  }

  lemma StarEndpoints4(edges: seq<Edge>)
    requires edges == [Edge(0, 1), Edge(0, 2), Edge(0, 3), Edge(0, 4)]
    ensures EndpointCount(edges, 4) == 1
  {
    assert EndpointCount([Edge(0, 1), Edge(0, 2), Edge(0, 3), Edge(0, 4)], 4) == 1;
  }


  /** The centre has degree 4, each leaf degree 1. */
  lemma StarDegrees(g: Graph)
    requires g == StarGraph()
    ensures |g.labels| == 5 && forall x :: 0 <= x < 5 ==> Degree(g, x) == [4, 1, 1, 1, 1][x]
  {
    StarEndpoints0(g.edges);
    StarEndpoints1(g.edges);
    StarEndpoints2(g.edges);
    StarEndpoints3(g.edges);
    StarEndpoints4(g.edges);
  }

  lemma StarOddPositions()
    ensures OddPositions([4, 1, 1, 1, 1], 5) == [1, 2, 3, 4]
  {
  }

  /** The four leaves have odd degree. */
  lemma StarOddNodes(g: Graph)
    requires g == StarGraph()
    ensures OddDegreeNodes(g) == [1, 2, 3, 4]
  {
    StarDegrees(g);
    OddNodesAre(g, [4, 1, 1, 1, 1]);
    StarOddPositions();
  }

  /** With four odd nodes the start point is the first node. */
  lemma StarStart(g: Graph)
    requires g == StarGraph()
    ensures FleuryStartPoint(g) == 0
  {
    StarDegrees(g);
    StarOddNodes(g);
  }

  /** No cycle: every edge has an end of degree 1. */
  lemma StarAcyclic(g: Graph)
    requires g == StarGraph()
    ensures !IsCyclic(g)
  {
    StarDegrees(g);
    forall ids: seq<nat>, path: seq<nat>
      ensures !IsCycle(g.edges, ids, path)
    {
      if IsCycle(g.edges, ids, path) {
        CycleStep(g.edges, ids, path, 0);
        assert false;
      }
    }
  }

  /** Four odd nodes: the test rejects the graph. */
  lemma StarVerdict(g: Graph)
    requires g == StarGraph()
    ensures !IsCyclic(g) && CountOddDegreeNodes(g) == 4 && !HasAnEulerianPath(g, false)
  {
    StarAcyclic(g);
    StarOddNodes(g);
  }

  /** `apply_fleury` on this graph prints "Unable to apply!". */
  method StarRun() returns (trail: Option<seq<(int, int)>>)
    ensures trail == None
  {
    var g := StarGraph();
    StarValid(g);
    StarVerdict(g);
    trail := ApplyFleury(g, false);
  }

  // Two disjoint triangles: cyclic and all even, but not connected.

  /** Two triangles with no edge between them. */
  function TwoTrianglesGraph(): Graph {
    Graph([1, 2, 3, 4, 5, 6],
          [Edge(0, 1), Edge(1, 2), Edge(2, 0), Edge(3, 4), Edge(4, 5), Edge(5, 3)])
  }

  /** Every edge of the graph joins two of its 6 nodes. */
  lemma TwoTrianglesValid(g: Graph)
    requires g == TwoTrianglesGraph()
    ensures ValidGraph(g)
  {
    assert g.edges == [Edge(0, 1), Edge(1, 2), Edge(2, 0), Edge(3, 4), Edge(4, 5), Edge(5, 3)];
  }

  lemma TwoTrianglesEndpoints0(edges: seq<Edge>)
    requires edges == [Edge(0, 1), Edge(1, 2), Edge(2, 0), Edge(3, 4), Edge(4, 5), Edge(5, 3)]
    ensures EndpointCount(edges, 0) == 2
  {
    assert EndpointCount([Edge(0, 1), Edge(1, 2), Edge(2, 0), Edge(3, 4), Edge(4, 5), Edge(5, 3)], 0) == 2;
  }

  lemma TwoTrianglesEndpoints1(edges: seq<Edge>)
    requires edges == [Edge(0, 1), Edge(1, 2), Edge(2, 0), Edge(3, 4), Edge(4, 5), Edge(5, 3)]
    ensures EndpointCount(edges, 1) == 2
  {
    assert EndpointCount([Edge(0, 1), Edge(1, 2), Edge(2, 0), Edge(3, 4), Edge(4, 5), Edge(5, 3)], 1) == 2;
  }

  lemma TwoTrianglesEndpoints2(edges: seq<Edge>)
    requires edges == [Edge(0, 1), Edge(1, 2), Edge(2, 0), Edge(3, 4), Edge(4, 5), Edge(5, 3)]
    ensures EndpointCount(edges, 2) == 2
  {
    assert EndpointCount([Edge(0, 1), Edge(1, 2), Edge(2, 0), Edge(3, 4), Edge(4, 5), Edge(5, 3)], 2) == 2;
  }

  lemma TwoTrianglesEndpoints3(edges: seq<Edge>)
    requires edges == [Edge(0, 1), Edge(1, 2), Edge(2, 0), Edge(3, 4), Edge(4, 5), Edge(5, 3)]
    ensures EndpointCount(edges, 3) == 2
  {
    assert EndpointCount([Edge(0, 1), Edge(1, 2), Edge(2, 0), Edge(3, 4), Edge(4, 5), Edge(5, 3)], 3) == 2;
  }

  lemma TwoTrianglesEndpoints4(edges: seq<Edge>)
    requires edges == [Edge(0, 1), Edge(1, 2), Edge(2, 0), Edge(3, 4), Edge(4, 5), Edge(5, 3)]
    ensures EndpointCount(edges, 4) == 2
  {
    assert EndpointCount([Edge(0, 1), Edge(1, 2), Edge(2, 0), Edge(3, 4), Edge(4, 5), Edge(5, 3)], 4) == 2;
  }

  lemma TwoTrianglesEndpoints5(edges: seq<Edge>)
    requires edges == [Edge(0, 1), Edge(1, 2), Edge(2, 0), Edge(3, 4), Edge(4, 5), Edge(5, 3)]
    ensures EndpointCount(edges, 5) == 2
  {
    assert EndpointCount([Edge(0, 1), Edge(1, 2), Edge(2, 0), Edge(3, 4), Edge(4, 5), Edge(5, 3)], 5) == 2;
  }


  /** Every node has degree 2. */
  lemma TwoTrianglesDegrees(g: Graph)
    requires g == TwoTrianglesGraph()
    ensures |g.labels| == 6 && forall x :: 0 <= x < 6 ==> Degree(g, x) == [2, 2, 2, 2, 2, 2][x]
  {
    TwoTrianglesEndpoints0(g.edges);
    TwoTrianglesEndpoints1(g.edges);
    TwoTrianglesEndpoints2(g.edges);
    TwoTrianglesEndpoints3(g.edges);
    TwoTrianglesEndpoints4(g.edges);
    TwoTrianglesEndpoints5(g.edges);
  }

  lemma TwoTrianglesOddPositions()
    ensures OddPositions([2, 2, 2, 2, 2, 2], 6) == []
  {
  }

  /** No node has odd degree. */
  lemma TwoTrianglesOddNodes(g: Graph)
    requires g == TwoTrianglesGraph()
    ensures OddDegreeNodes(g) == []
  {
    TwoTrianglesDegrees(g);
    OddNodesAre(g, [2, 2, 2, 2, 2, 2]);
    TwoTrianglesOddPositions();
  }

  /** With no odd node the walk starts at the first node. */
  lemma TwoTrianglesStart(g: Graph)
    requires g == TwoTrianglesGraph()
    ensures FleuryStartPoint(g) == 0
  {
    TwoTrianglesDegrees(g);
    TwoTrianglesOddNodes(g);
  }

  /** The first triangle is a cycle. */
  lemma TwoTrianglesCycle(edges: seq<Edge>)
    requires edges == TwoTrianglesGraph().edges
    ensures IsCycle(edges, [0, 1, 2], [0, 1, 2, 0])
  {
  }

  lemma TwoTrianglesCyclic(g: Graph)
    requires g == TwoTrianglesGraph()
    ensures IsCyclic(g)
  {
    TwoTrianglesCycle(g.edges);
  }

  /** The walk goes round the first triangle and stops there: the second triangle's three edges are left. */
  lemma TwoTrianglesWalk(edges: seq<Edge>)
    requires edges == TwoTrianglesGraph().edges
    ensures Walk(edges, 0) == Run([Step(0, 1, Edge(0, 1)), Step(1, 2, Edge(1, 2)), Step(2, 0, Edge(2, 0))],
                                   [Edge(3, 4), Edge(4, 5), Edge(5, 3)], 0)
  {
    TwoTrianglesWalkStep0(edges);
  }

  lemma TwoTrianglesStepQueries0(edges: seq<Edge>)
    requires edges == [Edge(0, 1), Edge(1, 2), Edge(2, 0), Edge(3, 4), Edge(4, 5), Edge(5, 3)]
    ensures Neighbours(edges, 0) != [] && Neighbours(edges, 0)[0] == 1
    ensures FindEdge(edges, 0, 1) == Some(0)
  {
    assert Neighbours([Edge(0, 1), Edge(1, 2), Edge(2, 0), Edge(3, 4), Edge(4, 5), Edge(5, 3)], 0)[0] == 1;
    assert FindEdge([Edge(0, 1), Edge(1, 2), Edge(2, 0), Edge(3, 4), Edge(4, 5), Edge(5, 3)], 0, 1) == Some(0);
  }

  lemma TwoTrianglesStepRemoval0(edges: seq<Edge>)
    requires edges == [Edge(0, 1), Edge(1, 2), Edge(2, 0), Edge(3, 4), Edge(4, 5), Edge(5, 3)]
    ensures 0 < |edges| && edges[0] == Edge(0, 1) && Without(edges, 0) == [Edge(1, 2), Edge(2, 0), Edge(3, 4), Edge(4, 5), Edge(5, 3)]
  {
  }

  lemma TwoTrianglesWalkStep0(edges: seq<Edge>)
    requires edges == [Edge(0, 1), Edge(1, 2), Edge(2, 0), Edge(3, 4), Edge(4, 5), Edge(5, 3)]
    ensures Walk(edges, 0) == Run([Step(0, 1, Edge(0, 1)), Step(1, 2, Edge(1, 2)), Step(2, 0, Edge(2, 0))], [Edge(3, 4), Edge(4, 5), Edge(5, 3)], 0)
  {
    TwoTrianglesStepQueries0(edges);
    TwoTrianglesStepRemoval0(edges);
    var smaller := Without(edges, 0);
    TwoTrianglesWalkStep1(smaller);
    WalkStepAt(edges, 0, 1, 0, smaller);
  }

  lemma TwoTrianglesStepQueries1(edges: seq<Edge>)
    requires edges == [Edge(1, 2), Edge(2, 0), Edge(3, 4), Edge(4, 5), Edge(5, 3)]
    ensures Neighbours(edges, 1) != [] && Neighbours(edges, 1)[0] == 2
    ensures FindEdge(edges, 1, 2) == Some(0)
  {
    assert Neighbours([Edge(1, 2), Edge(2, 0), Edge(3, 4), Edge(4, 5), Edge(5, 3)], 1)[0] == 2;
    assert FindEdge([Edge(1, 2), Edge(2, 0), Edge(3, 4), Edge(4, 5), Edge(5, 3)], 1, 2) == Some(0);
  }

  lemma TwoTrianglesStepRemoval1(edges: seq<Edge>)
    requires edges == [Edge(1, 2), Edge(2, 0), Edge(3, 4), Edge(4, 5), Edge(5, 3)]
    ensures 0 < |edges| && edges[0] == Edge(1, 2) && Without(edges, 0) == [Edge(2, 0), Edge(3, 4), Edge(4, 5), Edge(5, 3)]
  {
  }

  lemma TwoTrianglesWalkStep1(edges: seq<Edge>)
    requires edges == [Edge(1, 2), Edge(2, 0), Edge(3, 4), Edge(4, 5), Edge(5, 3)]
    ensures Walk(edges, 1) == Run([Step(1, 2, Edge(1, 2)), Step(2, 0, Edge(2, 0))], [Edge(3, 4), Edge(4, 5), Edge(5, 3)], 0)
  {
    TwoTrianglesStepQueries1(edges);
    TwoTrianglesStepRemoval1(edges);
    var smaller := Without(edges, 0);
    TwoTrianglesWalkStep2(smaller);
    WalkStepAt(edges, 1, 2, 0, smaller);
  }

  lemma TwoTrianglesStepQueries2(edges: seq<Edge>)
    requires edges == [Edge(2, 0), Edge(3, 4), Edge(4, 5), Edge(5, 3)]
    ensures Neighbours(edges, 2) != [] && Neighbours(edges, 2)[0] == 0
    ensures FindEdge(edges, 2, 0) == Some(0)
  {
    assert Neighbours([Edge(2, 0), Edge(3, 4), Edge(4, 5), Edge(5, 3)], 2)[0] == 0;
    assert FindEdge([Edge(2, 0), Edge(3, 4), Edge(4, 5), Edge(5, 3)], 2, 0) == Some(0);
  }

  lemma TwoTrianglesStepRemoval2(edges: seq<Edge>)
    requires edges == [Edge(2, 0), Edge(3, 4), Edge(4, 5), Edge(5, 3)]
    ensures 0 < |edges| && edges[0] == Edge(2, 0) && Without(edges, 0) == [Edge(3, 4), Edge(4, 5), Edge(5, 3)]
  {
  }

  lemma TwoTrianglesWalkStep2(edges: seq<Edge>)
    requires edges == [Edge(2, 0), Edge(3, 4), Edge(4, 5), Edge(5, 3)]
    ensures Walk(edges, 2) == Run([Step(2, 0, Edge(2, 0))], [Edge(3, 4), Edge(4, 5), Edge(5, 3)], 0)
  {
    TwoTrianglesStepQueries2(edges);
    TwoTrianglesStepRemoval2(edges);
    var smaller := Without(edges, 0);
    TwoTrianglesStuck(smaller);
    WalkStepAt(edges, 2, 0, 0, smaller);
  }

  /** Node 0 has no edge left among [Edge(3, 4), Edge(4, 5), Edge(5, 3)]. */
  lemma TwoTrianglesStuck(edges: seq<Edge>)
    requires edges == [Edge(3, 4), Edge(4, 5), Edge(5, 3)]
    ensures Neighbours(edges, 0) == []
  {
    assert Neighbours([Edge(3, 4), Edge(4, 5), Edge(5, 3)], 0) == [];
  }

  lemma TwoTrianglesLabels(labels: seq<int>, steps: seq<Step>)
    requires labels == [1, 2, 3, 4, 5, 6] && steps == [Step(0, 1, Edge(0, 1)), Step(1, 2, Edge(1, 2)), Step(2, 0, Edge(2, 0))]
    ensures StepsWithin(steps, |labels|) && Labelled(labels, steps) == [(1, 2), (2, 3), (3, 1)]
  {
    assert StepsWithin([Step(0, 1, Edge(0, 1)), Step(1, 2, Edge(1, 2)), Step(2, 0, Edge(2, 0))], 6);
  }

  /** The pairs printed along that walk. */
  lemma TwoTrianglesTrail(g: Graph)
    requires g == TwoTrianglesGraph()
    ensures StepsWithin(Walk(g.edges, 0).steps, |g.labels|)
    ensures Labelled(g.labels, Walk(g.edges, 0).steps) == [(1, 2), (2, 3), (3, 1)]
  {
    TwoTrianglesWalk(g.edges);
    TwoTrianglesLabels(g.labels, Walk(g.edges, 0).steps);
  }

  /** A cycle and no odd node: the graph passes the test, though it is not connected. */
  lemma TwoTrianglesVerdict(g: Graph)
    requires g == TwoTrianglesGraph()
    ensures IsCyclic(g) && HasAnEulerianPath(g, true)
  {
    TwoTrianglesCyclic(g);
    TwoTrianglesOddNodes(g);
  }

  /** `apply_fleury` on this graph returns the trail of the walk above. */
  method TwoTrianglesRun() returns (trail: Option<seq<(int, int)>>)
    ensures trail == Some([(1, 2), (2, 3), (3, 1)])
  {
    var g := TwoTrianglesGraph();
    TwoTrianglesValid(g);
    TwoTrianglesVerdict(g);
    TwoTrianglesStart(g);
    TwoTrianglesTrail(g);
    trail := ApplyFleury(g, true);
  }

  // A bowtie: two triangles sharing label 2. It is connected and has an Eulerian circuit.

  /** Triangles 1-2-3 and 2-4-5, sharing label 2. */
  function BowtieGraph(): Graph {
    Graph([1, 2, 3, 4, 5],
          [Edge(0, 1), Edge(1, 2), Edge(2, 0), Edge(3, 1), Edge(3, 4), Edge(4, 1)])
  }

  /** Every edge of the graph joins two of its 5 nodes. */
  lemma BowtieValid(g: Graph)
    requires g == BowtieGraph()
    ensures ValidGraph(g)
  {
    assert g.edges == [Edge(0, 1), Edge(1, 2), Edge(2, 0), Edge(3, 1), Edge(3, 4), Edge(4, 1)];
  }

  lemma BowtieEndpoints0(edges: seq<Edge>)
    requires edges == [Edge(0, 1), Edge(1, 2), Edge(2, 0), Edge(3, 1), Edge(3, 4), Edge(4, 1)]
    ensures EndpointCount(edges, 0) == 2
  {
    assert EndpointCount([Edge(0, 1), Edge(1, 2), Edge(2, 0), Edge(3, 1), Edge(3, 4), Edge(4, 1)], 0) == 2;
  }

  lemma BowtieEndpoints1(edges: seq<Edge>)
    requires edges == [Edge(0, 1), Edge(1, 2), Edge(2, 0), Edge(3, 1), Edge(3, 4), Edge(4, 1)]
    ensures EndpointCount(edges, 1) == 4
  {
    assert EndpointCount([Edge(0, 1), Edge(1, 2), Edge(2, 0), Edge(3, 1), Edge(3, 4), Edge(4, 1)], 1) == 4;
  }

  lemma BowtieEndpoints2(edges: seq<Edge>)
    requires edges == [Edge(0, 1), Edge(1, 2), Edge(2, 0), Edge(3, 1), Edge(3, 4), Edge(4, 1)]
    ensures EndpointCount(edges, 2) == 2
  {
    assert EndpointCount([Edge(0, 1), Edge(1, 2), Edge(2, 0), Edge(3, 1), Edge(3, 4), Edge(4, 1)], 2) == 2;
  }

  lemma BowtieEndpoints3(edges: seq<Edge>)
    requires edges == [Edge(0, 1), Edge(1, 2), Edge(2, 0), Edge(3, 1), Edge(3, 4), Edge(4, 1)]
    ensures EndpointCount(edges, 3) == 2
  {
    assert EndpointCount([Edge(0, 1), Edge(1, 2), Edge(2, 0), Edge(3, 1), Edge(3, 4), Edge(4, 1)], 3) == 2;
  }

  lemma BowtieEndpoints4(edges: seq<Edge>)
    requires edges == [Edge(0, 1), Edge(1, 2), Edge(2, 0), Edge(3, 1), Edge(3, 4), Edge(4, 1)]
    ensures EndpointCount(edges, 4) == 2
  {
    assert EndpointCount([Edge(0, 1), Edge(1, 2), Edge(2, 0), Edge(3, 1), Edge(3, 4), Edge(4, 1)], 4) == 2;
  }


  /** Label 2 has degree 4, the others 2. */
  lemma BowtieDegrees(g: Graph)
    requires g == BowtieGraph()
    ensures |g.labels| == 5 && forall x :: 0 <= x < 5 ==> Degree(g, x) == [2, 4, 2, 2, 2][x]
  {
    BowtieEndpoints0(g.edges);
    BowtieEndpoints1(g.edges);
    BowtieEndpoints2(g.edges);
    BowtieEndpoints3(g.edges);
    BowtieEndpoints4(g.edges);
  }

  lemma BowtieOddPositions()
    ensures OddPositions([2, 4, 2, 2, 2], 5) == []
  {
  }

  /** No node has odd degree. */
  lemma BowtieOddNodes(g: Graph)
    requires g == BowtieGraph()
    ensures OddDegreeNodes(g) == []
  {
    BowtieDegrees(g);
    OddNodesAre(g, [2, 4, 2, 2, 2]);
    BowtieOddPositions();
  }

  /** With no odd node the walk starts at the first node. */
  lemma BowtieStart(g: Graph)
    requires g == BowtieGraph()
    ensures FleuryStartPoint(g) == 0
  {
    BowtieDegrees(g);
    BowtieOddNodes(g);
  }

  /** The first triangle is a cycle. */
  lemma BowtieCycle(edges: seq<Edge>)
    requires edges == BowtieGraph().edges
    ensures IsCycle(edges, [0, 1, 2], [0, 1, 2, 0])
  {
  }

  lemma BowtieCyclic(g: Graph)
    requires g == BowtieGraph()
    ensures IsCyclic(g)
  {
    BowtieCycle(g.edges);
  }

  /** At label 2 the first edge left is the one to label 3, which a bridge test would refuse: the walk goes back to label 1 and stops with the second triangle's three edges left. */
  lemma BowtieWalk(edges: seq<Edge>)
    requires edges == BowtieGraph().edges
    ensures Walk(edges, 0) == Run([Step(0, 1, Edge(0, 1)), Step(1, 2, Edge(1, 2)), Step(2, 0, Edge(2, 0))],
                                   [Edge(3, 1), Edge(3, 4), Edge(4, 1)], 0)
  {
    BowtieWalkStep0(edges);
  }

  lemma BowtieStepQueries0(edges: seq<Edge>)
    requires edges == [Edge(0, 1), Edge(1, 2), Edge(2, 0), Edge(3, 1), Edge(3, 4), Edge(4, 1)]
    ensures Neighbours(edges, 0) != [] && Neighbours(edges, 0)[0] == 1
    ensures FindEdge(edges, 0, 1) == Some(0)
  {
    assert Neighbours([Edge(0, 1), Edge(1, 2), Edge(2, 0), Edge(3, 1), Edge(3, 4), Edge(4, 1)], 0)[0] == 1;
    assert FindEdge([Edge(0, 1), Edge(1, 2), Edge(2, 0), Edge(3, 1), Edge(3, 4), Edge(4, 1)], 0, 1) == Some(0);
  }

  lemma BowtieStepRemoval0(edges: seq<Edge>)
    requires edges == [Edge(0, 1), Edge(1, 2), Edge(2, 0), Edge(3, 1), Edge(3, 4), Edge(4, 1)]
    ensures 0 < |edges| && edges[0] == Edge(0, 1) && Without(edges, 0) == [Edge(1, 2), Edge(2, 0), Edge(3, 1), Edge(3, 4), Edge(4, 1)]
  {
  }

  lemma BowtieWalkStep0(edges: seq<Edge>)
    requires edges == [Edge(0, 1), Edge(1, 2), Edge(2, 0), Edge(3, 1), Edge(3, 4), Edge(4, 1)]
    ensures Walk(edges, 0) == Run([Step(0, 1, Edge(0, 1)), Step(1, 2, Edge(1, 2)), Step(2, 0, Edge(2, 0))], [Edge(3, 1), Edge(3, 4), Edge(4, 1)], 0)
  {
    BowtieStepQueries0(edges);
    BowtieStepRemoval0(edges);
    var smaller := Without(edges, 0);
    BowtieWalkStep1(smaller);
    WalkStepAt(edges, 0, 1, 0, smaller);
  }

  lemma BowtieStepQueries1(edges: seq<Edge>)
    requires edges == [Edge(1, 2), Edge(2, 0), Edge(3, 1), Edge(3, 4), Edge(4, 1)]
    ensures Neighbours(edges, 1) != [] && Neighbours(edges, 1)[0] == 2
    ensures FindEdge(edges, 1, 2) == Some(0)
  {
    assert Neighbours([Edge(1, 2), Edge(2, 0), Edge(3, 1), Edge(3, 4), Edge(4, 1)], 1)[0] == 2;
    assert FindEdge([Edge(1, 2), Edge(2, 0), Edge(3, 1), Edge(3, 4), Edge(4, 1)], 1, 2) == Some(0);
  }

  lemma BowtieStepRemoval1(edges: seq<Edge>)
    requires edges == [Edge(1, 2), Edge(2, 0), Edge(3, 1), Edge(3, 4), Edge(4, 1)]
    ensures 0 < |edges| && edges[0] == Edge(1, 2) && Without(edges, 0) == [Edge(2, 0), Edge(3, 1), Edge(3, 4), Edge(4, 1)]
  {
  }

  lemma BowtieWalkStep1(edges: seq<Edge>)
    requires edges == [Edge(1, 2), Edge(2, 0), Edge(3, 1), Edge(3, 4), Edge(4, 1)]
    ensures Walk(edges, 1) == Run([Step(1, 2, Edge(1, 2)), Step(2, 0, Edge(2, 0))], [Edge(3, 1), Edge(3, 4), Edge(4, 1)], 0)
  {
    BowtieStepQueries1(edges);
    BowtieStepRemoval1(edges);
    var smaller := Without(edges, 0);
    BowtieWalkStep2(smaller);
    WalkStepAt(edges, 1, 2, 0, smaller);
  }

  lemma BowtieStepQueries2(edges: seq<Edge>)
    requires edges == [Edge(2, 0), Edge(3, 1), Edge(3, 4), Edge(4, 1)]
    ensures Neighbours(edges, 2) != [] && Neighbours(edges, 2)[0] == 0
    ensures FindEdge(edges, 2, 0) == Some(0)
  {
    assert Neighbours([Edge(2, 0), Edge(3, 1), Edge(3, 4), Edge(4, 1)], 2)[0] == 0;
    assert FindEdge([Edge(2, 0), Edge(3, 1), Edge(3, 4), Edge(4, 1)], 2, 0) == Some(0);
  }

  lemma BowtieStepRemoval2(edges: seq<Edge>)
    requires edges == [Edge(2, 0), Edge(3, 1), Edge(3, 4), Edge(4, 1)]
    ensures 0 < |edges| && edges[0] == Edge(2, 0) && Without(edges, 0) == [Edge(3, 1), Edge(3, 4), Edge(4, 1)]
  {
  }

  lemma BowtieWalkStep2(edges: seq<Edge>)
    requires edges == [Edge(2, 0), Edge(3, 1), Edge(3, 4), Edge(4, 1)]
    ensures Walk(edges, 2) == Run([Step(2, 0, Edge(2, 0))], [Edge(3, 1), Edge(3, 4), Edge(4, 1)], 0)
  {
    BowtieStepQueries2(edges);
    BowtieStepRemoval2(edges);
    var smaller := Without(edges, 0);
    BowtieStuck(smaller);
    WalkStepAt(edges, 2, 0, 0, smaller);
  }

  /** Node 0 has no edge left among [Edge(3, 1), Edge(3, 4), Edge(4, 1)]. */
  lemma BowtieStuck(edges: seq<Edge>)
    requires edges == [Edge(3, 1), Edge(3, 4), Edge(4, 1)]
    ensures Neighbours(edges, 0) == []
  {
    assert Neighbours([Edge(3, 1), Edge(3, 4), Edge(4, 1)], 0) == [];
  }

  lemma BowtieLabels(labels: seq<int>, steps: seq<Step>)
    requires labels == [1, 2, 3, 4, 5] && steps == [Step(0, 1, Edge(0, 1)), Step(1, 2, Edge(1, 2)), Step(2, 0, Edge(2, 0))]
    ensures StepsWithin(steps, |labels|) && Labelled(labels, steps) == [(1, 2), (2, 3), (3, 1)]
  {
    assert StepsWithin([Step(0, 1, Edge(0, 1)), Step(1, 2, Edge(1, 2)), Step(2, 0, Edge(2, 0))], 5);
  }

  /** The pairs printed along that walk. */
  lemma BowtieTrail(g: Graph)
    requires g == BowtieGraph()
    ensures StepsWithin(Walk(g.edges, 0).steps, |g.labels|)
    ensures Labelled(g.labels, Walk(g.edges, 0).steps) == [(1, 2), (2, 3), (3, 1)]
  {
    BowtieWalk(g.edges);
    BowtieLabels(g.labels, Walk(g.edges, 0).steps);
  }

  /** A cycle and no odd node: the graph passes the test. */
  lemma BowtieVerdict(g: Graph)
    requires g == BowtieGraph()
    ensures IsCyclic(g) && HasAnEulerianPath(g, true)
  {
    BowtieCyclic(g);
    BowtieOddNodes(g);
  }

  /** `apply_fleury` on this graph returns the trail of the walk above. */
  method BowtieRun() returns (trail: Option<seq<(int, int)>>)
    ensures trail == Some([(1, 2), (2, 3), (3, 1)])
  {
    var g := BowtieGraph();
    BowtieValid(g);
    BowtieVerdict(g);
    BowtieStart(g);
    BowtieTrail(g);
    trail := ApplyFleury(g, true);
  }
}
