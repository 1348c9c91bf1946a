/**
 * The "first-available" Fleury walk: from the current node take the first
 * neighbour, delete one edge joining the two from a working copy of the
 * graph, record the pair of labels and move on; stop when the current node
 * has no edge left. There is no bridge test, so the walk may stop before
 * every edge is used.
 */
module Fleury {
  import opened UnGraphs
  import opened Eulerian

  /** One move of the walk: the node left, the node reached and the edge removed. */
  datatype Step = Step(from: nat, to: nat, edge: Edge)

  /** A finished walk: its moves, the edges still present, the node it stopped at. */
  datatype Run = Run(steps: seq<Step>, rest: seq<Edge>, last: nat)

  /** The walk from `a` over `edges`, one loop iteration per recursive call. */
  function Walk(edges: seq<Edge>, a: nat): Run
    decreases |edges|
  {
    var nbrs := Neighbours(edges, a);
    if nbrs == [] then Run([], edges, a)
    else
      var b := nbrs[0];
      FirstNeighbourEdge(edges, a);
      var k := FindEdge(edges, a, b).value;
      var next := Walk(Without(edges, k), b);
      Run([Step(a, b, edges[k])] + next.steps, next.rest, next.last)
  }

  /** One unfolding of `Walk` when `a` still has a neighbour `b`: the edge
      `find_edge` returns exists, and the walk is that step followed by the
      walk from `b` without it. */
  lemma WalkUnfolds(edges: seq<Edge>, a: nat)
    requires Neighbours(edges, a) != []
    ensures var b := Neighbours(edges, a)[0];
            var f := FindEdge(edges, a, b);
            f.Some? && f.value < |edges| &&
            var next := Walk(Without(edges, f.value), b);
            Walk(edges, a) == Run([Step(a, b, edges[f.value])] + next.steps, next.rest, next.last)
  {
    FirstNeighbourEdge(edges, a);
  }

  /** The edges the steps removed, in order. */
  function Consumed(steps: seq<Step>): seq<Edge> {
    if steps == [] then [] else [steps[0].edge] + Consumed(steps[1..])
  }

  /** Each step removes exactly one edge, one that joins the step's two nodes;
      the removed edges and the edges left together are the original edges,
      so there are at most as many steps as edges. */
  lemma {:induction false} WalkConsumesEdges(edges: seq<Edge>, a: nat)
    ensures var r := Walk(edges, a);
            |r.steps| + |r.rest| == |edges| &&
            multiset(r.rest) + multiset(Consumed(r.steps)) == multiset(edges) &&
            forall i :: 0 <= i < |r.steps| ==> Joins(r.steps[i].edge, r.steps[i].from, r.steps[i].to)
  {
    var nbrs := Neighbours(edges, a);
    if nbrs != [] {
      var b := nbrs[0];
      FirstNeighbourEdge(edges, a);
      var k := FindEdge(edges, a, b).value;
      var next := Walk(Without(edges, k), b);
      WalkConsumesEdges(Without(edges, k), b);
      WithoutRemovesOne(edges, k);
      var r := Walk(edges, a);
      assert r.steps == [Step(a, b, edges[k])] + next.steps;
      assert r.steps[1..] == next.steps;
      assert Consumed(r.steps) == [edges[k]] + Consumed(next.steps);
    }
  }

  /** The steps form a chain: the first leaves `a`, each one starts where the
      previous one ended, and the walk stops where the last one ended. */
  lemma {:induction false} WalkIsChained(edges: seq<Edge>, a: nat)
    ensures var r := Walk(edges, a);
            (r.steps == [] ==> r.last == a) &&
            (r.steps != [] ==> r.steps[0].from == a && r.steps[|r.steps| - 1].to == r.last) &&
            forall i :: 0 <= i < |r.steps| - 1 ==> r.steps[i].to == r.steps[i + 1].from
  {
    var nbrs := Neighbours(edges, a);
    if nbrs != [] {
      var b := nbrs[0];
      FirstNeighbourEdge(edges, a);
      var k := FindEdge(edges, a, b).value;
      var next := Walk(Without(edges, k), b);
      WalkIsChained(Without(edges, k), b);
      var r := Walk(edges, a);
      assert r.steps == [Step(a, b, edges[k])] + next.steps;
      forall i | 0 <= i < |r.steps| - 1
        ensures r.steps[i].to == r.steps[i + 1].from
      {
        if i > 0 {
          assert r.steps[i] == next.steps[i - 1] && r.steps[i + 1] == next.steps[i];
        }
      }
    }
  }

  /** The walk stops only at a node with no edge left. */
  lemma {:induction false} WalkStopsStuck(edges: seq<Edge>, a: nat)
    ensures var r := Walk(edges, a);
            forall k :: 0 <= k < |r.rest| ==> !Incident(r.rest[k], r.last)
  {
    var nbrs := Neighbours(edges, a);
    if nbrs == [] {
      NeighboursSpec(edges, a);
    } else {
      var b := nbrs[0];
      FirstNeighbourEdge(edges, a);
      var k := FindEdge(edges, a, b).value;
      WalkStopsStuck(Without(edges, k), b);
      assert Walk(edges, a).rest == Walk(Without(edges, k), b).rest;
      assert Walk(edges, a).last == Walk(Without(edges, k), b).last;
    }
  }

  /** Every step, and the end, stays among the nodes `0 .. n-1`, and the edges
      left still join nodes below `n`. */
  lemma {:induction false} WalkStaysInGraph(edges: seq<Edge>, a: nat, n: nat)
    requires forall e | e in edges :: e.u < n && e.v < n
    requires a < n
    ensures var r := Walk(edges, a);
            StepsWithin(r.steps, n) && r.last < n &&
            forall e | e in r.rest :: e.u < n && e.v < n
  {
    var nbrs := Neighbours(edges, a);
    if nbrs != [] {
      var b := nbrs[0];
      FirstNeighbourEdge(edges, a);
      var k := FindEdge(edges, a, b).value;
      assert edges[k] in edges;
      var smaller := Without(edges, k);
      WithoutKeepsEnds(edges, k, n);
      WalkStaysInGraph(smaller, b, n);
      var r := Walk(edges, a);
      assert r.steps == [Step(a, b, edges[k])] + Walk(smaller, b).steps;
    }
  }

  lemma WithoutKeepsEnds(edges: seq<Edge>, k: nat, n: nat)
    requires k < |edges|
    requires forall e | e in edges :: e.u < n && e.v < n
    ensures forall e | e in Without(edges, k) :: e.u < n && e.v < n
  {
    WithoutRemovesOne(edges, k);
    forall e | e in Without(edges, k)
      ensures e.u < n && e.v < n
    {
      assert e in multiset(Without(edges, k));
      assert e in multiset(edges);
    }
  }

  /** Deleting the edge at `k` takes its endpoints off the count. */
  lemma {:induction false} WithoutEndpoints(edges: seq<Edge>, k: nat, x: nat)
    requires k < |edges|
    ensures EndpointCount(Without(edges, k), x) + EndsAt(edges[k], x) == EndpointCount(edges, x)
  {
    if k > 0 {
      WithoutEndpoints(edges[1..], k - 1, x);
      assert Without(edges, k) == [edges[0]] + Without(edges[1..], k - 1);
      assert ([edges[0]] + Without(edges[1..], k - 1))[1..] == Without(edges[1..], k - 1);
    } else {
      assert Without(edges, 0) == edges[1..];
    }
  }

  function Indicator(b: bool): nat {
    if b then 1 else 0
  }

  /** Parity bookkeeping of a walk: at every node `x`, the endpoints removed
      are even, except that the start and the end each take one extra (so a
      walk that ends where it began removes an even number everywhere). */
  lemma {:induction false} WalkParity(edges: seq<Edge>, a: nat, x: nat)
    ensures var r := Walk(edges, a);
            (EndpointCount(r.rest, x) + Indicator(x == a) + Indicator(x == r.last)) % 2
              == EndpointCount(edges, x) % 2
  {
    var nbrs := Neighbours(edges, a);
    if nbrs != [] {
      var b := nbrs[0];
      FirstNeighbourEdge(edges, a);
      var k := FindEdge(edges, a, b).value;
      var smaller := Without(edges, k);
      WalkParity(smaller, b, x);
      var r := Walk(smaller, b);
      StepParity(EndpointCount(r.rest, x), Indicator(x == a), Indicator(x == b), Indicator(x == r.last),
                 EndpointCount(smaller, x));
      WithoutEndpoints(edges, k, x);
      assert EndsAt(edges[k], x) == Indicator(x == a) + Indicator(x == b);
      assert Walk(edges, a).rest == r.rest && Walk(edges, a).last == r.last;
    }
  }

  lemma StepParity(rest: nat, ia: nat, ib: nat, il: nat, mid: nat)
    requires (rest + ib + il) % 2 == mid % 2
    ensures (rest + ia + il) % 2 == (mid + ia + ib) % 2
  {
  }

  /** A node with no incident edge has degree 0. */
  lemma StuckHasNoEnds(edges: seq<Edge>, x: nat)
    requires forall k :: 0 <= k < |edges| ==> !Incident(edges[k], x)
    ensures EndpointCount(edges, x) == 0
  {
    NeighboursSpec(edges, x);
    DegreeCountsEndpoints(edges, x);
  }

  /** When every degree is even (the circuit case), the walk ends where it
      started. */
  lemma CircuitWalkCloses(g: Graph, a: nat)
    requires ValidGraph(g) && CountOddDegreeNodes(g) == 0 && a < |g.labels|
    ensures Walk(g.edges, a).last == a
  {
    var r := Walk(g.edges, a);
    WalkStaysInGraph(g.edges, a, |g.labels|);
    WalkStopsStuck(g.edges, a);
    StuckHasNoEnds(r.rest, r.last);
    WalkParity(g.edges, a, r.last);
    assert r.last in OddDegreeNodes(g) <==> IsOdd(Degree(g, r.last));
  }

  /** When exactly two nodes have odd degree and the walk starts at one of
      them, it takes at least one step and ends at the other one. */
  lemma OpenWalkEndsAtOtherOdd(g: Graph, a: nat)
    requires ValidGraph(g) && CountOddDegreeNodes(g) == 2
    requires a < |g.labels| && IsOdd(Degree(g, a))
    ensures var r := Walk(g.edges, a);
            r.steps != [] && r.last != a && r.last < |g.labels| && IsOdd(Degree(g, r.last))
  {
    var r := Walk(g.edges, a);
    WalkStaysInGraph(g.edges, a, |g.labels|);
    WalkStopsStuck(g.edges, a);
    WalkIsChained(g.edges, a);
    StuckHasNoEnds(r.rest, r.last);
    WalkParity(g.edges, a, r.last);
  }

  predicate StepsWithin(steps: seq<Step>, n: nat) {
    forall i :: 0 <= i < |steps| ==> steps[i].from < n && steps[i].to < n
  }

  /** The printed trail: the pair of node labels of each step. */
  function Labelled(labels: seq<int>, steps: seq<Step>): (t: seq<(int, int)>)
    requires StepsWithin(steps, |labels|)
    ensures |t| == |steps|
    ensures forall i :: 0 <= i < |steps| ==> t[i] == (labels[steps[i].from], labels[steps[i].to])
  {
    seq(|steps|, i requires 0 <= i < |steps| => (labels[steps[i].from], labels[steps[i].to]))
  }

  /** The mutable working copy the walk consumes. Node labels never change;
      edges are removed one at a time. */
  class WorkingGraph {
    var labels: seq<int>
    var edges: seq<Edge>

    ghost predicate Valid()
      reads this
    {
      ValidGraph(Graph(labels, edges))
    }

    function Snapshot(): Graph
      reads this
    {
      Graph(labels, edges)
    }

    /** `graph.clone()`: an independent copy with the same nodes and edges. */
    constructor Clone(g: Graph)
      ensures labels == g.labels && edges == g.edges
    {
      labels := g.labels;
      edges := g.edges;
    }

    /** `remove_edge(k)`: removes the edge at index `k` and returns it, or
        returns nothing and changes nothing if there is no such edge. */
    method RemoveEdge(k: nat) returns (removed: Option<Edge>)
      modifies this`edges
      ensures k < |old(edges)| ==> removed == Some(old(edges)[k]) && edges == Without(old(edges), k)
      ensures k >= |old(edges)| ==> removed == None && edges == old(edges)
    {
      if k < |edges| {
        removed := Some(edges[k]);
        edges := Without(edges, k);
      } else {
        removed := None;
      }
    }

    /** `fleury_trail`: walks from the start point, removing one edge per
        step, until the current node has no edge left; returns the pairs of
        labels it would print. */
    method FleuryTrail() returns (trail: seq<(int, int)>)
      requires Valid()
      requires CountOddDegreeNodes(Snapshot()) == 2 || |labels| > 0
      modifies this`edges
      ensures Valid()
      ensures var run := Walk(old(edges), FleuryStartPoint(old(Snapshot())));
              edges == run.rest && StepsWithin(run.steps, |labels|) && trail == Labelled(labels, run.steps)
      ensures |trail| == |old(edges)| - |edges|
      ensures |trail| > 0 ==> trail[0].0 == labels[FleuryStartPoint(old(Snapshot()))]
      ensures forall i :: 0 <= i < |trail| - 1 ==> trail[i].1 == trail[i + 1].0
      ensures forall k :: 0 <= k < |edges| ==> !Incident(edges[k], Walk(old(edges), FleuryStartPoint(old(Snapshot()))).last)
    {
      var start := FleuryStartPoint(Snapshot());
      trail := TrailFrom(start);
      TrailFacts(old(edges), start, labels, trail);
    }

    /** The loop of `fleury_trail`, from node `a`: take the first neighbour
        `b`, remove the edge `find_edge(a, b)`, record the labels, move to `b`;
        stop when `a` has no neighbour left. */
    method TrailFrom(a: nat) returns (trail: seq<(int, int)>)
      requires Valid() && a < |labels|
      modifies this`edges
      ensures Valid()
      ensures var run := Walk(old(edges), a);
              edges == run.rest && StepsWithin(run.steps, |labels|) && trail == Labelled(labels, run.steps)
    {
      var cur: nat := a;
      ghost var run := Walk(edges, a);
      ghost var rest := run;
      ghost var done: seq<Step> := [];
      trail := [];
      while true
        invariant Valid() && cur < |labels|
        invariant StepsWithin(done, |labels|)
        invariant rest == Walk(edges, cur)
        invariant run == Run(done + rest.steps, rest.rest, rest.last)
        invariant trail == Labelled(labels, done)
        decreases |edges|
      {
        var nbrs := Neighbours(edges, cur);
        if nbrs == [] {
          break;
        }
        var b: nat := nbrs[0];
        WalkUnfolds(edges, cur);
        var ab := FindEdge(edges, cur, b);
        ghost var e := edges[ab.value];
        assert e in edges;
        WithoutKeepsEnds(edges, ab.value, |labels|);
        var _ := RemoveEdge(ab.value);
        rest := Walk(edges, b);
        trail := trail + [(labels[cur], labels[b])];
        done := done + [Step(cur, b, e)];
        cur := b;
      }
      assert run.steps == done && edges == run.rest;
    }
  }

  /** What the printed trail inherits from the walk. */
  lemma TrailFacts(edges: seq<Edge>, start: nat, labels: seq<int>, trail: seq<(int, int)>)
    requires StepsWithin(Walk(edges, start).steps, |labels|) && start < |labels|
    requires trail == Labelled(labels, Walk(edges, start).steps)
    ensures |trail| == |edges| - |Walk(edges, start).rest|
    ensures |trail| > 0 ==> trail[0].0 == labels[start]
    ensures forall i :: 0 <= i < |trail| - 1 ==> trail[i].1 == trail[i + 1].0
    ensures forall k :: 0 <= k < |Walk(edges, start).rest| ==> !Incident(Walk(edges, start).rest[k], Walk(edges, start).last)
  {
    WalkIsChained(edges, start);
    WalkConsumesEdges(edges, start);
    WalkStopsStuck(edges, start);
  }

  /** `apply_fleury`: `None` ("Unable to apply!") when the feasibility test
      fails, otherwise the trail walked on a clone of `g`, which itself is a
      value and so stays as it was. In the circuit case the trail is closed;
      with two odd nodes it is not empty and leaves and reaches different
      nodes. */
  method ApplyFleury(g: Graph, isCyclic: bool) returns (trail: Option<seq<(int, int)>>)
    requires ValidGraph(g)
    requires isCyclic == IsCyclic(g)
    ensures trail.None? <==> !HasAnEulerianPath(g, isCyclic)
    ensures trail.Some? ==>
              var run := Walk(g.edges, FleuryStartPoint(g));
              StepsWithin(run.steps, |g.labels|) && trail.value == Labelled(g.labels, run.steps)
    ensures trail.Some? ==> |trail.value| <= |g.edges|
    ensures trail.Some? && CountOddDegreeNodes(g) == 0 && trail.value != [] ==>
              trail.value[0].0 == trail.value[|trail.value| - 1].1
    ensures trail.Some? && CountOddDegreeNodes(g) == 2 ==> trail.value != []
  {
    if HasAnEulerianPath(g, isCyclic) {
      var copy := new WorkingGraph.Clone(g);
      var t := copy.FleuryTrail();
      var s := FleuryStartPoint(g);
      WalkIsChained(g.edges, s);
      if CountOddDegreeNodes(g) == 0 {
        CircuitWalkCloses(g, s);
      } else {
        OpenWalkEndsAtOtherOdd(g, s);
      }
      trail := Some(t);
    } else {
      trail := None;
    }
  }
}
