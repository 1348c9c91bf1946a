/**
 * Degree and parity analysis of an undirected multigraph, the feasibility
 * verdict for an Eulerian path, and the choice of the walk's start node.
 * These are read-only queries: they take the graph as a value.
 */
module Eulerian {
  import opened UnGraphs

  predicate IsOdd(n: nat) {
    n % 2 != 0
  }

  /** The neighbour list mapped to 2 for a self-loop and 1 otherwise, summed. */
  function DegreeSum(nbrs: seq<nat>, x: nat): nat {
    if nbrs == [] then 0 else (if nbrs[0] == x then 2 else 1) + DegreeSum(nbrs[1..], x)
  }

  /** Reference definition of degree: how many edge endpoints are `x`. A
      self-loop at `x` has both endpoints there. */
  function EndpointCount(edges: seq<Edge>, x: nat): nat {
    if edges == [] then 0 else EndsAt(edges[0], x) + EndpointCount(edges[1..], x)
  }

  /** How many of the two endpoints of `e` are `x`. */
  function EndsAt(e: Edge, x: nat): nat {
    (if e.u == x then 1 else 0) + (if e.v == x then 1 else 0)
  }

  lemma {:induction false} DegreeCountsEndpoints(edges: seq<Edge>, x: nat)
    ensures DegreeSum(Neighbours(edges, x), x) == EndpointCount(edges, x)
  {
    if edges != [] {
      DegreeCountsEndpoints(edges[1..], x);
      var rest := Neighbours(edges[1..], x);
      if Incident(edges[0], x) {
        assert Neighbours(edges, x) == [Other(edges[0], x)] + rest;
        assert ([Other(edges[0], x)] + rest)[1..] == rest;
      }
    }
  }

  /** `degree`: an edge to another node counts 1, a self-loop counts 2. */
  function Degree(g: Graph, x: nat): (d: nat)
    ensures d == EndpointCount(g.edges, x)
  {
    DegreeCountsEndpoints(g.edges, x);
    DegreeSum(Neighbours(g.edges, x), x)
  }

  /** The odd-degree nodes among the first `n` node indices, in index order. */
  function OddBelow(g: Graph, n: nat): (r: seq<nat>)
    ensures |r| <= n
    ensures forall i, j :: 0 <= i < j < |r| ==> r[i] < r[j]
    ensures forall x: nat :: x in r <==> x < n && IsOdd(Degree(g, x))
  {
    if n == 0 then []
    else
      var init := OddBelow(g, n - 1);
      assert forall i :: 0 <= i < |init| ==> init[i] in init;
      init + (if IsOdd(Degree(g, n - 1)) then [n - 1] else [])
  }

  /** `odd_degree_nodes`: exactly the nodes of odd degree, in increasing index
      order and so without repeats. */
  function OddDegreeNodes(g: Graph): (r: seq<nat>)
    ensures forall i, j :: 0 <= i < j < |r| ==> r[i] < r[j]
    ensures forall x: nat :: x in r <==> x < |g.labels| && IsOdd(Degree(g, x))
  {
    OddBelow(g, |g.labels|)
  }

  /** Sum of the degrees of the first `n` nodes. */
  function DegreeTotal(edges: seq<Edge>, n: nat): nat {
    if n == 0 then 0 else DegreeTotal(edges, n - 1) + EndpointCount(edges, n - 1)
  }

  /** How many edge endpoints lie below `n`. */
  function EndsBelow(edges: seq<Edge>, n: nat): nat {
    if edges == [] then 0
    else (if edges[0].u < n then 1 else 0) + (if edges[0].v < n then 1 else 0) + EndsBelow(edges[1..], n)
  }

  lemma {:induction false} EndsBelowStep(edges: seq<Edge>, n: nat)
    requires n > 0
    ensures EndsBelow(edges, n) == EndsBelow(edges, n - 1) + EndpointCount(edges, n - 1)
  {
    if edges != [] {
      EndsBelowStep(edges[1..], n);
    }
  }

  lemma {:induction false} DegreeTotalCountsEnds(edges: seq<Edge>, n: nat)
    ensures DegreeTotal(edges, n) == EndsBelow(edges, n)
  {
    if n == 0 {
      EndsBelowNone(edges);
    } else {
      DegreeTotalCountsEnds(edges, n - 1);
      EndsBelowStep(edges, n);
    }
  }

  lemma {:induction false} EndsBelowNone(edges: seq<Edge>)
    ensures EndsBelow(edges, 0) == 0
  {
    if edges != [] {
      EndsBelowNone(edges[1..]);
    }
  }

  lemma {:induction false} EndsBelowAll(edges: seq<Edge>, n: nat)
    requires forall e | e in edges :: e.u < n && e.v < n
    ensures EndsBelow(edges, n) == 2 * |edges|
  {
    if edges != [] {
      assert edges[0] in edges;
      assert forall e | e in edges[1..] :: e in edges;
      EndsBelowAll(edges[1..], n);
    }
  }

  /** The handshake lemma: the degrees of a graph sum to twice its edge count. */
  lemma Handshake(g: Graph)
    requires ValidGraph(g)
    ensures DegreeTotal(g.edges, |g.labels|) == 2 * |g.edges|
  {
    DegreeTotalCountsEnds(g.edges, |g.labels|);
    EndsBelowAll(g.edges, |g.labels|);
  }

  lemma {:induction false} OddBelowParity(g: Graph, n: nat)
    ensures |OddBelow(g, n)| % 2 == DegreeTotal(g.edges, n) % 2
  {
    if n > 0 {
      OddBelowParity(g, n - 1);
      OddBelowLength(g, n);
      ParityStep(|OddBelow(g, n - 1)|, DegreeTotal(g.edges, n - 1), Degree(g, n - 1));
    }
  }

  lemma OddBelowLength(g: Graph, n: nat)
    requires n > 0
    ensures |OddBelow(g, n)| == |OddBelow(g, n - 1)| + (if IsOdd(Degree(g, n - 1)) then 1 else 0)
    ensures DegreeTotal(g.edges, n) == DegreeTotal(g.edges, n - 1) + Degree(g, n - 1)
  {
  }

  lemma ParityStep(a: nat, b: nat, d: nat)
    requires a % 2 == b % 2
    ensures (a + (if IsOdd(d) then 1 else 0)) % 2 == (b + d) % 2
  {
  }

  /** `count_odd_degree_nodes`: the length of `odd_degree_nodes`. It never
      exceeds the node count, and by the handshake lemma it is always even. */
  function CountOddDegreeNodes(g: Graph): (c: nat)
    ensures c <= |g.labels|
    ensures ValidGraph(g) ==> c % 2 == 0
  {
    if ValidGraph(g) then OddCountIsEven(g); |OddDegreeNodes(g)| else |OddDegreeNodes(g)|
  }

  /** In a valid graph the number of odd-degree nodes is even. */
  lemma OddCountIsEven(g: Graph)
    requires ValidGraph(g)
    ensures |OddDegreeNodes(g)| % 2 == 0
  {
    OddBelowParity(g, |g.labels|);
    Handshake(g);
  }

  /** The position in `nodes` of the least `(degree, position)` pair: the
      minimum of the enumerated `(degree(node), i)` tuples. */
  function LeastDegreeIndex(g: Graph, nodes: seq<nat>): (k: nat)
    requires |nodes| > 0
    ensures k < |nodes|
    ensures forall j :: 0 <= j < |nodes| ==> Degree(g, nodes[k]) <= Degree(g, nodes[j])
    ensures forall j :: 0 <= j < k ==> Degree(g, nodes[k]) < Degree(g, nodes[j])
  {
    if |nodes| == 1 then 0
    else
      var init := nodes[..|nodes| - 1];
      var k := LeastDegreeIndex(g, init);
      assert forall j :: 0 <= j < |init| ==> init[j] == nodes[j];
      if Degree(g, nodes[|nodes| - 1]) < Degree(g, nodes[k]) then |nodes| - 1 else k
  }

  /** `lowest_odd_degree`: the odd-degree node of least degree, the one with
      the smallest index among equals. Needs an odd-degree node (the source
      unwraps the minimum). */
  function LowestOddDegree(g: Graph): (x: nat)
    requires CountOddDegreeNodes(g) > 0
    ensures x < |g.labels| && IsOdd(Degree(g, x))
    ensures forall y: nat :: y < |g.labels| && IsOdd(Degree(g, y)) ==> Degree(g, x) <= Degree(g, y)
    ensures forall y: nat :: y < x && IsOdd(Degree(g, y)) ==> Degree(g, x) < Degree(g, y)
  {
    var nodes := OddDegreeNodes(g);
    var k := LeastDegreeIndex(g, nodes);
    FirstAmongEqual(g, nodes, k);
    nodes[k]
  }

  lemma FirstAmongEqual(g: Graph, nodes: seq<nat>, k: nat)
    requires nodes == OddDegreeNodes(g) && k < |nodes|
    requires forall j :: 0 <= j < |nodes| ==> Degree(g, nodes[k]) <= Degree(g, nodes[j])
    requires forall j :: 0 <= j < k ==> Degree(g, nodes[k]) < Degree(g, nodes[j])
    ensures forall y: nat :: y < |g.labels| && IsOdd(Degree(g, y)) ==> Degree(g, nodes[k]) <= Degree(g, y)
    ensures forall y: nat :: y < nodes[k] && IsOdd(Degree(g, y)) ==> Degree(g, nodes[k]) < Degree(g, y)
  {
    forall y: nat | y < |g.labels| && IsOdd(Degree(g, y))
      ensures Degree(g, nodes[k]) <= Degree(g, y)
      ensures y < nodes[k] ==> Degree(g, nodes[k]) < Degree(g, y)
    {
      assert y in nodes;
      var j :| 0 <= j < |nodes| && nodes[j] == y;
      if y < nodes[k] {
        assert j < k;
      }
    }
  }

  /** `has_an_eulerian_path`: the graph is cyclic and has 0 or 2 odd-degree
      nodes. `isCyclic` is the answer of the cycle test. */
  function HasAnEulerianPath(g: Graph, isCyclic: bool): (r: bool)
    requires isCyclic == IsCyclic(g)
    ensures CountOddDegreeNodes(g) != 0 && CountOddDegreeNodes(g) != 2 ==> !r
    ensures r ==> |g.edges| > 0 && (ValidGraph(g) ==> |g.labels| > 0)
    ensures ValidGraph(g) ==> (r <==> IsCyclic(g) && CountOddDegreeNodes(g) <= 2)
  {
    var odd := CountOddDegreeNodes(g);
    if isCyclic then CyclicHasEdges(g); odd == 0 || odd == 2 else false
  }

  /** `first_node`: the first node index; the source unwraps it, so the graph
      must have a node. */
  function FirstNode(g: Graph): (x: nat)
    requires |g.labels| > 0
    ensures x < |g.labels| && x == 0
  {
    0
  }

  /** `fleury_start_point`: with exactly two odd-degree nodes, the one of
      lower degree (the earlier one on a tie); otherwise the first node. */
  function FleuryStartPoint(g: Graph): (s: nat)
    requires CountOddDegreeNodes(g) == 2 || |g.labels| > 0
    ensures s < |g.labels|
    ensures CountOddDegreeNodes(g) == 2 ==>
              IsOdd(Degree(g, s)) &&
              (forall y: nat :: y < |g.labels| && IsOdd(Degree(g, y)) ==> Degree(g, s) <= Degree(g, y)) &&
              (forall y: nat :: y < s && IsOdd(Degree(g, y)) ==> Degree(g, s) < Degree(g, y))
    ensures CountOddDegreeNodes(g) != 2 ==> s == 0
  {
    if CountOddDegreeNodes(g) == 2 then LowestOddDegree(g) else FirstNode(g)
  }
}
