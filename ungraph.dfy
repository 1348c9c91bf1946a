/**
 * The part of an undirected petgraph `Graph<i32, &str, Undirected>` that the
 * Eulerian-path program relies on: node labels indexed by node index, an edge
 * list, neighbour enumeration, `find_edge`, `remove_edge` and the
 * `is_cyclic_undirected` test.
 *
 * Neighbours are enumerated in edge-list order, one entry per incident edge.
 * A self-loop at `x` yields a single entry `x`.
 */
module UnGraphs {

  datatype Option<T> = None | Some(value: T)

  /** An undirected edge between two node indices. The edge weight (a display
      string) is never read by the program and is not kept. */
  datatype Edge = Edge(u: nat, v: nat)

  /** Node weights indexed by node index, and the live edges. */
  datatype Graph = Graph(labels: seq<int>, edges: seq<Edge>)

  /** Every edge joins two existing nodes (petgraph's `add_edge` panics otherwise). */
  predicate ValidGraph(g: Graph) {
    forall e | e in g.edges :: e.u < |g.labels| && e.v < |g.labels|
  }

  predicate Incident(e: Edge, x: nat) {
    e.u == x || e.v == x
  }

  /** `e` connects `x` and `y`, in either direction. */
  predicate Joins(e: Edge, x: nat, y: nat) {
    (e.u == x && e.v == y) || (e.u == y && e.v == x)
  }

  /** The far end of `e` seen from `x`. */
  function Other(e: Edge, x: nat): (y: nat)
    requires Incident(e, x)
    ensures Joins(e, x, y)
  {
    if e.u == x then e.v else e.u
  }

  /** How many edges are incident to `x`; a self-loop is one edge. */
  function IncidentCount(edges: seq<Edge>, x: nat): (c: nat)
    ensures c <= |edges|
  {
    if edges == [] then 0 else (if Incident(edges[0], x) then 1 else 0) + IncidentCount(edges[1..], x)
  }

  /** The index of the `i`-th edge incident to `x`, counting from 0: an
      incident edge with exactly `i` incident edges before it. */
  function NthIncident(edges: seq<Edge>, x: nat, i: nat): (k: nat)
    requires i < IncidentCount(edges, x)
    ensures k < |edges| && Incident(edges[k], x)
    ensures IncidentCount(edges[..k], x) == i
  {
    if Incident(edges[0], x) && i == 0 then
      assert edges[..0] == [];
      0
    else
      var j := NthIncident(edges[1..], x, if Incident(edges[0], x) then i - 1 else i);
      assert edges[..j + 1][1..] == edges[1..][..j];
      j + 1
  }

  /** `neighbors_undirected(x)`: one entry per edge incident to `x`. */
  function Neighbours(edges: seq<Edge>, x: nat): (r: seq<nat>)
    ensures |r| == IncidentCount(edges, x) && |r| <= |edges|
  {
    if edges == [] then []
    else
      var rest := Neighbours(edges[1..], x);
      if Incident(edges[0], x) then [Other(edges[0], x)] + rest else rest
  }

  /** The neighbours of `x` are exactly the nodes an edge joins to `x`, and
      there are none exactly when no edge touches `x`. */
  lemma {:induction false} NeighboursSpec(edges: seq<Edge>, x: nat)
    ensures forall y :: y in Neighbours(edges, x) <==> exists k :: 0 <= k < |edges| && Joins(edges[k], x, y)
    ensures Neighbours(edges, x) == [] <==> forall k :: 0 <= k < |edges| ==> !Incident(edges[k], x)
  {
    if edges != [] {
      NeighboursSpec(edges[1..], x);
      assert forall k :: 1 <= k < |edges| ==> edges[k] == edges[1..][k - 1];
      if Incident(edges[0], x) {
        assert Joins(edges[0], x, Other(edges[0], x));
      }
      forall y | exists k :: 0 <= k < |edges| && Joins(edges[k], x, y)
        ensures y in Neighbours(edges, x)
      {
        var k :| 0 <= k < |edges| && Joins(edges[k], x, y);
        if k > 0 {
          assert Joins(edges[1..][k - 1], x, y);
        }
      }
    }
  }

  /** Entry `i` of the neighbour list is the far end of the `i`-th edge
      incident to `x`: the list follows the edges in order, and a self-loop
      gives the single entry `x`. */
  lemma {:induction false} NeighbourEntries(edges: seq<Edge>, x: nat)
    ensures forall i :: 0 <= i < |Neighbours(edges, x)| ==>
              Neighbours(edges, x)[i] == Other(edges[NthIncident(edges, x, i)], x)
  {
    if edges != [] {
      NeighbourEntries(edges[1..], x);
      var r := Neighbours(edges, x);
      var rest := Neighbours(edges[1..], x);
      forall i | 0 <= i < |r|
        ensures r[i] == Other(edges[NthIncident(edges, x, i)], x)
      {
        if Incident(edges[0], x) {
          if i > 0 {
            assert r[i] == rest[i - 1];
          }
        } else {
          assert r[i] == rest[i];
        }
      }
    }
  }

  /** `find_edge(x, y)`: the first edge joining `x` and `y`, if any. */
  function FindEdge(edges: seq<Edge>, x: nat, y: nat): (r: Option<nat>)
    ensures r.Some? ==> r.value < |edges| && Joins(edges[r.value], x, y)
  {
    if edges == [] then None
    else if Joins(edges[0], x, y) then Some(0)
    else
      match FindEdge(edges[1..], x, y)
      case None => None
      case Some(k) => Some(k + 1)
  }

  /** `find_edge` fails only when no edge joins the two nodes, and it returns
      the first edge that does. */
  lemma {:induction false} FindEdgeSpec(edges: seq<Edge>, x: nat, y: nat)
    ensures FindEdge(edges, x, y).Some? <==> exists k :: 0 <= k < |edges| && Joins(edges[k], x, y)
    ensures FindEdge(edges, x, y).Some? ==> forall j :: 0 <= j < FindEdge(edges, x, y).value ==> !Joins(edges[j], x, y)
  {
    if edges != [] && !Joins(edges[0], x, y) {
      FindEdgeSpec(edges[1..], x, y);
      assert forall k :: 1 <= k < |edges| ==> edges[k] == edges[1..][k - 1];
    }
  }

  /** The index of the first edge incident to `x`. */
  function FirstIncident(edges: seq<Edge>, x: nat): (k: nat)
    requires Neighbours(edges, x) != []
    ensures k < |edges| && Incident(edges[k], x)
    ensures forall j :: 0 <= j < k ==> !Incident(edges[j], x)
  {
    if Incident(edges[0], x) then 0
    else
      FirstIncident(edges[1..], x) + 1
  }

  /** The first neighbour of `x` comes from its first incident edge, and
      `find_edge` from `x` to that neighbour returns that very edge: the
      `unwrap` on `find_edge` never fails, and the edge removed is the one the
      neighbour was read from. */
  lemma {:induction false} FirstNeighbourEdge(edges: seq<Edge>, x: nat)
    requires Neighbours(edges, x) != []
    ensures var k := FirstIncident(edges, x);
            Neighbours(edges, x)[0] == Other(edges[k], x) &&
            FindEdge(edges, x, Neighbours(edges, x)[0]) == Some(k)
  {
    if !Incident(edges[0], x) {
      FirstNeighbourEdge(edges[1..], x);
      var y := Neighbours(edges, x)[0];
      assert !Joins(edges[0], x, y);
    }
  }

  /** The edge list after deleting the edge at index `k`. */
  function Without(edges: seq<Edge>, k: nat): (r: seq<Edge>)
    requires k < |edges|
    ensures |r| == |edges| - 1
  {
    edges[..k] + edges[k + 1..]
  }

  /** Deleting the edge at `k` removes exactly that one edge, and the others
      keep their relative order. */
  lemma WithoutRemovesOne(edges: seq<Edge>, k: nat)
    requires k < |edges|
    ensures multiset(Without(edges, k)) + multiset{edges[k]} == multiset(edges)
    ensures forall j :: 0 <= j < k ==> Without(edges, k)[j] == edges[j]
    ensures forall j :: k <= j < |edges| - 1 ==> Without(edges, k)[j] == edges[j + 1]
  {
    assert edges == edges[..k] + [edges[k]] + edges[k + 1..];
  }

  /** `ids` are distinct edge indices and `path` the nodes they pass through,
      returning to where they began: a closed trail of at least one edge. A
      self-loop, or two parallel edges, is one. */
  ghost predicate IsCycle(edges: seq<Edge>, ids: seq<nat>, path: seq<nat>) {
    |ids| >= 1 && |path| == |ids| + 1 && path[0] == path[|ids|] &&
    (forall i :: 0 <= i < |ids| ==> ids[i] < |edges| && Joins(edges[ids[i]], path[i], path[i + 1])) &&
    (forall i, j :: 0 <= i < j < |ids| ==> ids[i] != ids[j])
  }

  /** What `is_cyclic_undirected` decides: the edges contain a cycle. */
  ghost predicate IsCyclic(g: Graph) {
    exists ids, path :: IsCycle(g.edges, ids, path)
  }

  /** A cycle needs an edge, and in a valid graph an edge needs a node. */
  lemma CyclicHasEdges(g: Graph)
    requires IsCyclic(g)
    ensures |g.edges| > 0
    ensures ValidGraph(g) ==> |g.labels| > 0
  {
    var ids, path :| IsCycle(g.edges, ids, path);
    assert ids[0] < |g.edges|;
    assert g.edges[ids[0]] in g.edges;
  }
}
