# Fleury's algorithm on an undirected multigraph

A model of a small Rust program that checks whether an undirected petgraph
multigraph has an Eulerian path and then walks it with a "first-available"
variant of Fleury's algorithm. Node weights are integer labels.

The program has two parts.

**Read-only degree and parity queries.** They take the graph as a value (`Eulerian`):
- `degree`: a self-loop counts 2;
- `odd_degree_nodes` and `count_odd_degree_nodes`;
- `lowest_odd_degree`: the smallest `(degree, position)` pair;
- `has_an_eulerian_path`: a cycle test plus "0 or 2 odd nodes";
- `fleury_start_point` and `first_node`.

**The walk** (`Fleury`). `apply_fleury` clones the graph and hands the clone to
`fleury_trail`. That function starts at the start point and repeats:
1. take the first neighbour of the current node;
2. remove the edge `find_edge` returns between the two nodes;
3. print the pair of labels;
4. move to the neighbour.

It stops when the current node has no edge left.

How the walk is modelled:
- The clone is the class `WorkingGraph`, whose `edges` field shrinks.
- The loop is the method `WorkingGraph.TrailFrom`.
- The method is proved against the function `Walk`, which takes one loop iteration per recursive call.
- Every property of the walk is proved about `Walk`:
  - one edge is removed per step;
  - the steps chain;
  - the walk stops only when stuck;
  - a parity argument shows that in the circuit case the walk closes, and with two odd nodes it ends at the other odd node.
- The printed pairs are returned as a sequence.
- "Unable to apply!" is `None`.

The petgraph surface the program uses is in `UnGraphs`:
- an edge list;
- `neighbors_undirected`;
- `find_edge`;
- `remove_edge`;
- the `is_cyclic_undirected` test.

`Scenarios` works out what the model computes on concrete graphs:
- the graph `main` builds;
- a triangle;
- a path;
- a star;
- two disjoint triangles;
- a "bowtie" of two triangles sharing a node. On the bowtie the first-available edge at the shared node is a bridge, and with no bridge test the walk stops early.

In every scenario, node `i` carries label `i + 1`. The model takes neighbours in edge-list order. Each scenario's edge list is written so that, at every step of its walk, the first edge in that order at the current node is also the first one petgraph enumerates. So `main`'s edges are listed newest first, and the bowtie's edge between labels 2 and 4 is written from label 4.

The cycle test follows the code, which differs from the textbook criterion in two ways:
- The code requires a cycle, not connectivity.
- So a path graph, which has an Eulerian trail, is rejected (`Scenarios.PathVerdict`).
- Two disjoint triangles are accepted, and the walk covers only one of them (`Scenarios.TwoTrianglesWalk`).

## Model

| member | source | states |
|---|---|---|
| UnGraphs.Neighbours | src/main.rs:124-126 | exactly as many entries as edges incident to the node, where a self-loop is one edge, so never more entries than edges |
| UnGraphs.NeighbourEntries | src/main.rs:124-126 | entry `i` is the far end of the `i`-th incident edge (the incident edge with exactly `i` incident edges before it), so a self-loop gives the single entry for the node itself |
| UnGraphs.NeighboursSpec | src/main.rs:124-126 | `y` is listed as a neighbour of `x` iff some edge joins them; the list is empty iff no edge touches `x` |
| UnGraphs.FindEdge | src/main.rs:99 | a returned index is in range and its edge joins the two nodes |
| UnGraphs.FindEdgeSpec | src/main.rs:99 | `find_edge` fails only when no edge joins the two nodes, and it returns the first edge that does |
| UnGraphs.FirstNeighbourEdge | src/main.rs:94-100 | the first neighbour comes from the first incident edge, and `find_edge` to it returns exactly that edge, so the `unwrap` cannot fail |
| UnGraphs.Without | src/main.rs:100 | deleting one edge shortens the list by exactly one |
| UnGraphs.WithoutRemovesOne | src/main.rs:100 | deletion removes exactly that edge from the multiset of edges; the others keep their relative order |
| UnGraphs.CyclicHasEdges | src/main.rs:71 | a graph that passes the cycle test has an edge, and then a node |
| Eulerian.Degree | src/main.rs:46-50 | the degree is the number of edge endpoints at the node, so a self-loop counts 2 |
| Eulerian.DegreeCountsEndpoints | src/main.rs:46-50 | summing 2 for a self-loop entry and 1 for any other neighbour entry gives the endpoint count |
| Eulerian.OddDegreeNodes | src/main.rs:39-43 | exactly the nodes of odd degree, strictly increasing, so in node-index order and without repeats |
| Eulerian.Handshake | src/main.rs:46-50 | the degrees of a graph sum to twice its edge count |
| Eulerian.CountOddDegreeNodes | src/main.rs:53-55 | the count is at most the node count, and it is even in every well-formed graph |
| Eulerian.OddCountIsEven | src/main.rs:53-55 | the number of odd-degree nodes is even |
| Eulerian.LeastDegreeIndex | src/main.rs:60-64 | the position of the minimum `(degree, position)` pair: its degree is least, and every earlier position has strictly greater degree |
| Eulerian.LowestOddDegree | src/main.rs:58-67 | needs an odd node; the result has odd degree, no odd node has smaller degree, and every earlier odd node has larger degree |
| Eulerian.HasAnEulerianPath | src/main.rs:70-77 | any odd count other than 0 or 2 gives false; a true verdict implies an edge and a node; in a well-formed graph, true iff there is a cycle and at most 2 odd nodes |
| Eulerian.FirstNode | src/main.rs:119-121 | needs a node; returns node index 0, the first in iteration order |
| Eulerian.FleuryStartPoint | src/main.rs:111-116 | with two odd nodes, the odd node of least degree, the earlier one on a tie; otherwise node 0; always a node of the graph |
| Fleury.WalkConsumesEdges | src/main.rs:93-107 | each step removes one edge joining its two nodes; removed plus remaining edges are the original multiset, so steps plus remaining edges equal the initial edge count |
| Fleury.WalkIsChained | src/main.rs:91-106 | the first step leaves the start, each step starts where the previous one ended, and the walk stops where the last step ended |
| Fleury.WalkStopsStuck | src/main.rs:94-97 | the walk stops only at a node with no edge left |
| Fleury.WalkStaysInGraph | src/main.rs:102-104 | every step and the stopping node are nodes of the graph, so the label `unwrap`s cannot fail |
| Fleury.WalkParity | src/main.rs:93-107 | at every node, the removed endpoints are even, except that the start and the end each take one extra |
| Fleury.CircuitWalkCloses | src/main.rs:93-107 | when every degree is even, the walk ends where it started |
| Fleury.OpenWalkEndsAtOtherOdd | src/main.rs:93-107 | with two odd nodes, a walk from one of them takes a step and ends at the other |
| Fleury.WorkingGraph.Clone | src/main.rs:84 | the working copy has the graph's labels and edges |
| Fleury.WorkingGraph.RemoveEdge | src/main.rs:100 | removes and returns the edge at the index, changing nothing else; an index out of range changes nothing |
| Fleury.WorkingGraph.TrailFrom | src/main.rs:93-107 | the loop leaves exactly the edges the walk from the node does not use, and returns the labelled steps of that walk |
| Fleury.WorkingGraph.FleuryTrail | src/main.rs:90-108 | walks from the start point and returns its labelled steps; one pair per removed edge; the first pair starts at the start label; consecutive pairs chain; no remaining edge touches the stopping node |
| Fleury.TrailFacts | src/main.rs:102-106 | the printed pairs have one entry per removed edge, start at the start label and chain |
| Fleury.ApplyFleury | src/main.rs:80-87 | `None` iff the verdict is false; otherwise the labelled walk of a clone, with at most one pair per edge; closed in the circuit case, non-empty with two odd nodes |
| Scenarios.MainOddNodes | src/main.rs:16-33 | in `main`'s graph, labels 1 and 2 have odd degree |
| Scenarios.MainStart | src/main.rs:111-116 | in `main`'s graph, the walk starts at label 2 |
| Scenarios.MainVerdict | src/main.rs:70-77 | `main`'s graph has a cycle and passes the test |
| Scenarios.MainWalk | src/main.rs:90-108 | the walk over `main`'s graph uses all eight edges and ends at label 1 |
| Scenarios.MainRun | src/main.rs:16-36 | `apply_fleury` on `main`'s graph returns the eight pairs 2-5, 5-1, 1-6, 6-4, 4-1, 1-3, 3-2, 2-1 |
| Scenarios.TriangleRun | src/main.rs:80-87 | a triangle passes, and the walk returns the closed trail 1-2, 2-3, 3-1 |
| Scenarios.PathAcyclic | src/main.rs:71 | the path 1-2-3-4 has no cycle |
| Scenarios.PathVerdict | src/main.rs:70-77 | the path has two odd nodes but no cycle, so it is rejected |
| Scenarios.PathWalk | src/main.rs:90-108 | the walk from label 1 would cover the whole path |
| Scenarios.PathRun | src/main.rs:80-87 | `apply_fleury` on the path returns `None` |
| Scenarios.StarVerdict | src/main.rs:70-77 | a star with four leaves has four odd nodes and is rejected |
| Scenarios.StarRun | src/main.rs:80-87 | `apply_fleury` on the star returns `None` |
| Scenarios.TwoTrianglesVerdict | src/main.rs:70-77 | two disjoint triangles pass, though they are not connected |
| Scenarios.TwoTrianglesWalk | src/main.rs:90-108 | the walk goes round the first triangle and stops with the second triangle's three edges left |
| Scenarios.TwoTrianglesRun | src/main.rs:80-87 | `apply_fleury` returns the three pairs of the first triangle |
| Scenarios.BowtieWalk | src/main.rs:93-107 | on the bowtie the first-available edge at the shared node is a bridge, so the walk stops with three edges left |
| Scenarios.BowtieRun | src/main.rs:80-87 | `apply_fleury` on the bowtie returns 1-2, 2-3, 3-1 |

## Left out

- `clear_terminal` and every `print!`. The trail is returned as a sequence of label pairs, and "Unable to apply!" is `None`.
- `is_cyclic_undirected`'s own algorithm. The model defines the ghost predicate `IsCyclic`: a closed trail of one or more distinct edges exists, so a self-loop or two parallel edges count. The program's answer enters as the parameter `isCyclic`, which is required to equal that predicate.
- UnGraphs.Neighbours: lists neighbours in edge-list order. petgraph lists outgoing edges newest first and then incoming edges newest first, so on an arbitrary edge list the model's walk can differ from the program's. The edge lists in `Scenarios` are written so that the two orders pick the same edge at every step of their walks.
- UnGraphs.Without: deletes by position and keeps the order of the other edges. It does not model petgraph's swap-remove renumbering of edge indices.
- Edge weights (the `&str` names): the program never reads them.
- Integer widths. Labels are `int` and degrees `nat`. An `i32` label is only printed, and a `usize` degree is at most twice the edge count, so neither wraps.
- Completeness. Nothing states that the walk uses every edge, because the program has no bridge test. `Scenarios.BowtieWalk` and `Scenarios.TwoTrianglesWalk` show it stopping early, the bowtie because its first-available edge at the shared node is a bridge.
- Connectivity. `Eulerian.HasAnEulerianPath` follows the code's cycle test, not the connectivity criterion a textbook uses.
- The `unwrap`s. Those at `src/main.rs:64` and `src/main.rs:120` become preconditions of `LowestOddDegree` and `FirstNode`. Those on `find_edge` and `node_weight` are proved never to fail.
