/** The state-graph builder the workflow's graphs are assembled with: named nodes,
    plain edges, and conditional edges whose routing answer picks the next node.
    Executing a compiled graph is not modelled here; each graph module runs its
    nodes along the paths these topologies allow. */
module Graph {
  import opened Wrappers

  /** The graph library's names for the entry and exit points. */
  const Start: string := "__start__"
  const End: string := "__end__"

  datatype Edge = Edge(src: string, dst: string)

  /** `add_conditional_edges(src, route, mapping)`: each routing answer and the node
      it leads to. */
  datatype Branch = Branch(src: string, routes: seq<(string, string)>)

  datatype Topology = Topology(nodes: seq<string>, edges: seq<Edge>, branches: seq<Branch>)

  /** A compiled graph: its topology and the nodes execution pauses before. */
  datatype Compiled = Compiled(topology: Topology, interruptBefore: seq<string>)

  /** The builder (`StateGraph`) that the graph factories fill in step by step. */
  class GraphBuilder {
    var nodes: seq<string>
    var edges: seq<Edge>
    var branches: seq<Branch>

    constructor()
      ensures nodes == [] && edges == [] && branches == []
    {
      nodes, edges, branches := [], [], [];
    }

    function Topo(): Topology
      reads this
    {
      Topology(nodes, edges, branches)
    }

    method AddNode(name: string)
      modifies this
      ensures nodes == old(nodes) + [name]
      ensures edges == old(edges) && branches == old(branches)
    {
      nodes := nodes + [name];
    }

    method AddEdge(src: string, dst: string)
      modifies this
      ensures edges == old(edges) + [Edge(src, dst)]
      ensures nodes == old(nodes) && branches == old(branches)
    {
      edges := edges + [Edge(src, dst)];
    }

    method AddConditionalEdges(src: string, routes: seq<(string, string)>)
      modifies this
      ensures branches == old(branches) + [Branch(src, routes)]
      ensures nodes == old(nodes) && edges == old(edges)
    {
      branches := branches + [Branch(src, routes)];
    }
  }

  /** The nodes a run can move to from `a`: targets of plain edges from `a`, then
      the targets of the routes of conditional edges from `a`. */
  function Succs(t: Topology, a: string): (r: seq<string>)
    ensures forall k :: 0 <= k < |t.edges| && t.edges[k].src == a ==> t.edges[k].dst in r
  {
    EdgeTargets(t.edges, a) + BranchTargets(t.branches, a)
  }

  function EdgeTargets(es: seq<Edge>, a: string): (r: seq<string>)
    ensures forall k :: 0 <= k < |es| && es[k].src == a ==> es[k].dst in r
    ensures forall x :: x in r ==> exists k :: 0 <= k < |es| && es[k] == Edge(a, x)
  {
    if |es| == 0 then []
    else
      var rest := EdgeTargets(es[1..], a);
      assert forall k :: 1 <= k < |es| ==> es[k] == es[1..][k - 1];
      if es[0].src == a then [es[0].dst] + rest else rest
  }

  function BranchTargets(bs: seq<Branch>, a: string): (r: seq<string>)
    ensures forall x :: x in r ==>
              (exists k, j :: 0 <= k < |bs| && bs[k].src == a
                              && 0 <= j < |bs[k].routes| && bs[k].routes[j].1 == x)
  {
    if |bs| == 0 then []
    else
      var rest := BranchTargets(bs[1..], a);
      assert forall k :: 1 <= k < |bs| ==> bs[k] == bs[1..][k - 1];
      if bs[0].src == a then
        var here := seq(|bs[0].routes|, j requires 0 <= j < |bs[0].routes| => bs[0].routes[j].1);
        assert forall x :: x in here ==> exists j :: 0 <= j < |bs[0].routes| && bs[0].routes[j].1 == x;
        here + rest
      else rest
  }

  /** The successors of `a` stay within `allowed` when every plain and conditional
      edge leaving `a` leads into it. */
  lemma SuccsWithin(t: Topology, a: string, allowed: set<string>)
    requires forall k :: 0 <= k < |t.edges| && t.edges[k].src == a ==> t.edges[k].dst in allowed
    requires forall k, j :: (0 <= k < |t.branches| && t.branches[k].src == a
                             && 0 <= j < |t.branches[k].routes|) ==> t.branches[k].routes[j].1 in allowed
    ensures forall x :: x in Succs(t, a) ==> x in allowed
  {
    forall x | x in Succs(t, a) ensures x in allowed {
      if x in EdgeTargets(t.edges, a) {
        var k :| 0 <= k < |t.edges| && t.edges[k] == Edge(a, x);
      } else {
        assert x in BranchTargets(t.branches, a);
      }
    }
  }

  /** A sequence of nodes a run can visit, starting at the entry point. */
  predicate IsPath(t: Topology, p: seq<string>) {
    |p| >= 1 && p[0] == Start && forall k :: 0 <= k < |p| - 1 ==> p[k + 1] in Succs(t, p[k])
  }

  /** No plain or conditional edge leads to `n`. */
  predicate NoIncoming(t: Topology, n: string) {
    (forall k :: 0 <= k < |t.edges| ==> t.edges[k].dst != n)
    && forall k, j :: 0 <= k < |t.branches| && 0 <= j < |t.branches[k].routes| ==>
         t.branches[k].routes[j].1 != n
  }

  /** A node other than the entry point that no edge leads to is on no path. */
  lemma Unreachable(t: Topology, p: seq<string>, n: string)
    requires IsPath(t, p) && NoIncoming(t, n) && n != Start
    ensures n !in p
  {
    forall k | 1 <= k < |p| ensures p[k] != n {
      var x := p[k];
      assert x in Succs(t, p[k - 1]);
      if x in EdgeTargets(t.edges, p[k - 1]) {
        var i :| 0 <= i < |t.edges| && t.edges[i] == Edge(p[k - 1], x);
      } else {
        assert x in BranchTargets(t.branches, p[k - 1]);
      }
    }
  }

  /** `c` is the one route through `t`: it runs from the entry to the exit point
      without repeating a node, each of its edges is in `t`, and every edge leaving
      one of its nodes is the next edge of `c` (no conditional edge leaves it). */
  predicate Linear(t: Topology, c: seq<string>) {
    && |c| >= 2 && c[0] == Start && c[|c| - 1] == End
    && (forall i, j :: 0 <= i < j < |c| ==> c[i] != c[j])
    && (forall i :: 0 <= i < |c| - 1 ==> c[i + 1] in Succs(t, c[i]))
    && (forall i, x :: 0 <= i < |c| && x in Succs(t, c[i]) ==> i + 1 < |c| && x == c[i + 1])
  }

  /** Along a linear topology every run visits a prefix of the route, in order,
      each node at most once. */
  lemma {:induction false} LinearPaths(t: Topology, c: seq<string>, p: seq<string>)
    requires Linear(t, c) && IsPath(t, p)
    ensures |p| <= |c| && p == c[..|p|]
    decreases |p|
  {
    if |p| > 1 {
      var q := p[..|p| - 1];
      assert IsPath(t, q);
      LinearPaths(t, c, q);
      var i := |q| - 1;
      assert p[i] == c[i];
      assert p[i + 1] in Succs(t, c[i]);
    }
  }

  /** Whether a plain-edge topology is linear along `c` is decided edge by edge. */
  lemma LinearByEdges(t: Topology, c: seq<string>)
    requires |c| >= 2 && c[0] == Start && c[|c| - 1] == End
    requires forall i, j :: 0 <= i < j < |c| ==> c[i] != c[j]
    requires forall k :: 0 <= k < |t.branches| ==> t.branches[k].src !in c
    requires forall i :: 0 <= i < |c| - 1 ==> Edge(c[i], c[i + 1]) in t.edges
    requires forall k :: 0 <= k < |t.edges| && t.edges[k].src in c ==>
               exists i :: 0 <= i < |c| - 1 && t.edges[k] == Edge(c[i], c[i + 1])
    ensures Linear(t, c)
  {
    forall i | 0 <= i < |c| - 1 ensures c[i + 1] in Succs(t, c[i]) {
      var k :| 0 <= k < |t.edges| && t.edges[k] == Edge(c[i], c[i + 1]);
    }
    forall i, x | 0 <= i < |c| && x in Succs(t, c[i]) ensures i + 1 < |c| && x == c[i + 1] {
      if x in EdgeTargets(t.edges, c[i]) {
        var k :| 0 <= k < |t.edges| && t.edges[k] == Edge(c[i], x);
        var m :| 0 <= m < |c| - 1 && t.edges[k] == Edge(c[m], c[m + 1]);
        assert m == i;
      } else {
        assert false;
      }
    }
  }
}
