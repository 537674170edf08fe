/** Paths, reachability and strongly connected components of a finite directed graph.
    A graph is the edge map of the dependency check: a node that is only ever a target
    has no entry and therefore no successors. */
module Reachability {
  import opened Wrappers

  type Node = string
  type Graph = map<Node, set<Node>>

  function Successors(g: Graph, x: Node): set<Node> {
    if x in g then g[x] else {}
  }

  /** Every node mentioned by the graph, as an owner or as a target. */
  function Nodes(g: Graph): set<Node> {
    g.Keys + set x, y | x in g.Keys && y in g[x] :: y
  }

  ghost predicate IsPath(g: Graph, p: seq<Node>) {
    && p != []
    && forall i :: 0 <= i < |p| - 1 ==> p[i + 1] in Successors(g, p[i])
  }

  ghost predicate PathFrom(g: Graph, p: seq<Node>, x: Node, y: Node) {
    IsPath(g, p) && p[0] == x && p[|p| - 1] == y
  }

  ghost predicate Reach(g: Graph, x: Node, y: Node) {
    exists p :: PathFrom(g, p, x, y)
  }

  lemma ReachRefl(g: Graph, x: Node)
    ensures Reach(g, x, x)
  {
    assert PathFrom(g, [x], x, x);
  }

  lemma ReachEdge(g: Graph, x: Node, y: Node)
    requires y in Successors(g, x)
    ensures Reach(g, x, y)
  {
    assert PathFrom(g, [x, y], x, y);
  }

  lemma ReachTrans(g: Graph, x: Node, y: Node, z: Node)
    requires Reach(g, x, y) && Reach(g, y, z)
    ensures Reach(g, x, z)
  {
    var p :| PathFrom(g, p, x, y);
    var q :| PathFrom(g, q, y, z);
    var r := p + q[1..];
    forall i | 0 <= i < |r| - 1
      ensures r[i + 1] in Successors(g, r[i])
    {
      if i >= |p| - 1 {
        assert r[i] == q[i - (|p| - 1)];
        assert r[i + 1] == q[i - (|p| - 1) + 1];
      }
    }
    assert PathFrom(g, r, x, z);
  }

  ghost predicate Closed(g: Graph, s: set<Node>) {
    forall x :: x in s ==> Successors(g, x) <= s
  }

  /** A path never leaves a set that is closed under edges. */
  lemma {:induction false} PathStays(g: Graph, s: set<Node>, p: seq<Node>)
    requires Closed(g, s) && IsPath(g, p) && p[0] in s
    ensures p[|p| - 1] in s
  {
    if |p| > 1 {
      assert p[0 + 1] in Successors(g, p[0]);
      var q := p[1..];
      forall i | 0 <= i < |q| - 1
        ensures q[i + 1] in Successors(g, q[i])
      {
        assert p[i + 1 + 1] in Successors(g, p[i + 1]);
      }
      PathStays(g, s, q);
    }
  }

  lemma ClosedReach(g: Graph, s: set<Node>, x: Node, y: Node)
    requires Closed(g, s) && x in s && Reach(g, x, y)
    ensures y in s
  {
    var p :| PathFrom(g, p, x, y);
    PathStays(g, s, p);
  }

  ghost predicate Mutual(g: Graph, x: Node, y: Node) {
    Reach(g, x, y) && Reach(g, y, x)
  }

  /** The strongly connected component of x: a maximal set of mutually reachable nodes. */
  ghost function Component(g: Graph, x: Node): set<Node> {
    set y | y in Nodes(g) && Mutual(g, x, y)
  }

  /** A strongly connected component with at least two nodes: a dependency cycle. */
  ghost predicate IsCycle(g: Graph, c: set<Node>) {
    |c| >= 2 && exists x :: x in Nodes(g) && c == Component(g, x)
  }

  lemma ComponentAgrees(g: Graph, x: Node, y: Node)
    requires Mutual(g, x, y)
    ensures Component(g, x) == Component(g, y)
  {
    forall z | z in Nodes(g)
      ensures Mutual(g, x, z) <==> Mutual(g, y, z)
    {
      if Mutual(g, x, z) { ReachTrans(g, y, x, z); ReachTrans(g, z, x, y); }
      if Mutual(g, y, z) { ReachTrans(g, x, y, z); ReachTrans(g, z, y, x); }
    }
  }

  /** Two distinct nodes lie on a common closed walk exactly when some cycle contains both. */
  lemma CycleIffMutual(g: Graph)
    ensures (exists c :: IsCycle(g, c)) <==>
            (exists x, y :: x in Nodes(g) && y in Nodes(g) && x != y && Mutual(g, x, y))
  {
    if c :| IsCycle(g, c) {
      var x :| x in Nodes(g) && c == Component(g, x);
      ReachRefl(g, x);
      assert x in c;
      assert |c - {x}| == |c| - 1;
      if c - {x} == {} {
        assert false;
      }
      var y :| y in c - {x};
      assert x != y && Mutual(g, x, y);
    }
    if x, y :| x in Nodes(g) && y in Nodes(g) && x != y && Mutual(g, x, y) {
      var c := Component(g, x);
      ReachRefl(g, x);
      assert {x, y} <= c;
      Fewer({x, y}, c);
      assert IsCycle(g, c);
    }
  }
}
