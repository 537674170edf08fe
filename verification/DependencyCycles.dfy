/** The one-pass search for dependency cycles between packages (Tarjan's algorithm): a recursive
    visit that numbers nodes, keeps a stack of nodes whose component is still open, and pops one
    whole component when a node's low link is its own number. */
module DependencyCycles {
  import opened Reachability

  /** What the visit keeps between calls. */
  datatype Search = Search(
    index: nat,
    indices: map<Node, nat>,
    lowlinks: map<Node, nat>,
    stack: seq<Node>,
    cycles: seq<set<Node>>)

  function Elems(s: seq<Node>): set<Node> {
    set x | x in s
  }

  /** Nodes whose component has been popped. */
  function Popped(s: Search): set<Node> {
    s.indices.Keys - Elems(s.stack)
  }

  ghost predicate Numbered(s: Search) {
    && s.lowlinks.Keys == s.indices.Keys
    && (forall x :: x in s.indices ==> s.indices[x] < s.index)
    && (forall i :: 0 <= i < |s.stack| ==> s.stack[i] in s.indices)
    && (forall i, j :: 0 <= i < j < |s.stack| ==> s.indices[s.stack[i]] < s.indices[s.stack[j]])
  }

  /** The stack is a chain: every node on it reaches every later one. */
  ghost predicate Chained(g: Graph, stack: seq<Node>) {
    forall i, j :: 0 <= i <= j < |stack| ==> Reach(g, stack[i], stack[j])
  }

  ghost predicate AnchoredAt(g: Graph, stack: seq<Node>, open: set<Node>, i: nat, j: nat)
    requires i < |stack|
  {
    j <= i && stack[j] in open && Reach(g, stack[i], stack[j])
  }

  ghost predicate HasAnchor(g: Graph, stack: seq<Node>, open: set<Node>, i: nat)
    requires i < |stack|
  {
    exists j: nat :: AnchoredAt(g, stack, open, i, j)
  }

  /** Every node on the stack leads back to a node, not above it, whose visit is still open. */
  ghost predicate Anchored(g: Graph, stack: seq<Node>, open: set<Node>) {
    forall i :: 0 <= i < |stack| ==> HasAnchor(g, stack, open, i)
  }

  /** Visits that have returned looked at every successor. */
  ghost predicate Scanned(g: Graph, s: Search, open: set<Node>) {
    forall i :: 0 <= i < |s.stack| && s.stack[i] !in open ==> Successors(g, s.stack[i]) <= s.indices.Keys
  }

  /** The components popped so far are whole, and the large ones are reported exactly once. */
  ghost predicate Reported(g: Graph, popped: set<Node>, cycles: seq<set<Node>>) {
    && (forall x :: x in popped ==> Component(g, x) <= popped)
    && (forall x :: x in popped && |Component(g, x)| >= 2 ==> Component(g, x) in cycles)
    && (forall c :: c in cycles ==> IsCycle(g, c) && c <= popped)
    && (forall i, j :: 0 <= i < j < |cycles| ==> cycles[i] != cycles[j])
  }

  ghost predicate Inv(g: Graph, s: Search, open: set<Node>) {
    && Numbered(s)
    && s.indices.Keys <= Nodes(g)
    && open <= Elems(s.stack)
    && Chained(g, s.stack)
    && Anchored(g, s.stack, open)
    && Scanned(g, s, open)
    && Closed(g, Popped(s))
    && Reported(g, Popped(s), s.cycles)
  }

  lemma InvNumbered(g: Graph, s: Search, open: set<Node>)
    requires Inv(g, s, open)
    ensures Numbered(s)
  {
  }

  ghost predicate Extends(s: Search, t: Search) {
    && |s.stack| <= |t.stack| && t.stack[..|s.stack|] == s.stack
    && (forall x :: x in s.indices ==> x in t.indices && t.indices[x] == s.indices[x])
    && (forall x :: x in s.lowlinks ==> x in t.lowlinks && t.lowlinks[x] == s.lowlinks[x])
  }

  ghost predicate LowWitness(g: Graph, s: Search, node: Node, k: nat) {
    && node in s.lowlinks && k < |s.stack| && s.stack[k] in s.indices
    && s.lowlinks[node] == s.indices[s.stack[k]] && Reach(g, node, s.stack[k])
  }


  /** Every scanned edge that leaves the stack part from `from` up, towards a node below it,
      is accounted for by `low`. */
  ghost predicate LowBound(g: Graph, s: Search, from: nat, low: nat) {
    forall i, k | 0 <= k < from <= i < |s.stack| && s.stack[k] in Successors(g, s.stack[i]) ::
      s.stack[k] in s.indices ==> low <= s.indices[s.stack[k]]
  }

  ghost predicate LowBoundDone(s: Search, from: nat, done: set<Node>, low: nat) {
    forall k | 0 <= k < from && k < |s.stack| && s.stack[k] in done ::
      s.stack[k] in s.indices ==> low <= s.indices[s.stack[k]]
  }

  /** What a returned visit of `node`, begun in `s`, promises about `t`. */
  ghost predicate Visited(g: Graph, s: Search, t: Search, open: set<Node>, node: Node) {
    && Inv(g, t, open)
    && Extends(s, t)
    && node in t.indices && t.indices[node] == s.index
    && (if |t.stack| == |s.stack| then t.lowlinks[node] == t.indices[node]
        else (exists k: nat :: k < |s.stack| && LowWitness(g, t, node, k))
             && LowBound(g, t, |s.stack|, t.lowlinks[node]))
  }

  /** The middle of a visit of `node` begun in `s`, after the targets in `done`. */
  ghost predicate Scanning(g: Graph, s: Search, t: Search, open: set<Node>, node: Node, done: set<Node>) {
    var n := |s.stack|;
    && Inv(g, t, open + {node})
    && open <= Elems(s.stack)
    && Extends(s, t)
    && node !in s.indices && node !in s.lowlinks
    && n < |t.stack| && t.stack[n] == node
    && t.indices[node] == s.index
    && done <= t.indices.Keys
    && (exists k: nat :: k <= n && LowWitness(g, t, node, k))
    && LowBound(g, t, n + 1, t.lowlinks[node])
    && LowBoundDone(t, n, done, t.lowlinks[node])
  }

  // ---- beginning a visit

  ghost function Begun(s: Search, node: Node): Search {
    Search(s.index + 1, s.indices[node := s.index], s.lowlinks[node := s.index], s.stack + [node], s.cycles)
  }

  ghost predicate MayVisit(g: Graph, s: Search, open: set<Node>, node: Node) {
    && Inv(g, s, open)
    && node in Nodes(g) && node !in s.indices
    && forall i :: 0 <= i < |s.stack| ==> Reach(g, s.stack[i], node)
  }

  lemma BegunChain(g: Graph, s: Search, open: set<Node>, node: Node)
    requires MayVisit(g, s, open, node)
    ensures Chained(g, Begun(s, node).stack)
    ensures Anchored(g, Begun(s, node).stack, open + {node})
  {
    var t := Begun(s, node).stack;
    ReachRefl(g, node);
    forall i | 0 <= i < |t|
      ensures HasAnchor(g, t, open + {node}, i)
    {
      if i < |s.stack| {
        assert HasAnchor(g, s.stack, open, i);
        var j: nat :| AnchoredAt(g, s.stack, open, i, j);
        assert AnchoredAt(g, t, open + {node}, i, j);
      } else {
        assert AnchoredAt(g, t, open + {node}, i, i);
      }
    }
  }

  lemma BegunScanning(g: Graph, s: Search, open: set<Node>, node: Node)
    requires MayVisit(g, s, open, node)
    ensures Scanning(g, s, Begun(s, node), open, node, {})
  {
    hide Chained, Anchored, Closed, Reported, Nodes;
    var t := Begun(s, node);
    BegunChain(g, s, open, node);
    assert Elems(t.stack) == Elems(s.stack) + {node};
    assert Popped(t) == Popped(s);
    ReachRefl(g, node);
    assert t.stack[|s.stack|] == node;
    assert LowWitness(g, t, node, |s.stack|);
  }

  // ---- one target

  lemma AllReachNode(g: Graph, s: Search, t: Search, open: set<Node>, node: Node, done: set<Node>, i: nat)
    requires Scanning(g, s, t, open, node, done)
    requires i < |t.stack|
    ensures Reach(g, t.stack[i], node)
  {
    var n := |s.stack|;
    assert HasAnchor(g, t.stack, open + {node}, i);
    var j: nat :| AnchoredAt(g, t.stack, open + {node}, i, j);
    if t.stack[j] != node {
      OpenIsBelow(s, t, open, j);
      ReachTrans(g, t.stack[i], t.stack[j], t.stack[n]);
    }
  }

  /** A node of the older stack keeps its place. */
  lemma OpenIsBelow(s: Search, t: Search, open: set<Node>, j: nat)
    requires Numbered(t) && Extends(s, t) && open <= Elems(s.stack)
    requires j < |t.stack| && t.stack[j] in open
    ensures j < |s.stack|
  {
    var k :| 0 <= k < |s.stack| && s.stack[k] == t.stack[j];
    assert t.stack[..|s.stack|][k] == t.stack[k];
  }

  lemma MayVisitTarget(g: Graph, s: Search, t: Search, open: set<Node>, node: Node, done: set<Node>, target: Node)
    requires Scanning(g, s, t, open, node, done)
    requires target in Successors(g, node) && target !in t.indices
    ensures MayVisit(g, t, open + {node}, target)
  {
    ReachEdge(g, node, target);
    forall i | 0 <= i < |t.stack|
      ensures Reach(g, t.stack[i], target)
    {
      AllReachNode(g, s, t, open, node, done, i);
      ReachTrans(g, t.stack[i], node, target);
    }
  }

  function Min(a: nat, b: nat): nat {
    if b < a then b else a
  }

  function Lowered(t: Search, node: Node, value: nat): Search
    requires node in t.lowlinks
  {
    t.(lowlinks := t.lowlinks[node := Min(t.lowlinks[node], value)])
  }

  lemma LoweredInv(g: Graph, t: Search, open: set<Node>, node: Node, value: nat)
    requires Inv(g, t, open) && node in t.lowlinks
    ensures Inv(g, Lowered(t, node, value), open)
  {
    var u := Lowered(t, node, value);
    assert Popped(u) == Popped(t);
  }

  lemma ExtendsLowered(s: Search, t: Search, node: Node, value: nat)
    requires Extends(s, t) && node !in s.lowlinks && node in t.lowlinks
    ensures Extends(s, Lowered(t, node, value))
  {
  }

  lemma ExtendsTrans(s: Search, t: Search, u: Search)
    requires Extends(s, t) && Extends(t, u)
    ensures Extends(s, u)
  {
    assert u.stack[..|s.stack|] == u.stack[..|t.stack|][..|s.stack|];
  }

  lemma TargetPopped(g: Graph, s: Search, t: Search, open: set<Node>, node: Node, done: set<Node>, target: Node)
    requires Scanning(g, s, t, open, node, done)
    requires target in t.indices && target !in Elems(t.stack)
    ensures Scanning(g, s, t, open, node, done + {target})
  {
  }

  lemma ActiveWitness(g: Graph, t: Search, node: Node, target: Node, n: nat)
    requires Numbered(t) && target in Successors(g, node) && target in Elems(t.stack)
    requires n < |t.stack| && t.stack[n] == node
    requires exists k: nat :: k <= n && LowWitness(g, t, node, k)
    ensures node in t.lowlinks && target in t.indices
    ensures exists k: nat :: k <= n && LowWitness(g, Lowered(t, node, t.indices[target]), node, k)
  {
    hide Reach;
    var u := Lowered(t, node, t.indices[target]);
    var k: nat :| k < |t.stack| && t.stack[k] == target;
    ReachEdge(g, node, target);
    var k0: nat :| k0 <= n && LowWitness(g, t, node, k0);
    if t.indices[target] < t.lowlinks[node] {
      assert LowWitness(g, u, node, k);
    } else {
      assert LowWitness(g, u, node, k0);
    }
  }

  lemma TargetActive(g: Graph, s: Search, t: Search, open: set<Node>, node: Node, done: set<Node>, target: Node)
    requires Scanning(g, s, t, open, node, done)
    requires target in Successors(g, node) && target in Elems(t.stack)
    ensures target in t.indices
    ensures Scanning(g, s, Lowered(t, node, t.indices[target]), open, node, done + {target})
  {
    hide Inv, Reach, Extends;
    InvNumbered(g, t, open + {node});
    ActiveWitness(g, t, node, target, |s.stack|);
    LoweredInv(g, t, open + {node}, node, t.indices[target]);
    ExtendsLowered(s, t, node, t.indices[target]);
  }

  /** After the recursive visit, the witness of the smaller low link is still on the stack. */
  lemma VisitedWitness(g: Graph, s: Search, t: Search, u: Search, open: set<Node>, node: Node, done: set<Node>,
                       target: Node)
    requires Scanning(g, s, t, open, node, done)
    requires target in Successors(g, node) && target !in t.indices
    requires Visited(g, t, u, open + {node}, target)
    ensures node in u.lowlinks && target in u.lowlinks
    ensures exists k: nat :: k <= |s.stack| && LowWitness(g, Lowered(u, node, u.lowlinks[target]), node, k)
  {
    var n := |s.stack|;
    var v := Lowered(u, node, u.lowlinks[target]);
    assert u.stack[..|t.stack|][n] == node;
    var k0: nat :| k0 <= n && LowWitness(g, t, node, k0);
    assert u.stack[..|t.stack|][k0] == t.stack[k0];
    if u.lowlinks[target] < u.lowlinks[node] {
      assert u.indices[node] < u.indices[target];
      var k: nat :| k < |t.stack| && LowWitness(g, u, target, k);
      ReachEdge(g, node, target);
      ReachTrans(g, node, target, u.stack[k]);
      assert k <= n;
      assert LowWitness(g, v, node, k);
    } else {
      assert LowWitness(g, v, node, k0);
    }
  }

  lemma VisitedBound(g: Graph, s: Search, t: Search, u: Search, open: set<Node>, node: Node, done: set<Node>,
                     target: Node)
    requires Scanning(g, s, t, open, node, done)
    requires target in Successors(g, node) && target !in t.indices
    requires Visited(g, t, u, open + {node}, target)
    requires node in u.lowlinks && target in u.lowlinks
    ensures LowBound(g, u, |s.stack| + 1, Min(u.lowlinks[node], u.lowlinks[target]))
  {
    hide Reach, Reported, Closed, Nodes, Anchored, Chained, Scanned;
    var n := |s.stack|;
    var low := Min(u.lowlinks[node], u.lowlinks[target]);
    forall i, k | 0 <= k < n + 1 <= i < |u.stack| && u.stack[k] in Successors(g, u.stack[i])
      ensures u.stack[k] in u.indices ==> low <= u.indices[u.stack[k]]
    {
      assert u.stack[..|t.stack|][k] == t.stack[k];
      if i < |t.stack| {
        assert u.stack[..|t.stack|][i] == t.stack[i];
      }
    }
  }

  lemma SameBound(g: Graph, s: Search, t: Search, from: nat, low: nat)
    requires LowBound(g, s, from, low) && s.stack == t.stack && s.indices == t.indices
    ensures LowBound(g, t, from, low)
  {
  }

  lemma SameBoundDone(s: Search, t: Search, from: nat, done: set<Node>, low: nat)
    requires LowBoundDone(s, from, done, low) && s.stack == t.stack && s.indices == t.indices
    ensures LowBoundDone(t, from, done, low)
  {
  }

  lemma VisitedDone(s: Search, t: Search, u: Search, done: set<Node>, target: Node, low: nat, low': nat)
    requires Numbered(t) && Extends(t, u) && low' <= low && |s.stack| < |t.stack| && target !in t.indices
    requires LowBoundDone(t, |s.stack|, done, low)
    ensures LowBoundDone(u, |s.stack|, done + {target}, low')
  {
    forall k | 0 <= k < |s.stack|
      ensures u.stack[k] == t.stack[k]
    {
      assert u.stack[..|t.stack|][k] == t.stack[k];
    }
  }

  lemma TargetVisited(g: Graph, s: Search, t: Search, u: Search, open: set<Node>, node: Node, done: set<Node>,
                      target: Node)
    requires Scanning(g, s, t, open, node, done)
    requires target in Successors(g, node) && target !in t.indices
    requires Visited(g, t, u, open + {node}, target)
    ensures node in u.lowlinks && target in u.lowlinks
    ensures Scanning(g, s, Lowered(u, node, u.lowlinks[target]), open, node, done + {target})
  {
    hide Inv, Reach, LowBound, LowBoundDone, LowWitness;
    var n := |s.stack|;
    InvNumbered(g, t, open + {node});
    VisitedWitness(g, s, t, u, open, node, done, target);
    VisitedBound(g, s, t, u, open, node, done, target);
    var v := Lowered(u, node, u.lowlinks[target]);
    VisitedDone(s, t, u, done, target, t.lowlinks[node], v.lowlinks[node]);
    SameBound(g, u, v, n + 1, v.lowlinks[node]);
    SameBoundDone(u, v, n, done + {target}, v.lowlinks[node]);
    LoweredInv(g, u, open + {node}, node, u.lowlinks[target]);
    ExtendsTrans(s, t, u);
    ExtendsLowered(s, u, node, u.lowlinks[target]);
    assert u.stack[..|t.stack|][n] == node;
  }

  // ---- returning from a visit

  /** A node whose low link is lower than its number leads to an open node below it. */
  lemma LowLeadsBelow(g: Graph, s: Search, t: Search, open: set<Node>, node: Node) returns (m: nat)
    requires Numbered(t) && Extends(s, t) && Anchored(g, s.stack, open)
    requires exists k: nat :: k < |s.stack| && LowWitness(g, t, node, k)
    ensures m < |s.stack| && t.stack[m] in open && Reach(g, node, t.stack[m])
  {
    hide Reach;
    var n := |s.stack|;
    var k: nat :| k < n && LowWitness(g, t, node, k);
    assert t.stack[..n][k] == s.stack[k];
    assert HasAnchor(g, s.stack, open, k);
    m :| AnchoredAt(g, s.stack, open, k, m);
    assert t.stack[..n][m] == s.stack[m];
    ReachTrans(g, node, t.stack[k], t.stack[m]);
  }

  lemma AnchoredBelow(g: Graph, t: Search, open: set<Node>, node: Node, n: nat, m: nat)
    requires Numbered(t) && Anchored(g, t.stack, open + {node})
    requires m < n < |t.stack| && t.stack[n] == node
    requires t.stack[m] in open && Reach(g, node, t.stack[m])
    ensures Anchored(g, t.stack, open)
  {
    hide Reach;
    forall i | 0 <= i < |t.stack|
      ensures HasAnchor(g, t.stack, open, i)
    {
      assert HasAnchor(g, t.stack, open + {node}, i);
      var j: nat :| AnchoredAt(g, t.stack, open + {node}, i, j);
      if t.stack[j] == node {
        ReachTrans(g, t.stack[i], node, t.stack[m]);
        assert j == n;
        assert AnchoredAt(g, t.stack, open, i, m);
      } else {
        assert AnchoredAt(g, t.stack, open, i, j);
      }
    }
  }

  lemma WitnessBelow(g: Graph, s: Search, t: Search, open: set<Node>, node: Node, done: set<Node>)
    requires Scanning(g, s, t, open, node, done)
    requires t.lowlinks[node] != t.indices[node]
    ensures exists k: nat :: k < |s.stack| && LowWitness(g, t, node, k)
  {
    hide Reach, Inv;
    var k: nat :| k <= |s.stack| && LowWitness(g, t, node, k);
  }

  lemma StaysOpenBound(g: Graph, s: Search, t: Search, open: set<Node>, node: Node)
    requires Scanning(g, s, t, open, node, Successors(g, node))
    ensures LowBound(g, t, |s.stack|, t.lowlinks[node])
  {
    hide Inv, Extends;
  }

  /** The node's component is still open: it stays on the stack, anchored below. */
  lemma StaysOpen(g: Graph, s: Search, t: Search, open: set<Node>, node: Node)
    requires Inv(g, s, open)
    requires Scanning(g, s, t, open, node, Successors(g, node))
    requires t.lowlinks[node] != t.indices[node]
    ensures Visited(g, s, t, open, node)
  {
    hide Reach, Reported, Closed, Nodes, Chained, Anchored, LowBound, LowBoundDone;
    StaysOpenBound(g, s, t, open, node);
    var n := |s.stack|;
    WitnessBelow(g, s, t, open, node, Successors(g, node));
    var m := LowLeadsBelow(g, s, t, open, node);
    AnchoredBelow(g, t, open, node, n, m);
    assert open <= Elems(t.stack) by {
      forall x | x in open ensures x in t.stack {
        var k :| 0 <= k < n && s.stack[k] == x;
        assert t.stack[..n][k] == x;
      }
    }
  }

  // ---- popping a component

  /** With the low link equal to the number, no edge leaves the popped part for the stack below. */
  lemma NoEdgeBelow(g: Graph, s: Search, t: Search, open: set<Node>, node: Node, i: nat, y: Node)
    requires Scanning(g, s, t, open, node, Successors(g, node))
    requires t.lowlinks[node] == t.indices[node]
    requires |s.stack| <= i < |t.stack| && y in Successors(g, t.stack[i])
    ensures y in t.indices
    ensures y in Elems(t.stack) ==> y in Elems(t.stack[|s.stack|..])
  {
    hide Reach, Reported, Closed, Nodes, Chained, Anchored;
    var n := |s.stack|;
    StaysOpenBound(g, s, t, open, node);
    if t.stack[i] != node && t.stack[i] in open {
      OpenIsBelow(s, t, open, i);
      assert false;
    }
    if y in t.stack {
      var k :| 0 <= k < |t.stack| && t.stack[k] == y;
      assert k >= n ==> t.stack[n..][k - n] == y;
    }
  }

  lemma PoppedPartClosed(g: Graph, s: Search, t: Search, open: set<Node>, node: Node)
    requires Scanning(g, s, t, open, node, Successors(g, node))
    requires t.lowlinks[node] == t.indices[node]
    ensures Closed(g, Popped(t) + Elems(t.stack[|s.stack|..]))
  {
    hide Reach, Reported, Nodes, Chained, Anchored, LowBound, LowBoundDone, LowWitness, Extends, Scanned;
    var n := |s.stack|;
    var c := Elems(t.stack[n..]);
    forall x, y | x in c && y in Successors(g, x)
      ensures y in Popped(t) + c
    {
      var i :| 0 <= i < |t.stack[n..]| && t.stack[n..][i] == x;
      NoEdgeBelow(g, s, t, open, node, n + i, y);
    }
  }

  lemma PoppedPartMutual(g: Graph, s: Search, t: Search, open: set<Node>, node: Node, y: Node)
    requires Scanning(g, s, t, open, node, Successors(g, node))
    requires y in Elems(t.stack[|s.stack|..])
    ensures y in Component(g, node)
  {
    hide Reach, Reported, Closed, Nodes, Anchored, LowBound, LowBoundDone, LowWitness, Extends, Scanned;
    var n := |s.stack|;
    var i :| 0 <= i < |t.stack[n..]| && t.stack[n..][i] == y;
    assert y == t.stack[n + i];
    AllReachNode(g, s, t, open, node, Successors(g, node), n + i);
  }

  lemma ComponentInPoppedPart(g: Graph, s: Search, t: Search, open: set<Node>, node: Node, z: Node)
    requires Scanning(g, s, t, open, node, Successors(g, node))
    requires t.lowlinks[node] == t.indices[node]
    requires z in Component(g, node)
    ensures z in Elems(t.stack[|s.stack|..])
  {
    hide Reach, Reported, Closed, Nodes, Anchored, Chained, LowBound, LowBoundDone, LowWitness, Extends, Scanned;
    var n := |s.stack|;
    var c := Elems(t.stack[n..]);
    assert t.stack[n..][0] == node;
    PoppedPartClosed(g, s, t, open, node);
    ClosedReach(g, Popped(t) + c, node, z);
    if z in Popped(t) {
      ClosedReach(g, Popped(t), z, node);
    }
  }

  /** What is popped is exactly the strongly connected component of the node. */
  lemma PopsComponent(g: Graph, s: Search, t: Search, open: set<Node>, node: Node)
    requires Scanning(g, s, t, open, node, Successors(g, node))
    requires t.lowlinks[node] == t.indices[node]
    ensures Elems(t.stack[|s.stack|..]) == Component(g, node)
  {
    hide Elems, Component, Inv, LowBound, LowBoundDone, LowWitness, Extends;
    var c := Elems(t.stack[|s.stack|..]);
    forall y | y in c ensures y in Component(g, node) {
      PoppedPartMutual(g, s, t, open, node, y);
    }
    forall y | y in Component(g, node) ensures y in c {
      ComponentInPoppedPart(g, s, t, open, node, y);
    }
  }

  function Appended(cycles: seq<set<Node>>, c: set<Node>): seq<set<Node>> {
    if |c| > 1 then cycles + [c] else cycles
  }

  lemma SharedComponent(g: Graph, node: Node, x: Node)
    requires x in Component(g, node)
    ensures Component(g, x) == Component(g, node)
  {
    hide Reach, Nodes;
    ComponentAgrees(g, node, x);
  }

  lemma InOwnComponent(g: Graph, node: Node)
    requires node in Nodes(g)
    ensures node in Component(g, node)
  {
    ReachRefl(g, node);
  }

  lemma ReportedGrows(g: Graph, popped: set<Node>, cycles: seq<set<Node>>, node: Node)
    requires Reported(g, popped, cycles)
    requires node in Nodes(g) && node !in popped
    ensures Reported(g, popped + Component(g, node), Appended(cycles, Component(g, node)))
  {
    hide Component, Nodes;
    var c := Component(g, node);
    InOwnComponent(g, node);
    assert forall d :: d in cycles ==> node !in d;
    forall x | x in c ensures Component(g, x) == c {
      SharedComponent(g, node, x);
    }
  }

  function Closing(s: Search, t: Search): Search
    requires |s.stack| <= |t.stack|
  {
    t.(stack := s.stack, cycles := Appended(t.cycles, Elems(t.stack[|s.stack|..])))
  }

  lemma ClosingPopped(s: Search, t: Search)
    requires Numbered(t) && Extends(s, t)
    ensures Popped(Closing(s, t)) == Popped(t) + Elems(t.stack[|s.stack|..])
  {
    var n := |s.stack|;
    var c := Elems(t.stack[n..]);
    assert t.stack == s.stack + t.stack[n..];
    forall x | x in c ensures x in t.indices && x !in Elems(s.stack) {
      var i :| 0 <= i < |t.stack[n..]| && t.stack[n..][i] == x;
      assert x == t.stack[n + i];
      forall k | 0 <= k < n ensures s.stack[k] != x {
        assert t.stack[..n][k] == t.stack[k];
        assert t.indices[t.stack[k]] < t.indices[t.stack[n + i]];
      }
    }
  }

  lemma ClosingNumbered(s: Search, t: Search)
    requires Numbered(s) && Numbered(t) && Extends(s, t)
    ensures Numbered(Closing(s, t)) && Extends(s, Closing(s, t))
  {
  }

  lemma ClosingScanned(g: Graph, s: Search, t: Search, open: set<Node>)
    requires Scanned(g, s, open) && Extends(s, t)
    ensures Scanned(g, Closing(s, t), open)
  {
    assert s.indices.Keys <= t.indices.Keys;
  }

  /** The node's component is complete: it leaves the stack and, when large, is reported. */
  lemma Closes(g: Graph, s: Search, t: Search, open: set<Node>, node: Node)
    requires Inv(g, s, open)
    requires Scanning(g, s, t, open, node, Successors(g, node))
    requires t.lowlinks[node] == t.indices[node]
    ensures Visited(g, s, Closing(s, t), open, node)
  {
    hide Reach, Reported, Closed, Nodes, Anchored, Chained, LowBound, LowBoundDone, LowWitness, Extends, Scanned,
         Numbered,
         Component, Appended;
    ClosingPopped(s, t);
    ClosingNumbered(s, t);
    ClosingScanned(g, s, t, open);
    PopsComponent(g, s, t, open, node);
    PoppedPartClosed(g, s, t, open, node);
    assert node !in Popped(t);
    ReportedGrows(g, Popped(t), t.cycles, node);
  }

  // ---- the search itself

  lemma StartsFresh(g: Graph, s: Search, open: set<Node>, node: Node)
    requires MayVisit(g, s, open, node)
    ensures Inv(g, s, open) && node in Nodes(g) && node !in s.indices
  {
  }

  lemma ExtendsStack(s: Search, t: Search)
    requires Extends(s, t)
    ensures |s.stack| <= |t.stack| && t.stack[..|s.stack|] == s.stack
  {
  }

  lemma NothingPopped(t: Search)
    ensures t.stack[..|t.stack|] == t.stack && Elems(t.stack[|t.stack|..]) == {}
  {
  }

  lemma ShorterPrefix(stack: seq<Node>, n: nat)
    requires 0 < n <= |stack|
    ensures stack[..n][..n - 1] == stack[..n - 1] && stack[..n][n - 1] == stack[n - 1]
  {
  }

  lemma PopsOne(t: Search, k: nat, n: nat)
    requires Numbered(t) && n <= k < |t.stack|
    ensures Elems(t.stack[..k + 1]) - {t.stack[k]} == Elems(t.stack[..k])
    ensures Elems(t.stack[k..]) == Elems(t.stack[k + 1..]) + {t.stack[k]}
    ensures t.stack[k] == t.stack[n] ==> k == n
  {
    assert t.stack[..k + 1] == t.stack[..k] + [t.stack[k]];
    assert t.stack[k..] == [t.stack[k]] + t.stack[k + 1..];
    forall i | 0 <= i < k ensures t.stack[i] != t.stack[k] {
      assert t.indices[t.stack[i]] < t.indices[t.stack[k]];
    }
  }

  lemma ScanningGrows(g: Graph, s: Search, t: Search, open: set<Node>, node: Node, done: set<Node>)
    requires Scanning(g, s, t, open, node, done)
    ensures Numbered(t) && Extends(s, t)
    ensures node in t.indices && node in t.lowlinks
    ensures |s.stack| < |t.stack| && t.stack[|s.stack|] == node
    ensures s.indices.Keys < t.indices.Keys <= Nodes(g)
  {
    assert node in t.indices.Keys - s.indices.Keys;
  }

  class Walk {
    const edges: Graph
    var index: nat
    var indices: map<Node, nat>
    var lowlinks: map<Node, nat>
    var stack: seq<Node>
    var active: set<Node>
    var cycles: seq<set<Node>>

    ghost function View(): Search
      reads this
    {
      Search(index, indices, lowlinks, stack, cycles)
    }

    constructor (edges: Graph)
      ensures this.edges == edges && active == Elems(stack)
      ensures View() == Search(0, map[], map[], [], [])
    {
      this.edges := edges;
      index, indices, lowlinks, stack, active, cycles := 0, map[], map[], [], {}, [];
    }

    /** Number `node`, visit its targets in any order, and pop its component if it is the root. */
    method Visit(node: Node, ghost open: set<Node>)
      requires active == Elems(stack)
      requires MayVisit(edges, View(), open, node)
      modifies this
      ensures active == Elems(stack)
      ensures Visited(edges, old(View()), View(), open, node)
      decreases Nodes(edges) - indices.Keys, 0
    {
      hide Inv, Scanning, Visited, MayVisit, Extends, Nodes;
      ghost var s := View();
      StartsFresh(edges, s, open, node);
      indices, lowlinks := indices[node := index], lowlinks[node := index];
      index := index + 1;
      stack, active := stack + [node], active + {node};
      assert View() == Begun(s, node);
      BegunScanning(edges, s, open, node);
      ghost var done: set<Node> := {};
      var pending := Successors(edges, node);
      while pending != {}
        invariant active == Elems(stack)
        invariant Scanning(edges, s, View(), open, node, done)
        invariant done + pending == Successors(edges, node)
        decreases pending
      {
        var target :| target in pending;
        ScanningGrows(edges, s, View(), open, node, done);
        VisitTarget(node, target, s, open, done);
        pending, done := pending - {target}, done + {target};
      }
      assert done == Successors(edges, node);
      ScanningGrows(edges, s, View(), open, node, done);
      if lowlinks[node] != indices[node] {
        StaysOpen(edges, s, View(), open, node);
        return;
      }
      Closes(edges, s, View(), open, node);
      PopComponent(node, s);
    }

    /** One turn of the visit's loop over the targets of `node`. */
    method VisitTarget(node: Node, target: Node, ghost s: Search, ghost open: set<Node>, ghost done: set<Node>)
      requires active == Elems(stack)
      requires Scanning(edges, s, View(), open, node, done)
      requires target in Successors(edges, node)
      modifies this
      ensures active == Elems(stack)
      ensures Scanning(edges, s, View(), open, node, done + {target})
      decreases Nodes(edges) - indices.Keys, 1
    {
      hide Inv, Scanning, Visited, MayVisit, Extends, Nodes;
      ghost var t := View();
      ScanningGrows(edges, s, t, open, node, done);
      if target !in indices {
        MayVisitTarget(edges, s, t, open, node, done, target);
        Visit(target, open + {node});
        TargetVisited(edges, s, t, View(), open, node, done, target);
        lowlinks := lowlinks[node := Min(lowlinks[node], lowlinks[target])];
      } else if target in active {
        TargetActive(edges, s, t, open, node, done, target);
        lowlinks := lowlinks[node := Min(lowlinks[node], indices[target])];
      } else {
        TargetPopped(edges, s, t, open, node, done, target);
      }
    }

    /** Pop down to and including `node`. */
    method PopComponent(node: Node, ghost s: Search)
      requires active == Elems(stack) && Numbered(View()) && Extends(s, View())
      requires |s.stack| < |stack| && stack[|s.stack|] == node
      modifies this
      ensures active == Elems(stack)
      ensures View() == Closing(s, old(View()))
    {
      hide Elems, Numbered, Extends;
      var component: set<Node> := {};
      ghost var t := View();
      NothingPopped(t);
      ExtendsStack(s, t);
      while stack != []
        invariant |s.stack| < |stack| <= |t.stack| && stack == t.stack[..|stack|]
        invariant active == Elems(stack)
        invariant component == Elems(t.stack[|stack|..])
        invariant index == t.index && indices == t.indices && lowlinks == t.lowlinks && cycles == t.cycles
      {
        var target := stack[|stack| - 1];
        PopsOne(t, |stack| - 1, |s.stack|);
        ShorterPrefix(t.stack, |stack|);
        stack := stack[..|stack| - 1];
        active := active - {target};
        component := component + {target};
        if target == node {
          break;
        }
      }
      if |component| > 1 {
        cycles := cycles + [component];
      }
    }
  }

  /** The dependency cycles of a graph: exactly its strongly connected components with two nodes
      or more, each reported once, whatever the visiting order. */
  method FindCycles(edges: Graph) returns (cycles: seq<set<Node>>)
    ensures forall c :: c in cycles <==> IsCycle(edges, c)
    ensures forall i, j :: 0 <= i < j < |cycles| ==> cycles[i] != cycles[j]
  {
    var walk := new Walk(edges);
    EmptyInv(edges);
    var pending := Nodes(edges);
    while pending != {}
      invariant walk.edges == edges
      invariant walk.active == Elems(walk.stack) && walk.stack == []
      invariant Inv(edges, walk.View(), {})
      invariant pending <= Nodes(edges) <= walk.indices.Keys + pending
      decreases pending
    {
      var node :| node in pending;
      if node !in walk.indices {
        ghost var s := walk.View();
        walk.Visit(node, {});
        NothingOpen(edges, s, walk.View(), node);
      }
      pending := pending - {node};
    }
    AllReported(edges, walk.View());
    return walk.cycles;
  }

  lemma EmptyInv(g: Graph)
    ensures Inv(g, Search(0, map[], map[], [], []), {})
  {
  }

  lemma NothingOpen(g: Graph, s: Search, t: Search, node: Node)
    requires Visited(g, s, t, {}, node)
    ensures t.stack == [] && Inv(g, t, {}) && Extends(s, t) && node in t.indices
  {
    hide Reach, Nodes, Reported, Closed;
    if t.stack != [] {
      var _ := HasAnchor(g, t.stack, {}, 0);
      assert false;
    }
  }

  lemma AllReported(g: Graph, s: Search)
    requires Inv(g, s, {}) && s.stack == [] && Nodes(g) <= s.indices.Keys
    ensures forall c :: c in s.cycles <==> IsCycle(g, c)
    ensures forall i, j :: 0 <= i < j < |s.cycles| ==> s.cycles[i] != s.cycles[j]
  {
    hide Component, Nodes;
    assert Popped(s) == s.indices.Keys;
  }

  /** The check passes exactly when no two distinct packages depend on each other. */
  method FindsNone(edges: Graph) returns (acyclic: bool)
    ensures acyclic <==> !exists x, y :: x in Nodes(edges) && y in Nodes(edges) && x != y && Mutual(edges, x, y)
  {
    var cycles := FindCycles(edges);
    acyclic := |cycles| == 0;
    CycleIffMutual(edges);
    if !acyclic {
      assert cycles[0] in cycles;
    }
  }
}
