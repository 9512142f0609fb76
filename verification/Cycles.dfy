/** Finite directed graphs: walks, cycles, and post-orders as proof that there is none. */
module Cycles {
  type Node = string
  type Graph = map<Node, seq<Node>>

  /** An edge between two nodes of the graph; names outside it are leaves. */
  predicate Edge(g: Graph, u: Node, v: Node) { u in g && v in g && v in g[u] }

  predicate Walk(g: Graph, p: seq<Node>) {
    (forall i :: 0 <= i < |p| ==> p[i] in g) && forall i :: 0 <= i < |p| - 1 ==> Edge(g, p[i], p[i + 1])
  }

  /** A closed walk. */
  predicate IsCycle(g: Graph, c: seq<Node>) { c != [] && Walk(g, c) && Edge(g, c[|c| - 1], c[0]) }

  ghost predicate Reaches(g: Graph, u: Node, v: Node) { exists p :: Walk(g, p) && p != [] && p[0] == u && p[|p| - 1] == v }

  /** Distinct nodes, each after everything it points at. */
  ghost predicate PostOrder(g: Graph, order: seq<Node>) {
    && (forall i :: 0 <= i < |order| ==> order[i] in g)
    && (forall i, j :: 0 <= i < j < |order| ==> order[i] != order[j])
    && forall i, v :: 0 <= i < |order| && Edge(g, order[i], v) ==> v in order[..i]
  }

  /** Position in the order: it drops along every edge. */
  function Rank(order: seq<Node>, v: Node): nat
    requires v in order
  {
    if order[|order| - 1] == v then |order| - 1 else Rank(order[..|order| - 1], v)
  }

  lemma {:induction false} RankIs(order: seq<Node>, v: Node)
    requires v in order
    ensures Rank(order, v) < |order| && order[Rank(order, v)] == v
  {
    if order[|order| - 1] != v { RankIs(order[..|order| - 1], v); }
  }

  lemma RankDrops(g: Graph, order: seq<Node>, u: Node, v: Node)
    requires PostOrder(g, order) && u in order && Edge(g, u, v)
    ensures v in order && Rank(order, v) < Rank(order, u)
  {
    RankIs(order, u);
    var i := Rank(order, u);
    assert v in order[..i];
    var j :| 0 <= j < i && order[..i][j] == v;
    RankIs(order, v);
    assert order[j] == v;
  }

  /** Along a walk from an ordered node, everything is ordered and ranks fall. */
  lemma {:induction false} WalkFalls(g: Graph, order: seq<Node>, p: seq<Node>)
    requires PostOrder(g, order) && Walk(g, p) && p != [] && p[0] in order
    ensures p[|p| - 1] in order && Rank(order, p[|p| - 1]) <= Rank(order, p[0])
    decreases |p|
  {
    if |p| > 1 {
      assert Edge(g, p[0], p[0 + 1]);
      RankDrops(g, order, p[0], p[1]);
      WalkSuffix(g, p, 1);
      WalkFalls(g, order, p[1..]);
    }
  }

  /** An ordered node is on no cycle. */
  lemma OrderedIsAcyclic(g: Graph, order: seq<Node>, c: seq<Node>)
    requires PostOrder(g, order) && IsCycle(g, c)
    ensures c[0] !in order
  {
    if c[0] in order {
      WalkFalls(g, order, c);
      RankDrops(g, order, c[|c| - 1], c[0]);
    }
  }

  /** Following an edge back into a walk closes it. */
  lemma ClosesCycle(g: Graph, path: seq<Node>, k: nat)
    requires Walk(g, path) && k < |path| && Edge(g, path[|path| - 1], path[k])
    ensures IsCycle(g, path[k..])
  {
    WalkSuffix(g, path, k);
  }

  lemma WalkSuffix(g: Graph, p: seq<Node>, k: nat)
    requires Walk(g, p) && k <= |p|
    ensures Walk(g, p[k..])
  {
    var c := p[k..];
    forall i | 0 <= i < |c| - 1 ensures Edge(g, c[i], c[i + 1]) {
      assert Edge(g, p[k + i], p[k + i + 1]);
    }
  }

  lemma WalkExtends(g: Graph, p: seq<Node>, v: Node)
    requires Walk(g, p) && v in g && (p != [] ==> Edge(g, p[|p| - 1], v))
    ensures Walk(g, p + [v])
  {
    var q := p + [v];
    forall i | 0 <= i < |q| - 1 ensures Edge(g, q[i], q[i + 1]) {
      if i < |p| - 1 { assert Edge(g, p[i], p[i + 1]); }
    }
  }
}
