/**
 Zero values of structs and enums. The two load-time cycle checks accept exactly
 the declarations whose zero values are finite, and then the mutually recursive
 constructors terminate.
 */
module ZeroValues {
  import opened Options
  import opened Cycles

  /** A field holds a type with a finite zero of its own, or a local struct or enum by value. */
  datatype FieldType = Plain | Local(name: string)

  /** Local declarations; no name is both. An enum has at least one variant. */
  datatype Decls = Decls(structs: map<string, seq<FieldType>>, enums: map<string, seq<seq<FieldType>>>)

  ghost predicate WellFormed(d: Decls) {
    d.structs.Keys !! d.enums.Keys && forall e :: e in d.enums ==> d.enums[e] != []
  }

  function Names(fs: seq<FieldType>): seq<string> {
    if fs == [] then [] else (if fs[0].Local? then [fs[0].name] else []) + Names(fs[1..])
  }

  /** The fields a zero value needs: all of a struct's, the first variant's of an enum. */
  function ZeroFields(d: Decls, n: string): seq<FieldType>
    requires n in d.structs || n in d.enums
  {
    if n in d.structs then d.structs[n] else if d.enums[n] == [] then [] else d.enums[n][0]
  }

  function StructGraph(d: Decls): Graph { map s | s in d.structs :: Names(d.structs[s]) }

  function ZeroGraph(d: Decls): Graph { map n | n in d.structs.Keys + d.enums.Keys :: Names(ZeroFields(d, n)) }

  // ----- the white / gray / black search -----

  datatype Color = Gray | Black

  ghost predicate ColorsOk(g: Graph, color: map<Node, Color>, path: seq<Node>, order: seq<Node>) {
    && PostOrder(g, order) && Walk(g, path)
    && (forall v :: v in color ==> v in g)
    && (forall v :: v in order <==> v in color && color[v].Black?)
    && (forall v :: v in path <==> v in color && color[v].Gray?)
  }

  /** visit: gray is a cycle, black is done, white is searched. */
  method Visit(g: Graph, n: Node, color: map<Node, Color>, ghost path: seq<Node>, ghost order: seq<Node>)
      returns (ok: bool, color': map<Node, Color>, ghost order': seq<Node>)
    requires ColorsOk(g, color, path, order) && n in g && (path != [] ==> Edge(g, path[|path| - 1], n))
    ensures ok ==> ColorsOk(g, color', path, order') && order <= order' && n in order' && color.Keys <= color'.Keys
    ensures !ok ==> exists c :: IsCycle(g, c)
    decreases g.Keys - color.Keys, 1
  {
    color', order' := color, order;
    if n in color {
      if color[n].Gray? {
        ghost var k :| 0 <= k < |path| && path[k] == n;
        ClosesCycle(g, path, k);
        return false, color', order';
      }
      return true, color', order';
    }
    WalkExtends(g, path, n);
    color' := color[n := Gray];
    assert n in g.Keys - color.Keys && n !in g.Keys - color'.Keys;
    ok, color', order' := VisitAll(g, n, color', path + [n], order);
    if !ok { return; }
    Blacken(g, n, color', path, order');
    color' := color'[n := Black];
    order' := order' + [n];
  }

  /** The loop over a node's by-value fields; names that are not local declarations are skipped. */
  method VisitAll(g: Graph, n: Node, color: map<Node, Color>, ghost path: seq<Node>, ghost order: seq<Node>)
      returns (ok: bool, color': map<Node, Color>, ghost order': seq<Node>)
    requires ColorsOk(g, color, path, order) && n in g && path != [] && path[|path| - 1] == n
    ensures ok ==> ColorsOk(g, color', path, order') && order <= order' && (forall v :: Edge(g, n, v) ==> v in order') && color.Keys <= color'.Keys
    ensures !ok ==> exists c :: IsCycle(g, c)
    decreases g.Keys - color.Keys, 2
  {
    color', order' := color, order;
    var deps := g[n];
    for i := 0 to |deps|
      invariant ColorsOk(g, color', path, order') && order <= order' && color.Keys <= color'.Keys
      invariant forall k :: 0 <= k < i && deps[k] in g ==> deps[k] in order'
    {
      if deps[i] in g {
        ok, color', order' := Visit(g, deps[i], color', path, order');
        if !ok { return; }
      }
    }
    ok := true;
  }

  lemma Blacken(g: Graph, n: Node, color: map<Node, Color>, path: seq<Node>, order: seq<Node>)
    requires ColorsOk(g, color, path + [n], order) && n !in path && n in g && forall v :: Edge(g, n, v) ==> v in order
    ensures ColorsOk(g, color[n := Black], path, order + [n])
  {
    assert n in path + [n];
    var order' := order + [n];
    forall i, v | 0 <= i < |order'| && Edge(g, order'[i], v) ensures v in order'[..i] {
      if i < |order| { assert order'[..i] == order[..i]; } else { assert order'[..i] == order; }
    }
    WalkPrefix(g, path, n);
    forall v ensures v in path <==> v in color[n := Black] && color[n := Black][v].Gray? {
      assert v in path + [n] <==> v in path || v == n;
    }
  }

  lemma WalkPrefix(g: Graph, path: seq<Node>, n: Node)
    requires Walk(g, path + [n])
    ensures Walk(g, path)
  {
    var q := path + [n];
    forall i | 0 <= i < |path| ensures path[i] in g { assert q[i] == path[i]; }
    forall i | 0 <= i < |path| - 1 ensures Edge(g, path[i], path[i + 1]) { assert Edge(g, q[i], q[i + 1]); }
  }

  /** Search from every root. */
  method CheckFrom(g: Graph, roots: seq<Node>) returns (ok: bool, ghost order: seq<Node>)
    requires forall r :: r in roots ==> r in g
    ensures ok ==> PostOrder(g, order) && forall r :: r in roots ==> r in order
    ensures !ok ==> exists c :: IsCycle(g, c)
  {
    var color: map<Node, Color> := map[];
    order := [];
    for i := 0 to |roots|
      invariant ColorsOk(g, color, [], order) && forall k :: 0 <= k < i ==> roots[k] in order
    {
      ok, color, order := Visit(g, roots[i], color, [], order);
      if !ok { return; }
    }
    ok := true;
  }

  // ----- the two checks together -----

  /** The struct-only cycles are cycles of the zero graph. */
  lemma StructEdgesAreZeroEdges(d: Decls, u: Node, v: Node)
    requires WellFormed(d)
    ensures Edge(StructGraph(d), u, v) ==> Edge(ZeroGraph(d), u, v)
    ensures Edge(ZeroGraph(d), u, v) && u in d.structs && v in d.structs ==> Edge(StructGraph(d), u, v)
  {
  }

  lemma StructCycleIsZeroCycle(d: Decls, c: seq<Node>)
    requires WellFormed(d) && IsCycle(StructGraph(d), c)
    ensures IsCycle(ZeroGraph(d), c)
  {
    hide StructGraph, ZeroGraph;
    StructEdgesAreZeroEdges(d, c[|c| - 1], c[0]);
    forall i | 0 <= i < |c| - 1 ensures Edge(ZeroGraph(d), c[i], c[i + 1]) {
      assert Edge(StructGraph(d), c[i], c[i + 1]);
      StructEdgesAreZeroEdges(d, c[i], c[i + 1]);
    }
    forall i | 0 <= i < |c| ensures c[i] in ZeroGraph(d) { StructIsNode(d, c[i]); }
  }

  lemma StructIsNode(d: Decls, n: Node)
    ensures n in StructGraph(d) <==> n in d.structs
    ensures n in ZeroGraph(d) <==> n in d.structs || n in d.enums
  {
  }

  function Without(a: seq<Node>, b: seq<Node>): seq<Node> {
    if a == [] then [] else Without(a[..|a| - 1], b) + if a[|a| - 1] in b then [] else [a[|a| - 1]]
  }

  lemma {:induction false} WithoutIs(a: seq<Node>, b: seq<Node>)
    ensures forall x :: x in Without(a, b) <==> x in a && x !in b
  {
    if a != [] {
      WithoutIs(a[..|a| - 1], b);
      assert a == a[..|a| - 1] + [a[|a| - 1]];
    }
  }

  /**
   Everything an enum's zero reaches, in post-order, then the remaining structs in
   their own post-order: a post-order of the whole zero graph.
   */
  lemma {:induction false} OrdersCombine(d: Decls, structs: seq<Node>, enums: seq<Node>)
    requires WellFormed(d) && PostOrder(StructGraph(d), structs) && PostOrder(ZeroGraph(d), enums)
    requires forall e :: e in d.enums ==> e in enums
    ensures PostOrder(ZeroGraph(d), enums + Without(structs, enums))
    decreases structs
  {
    if structs == [] {
      assert enums + [] == enums;
    } else {
      hide StructGraph, ZeroGraph;
      var n := |structs| - 1;
      var front, last := structs[..n], structs[n];
      assert PostOrder(StructGraph(d), front) by { PostOrderPrefix(StructGraph(d), structs, n); }
      OrdersCombine(d, front, enums);
      WithoutIs(front, enums);
      if last !in enums {
        var order := enums + Without(front, enums);
        forall v | Edge(ZeroGraph(d), last, v) ensures v in order {
          StructEdgesAreZeroEdges(d, last, v);
          StructIsNode(d, last);
          StructIsNode(d, v);
          if v in d.structs {
            assert v in structs[..n];
          }
        }
        StructIsNode(d, last);
        assert last !in front;
        PostOrderAppend(ZeroGraph(d), order, last);
        assert enums + Without(structs, enums) == order + [last];
      } else {
        assert Without(structs, enums) == Without(front, enums);
      }
    }
  }

  lemma PostOrderPrefix(g: Graph, order: seq<Node>, n: nat)
    requires PostOrder(g, order) && n <= |order|
    ensures PostOrder(g, order[..n])
  {
    var p := order[..n];
    forall i, v | 0 <= i < |p| && Edge(g, p[i], v) ensures v in p[..i] { assert p[..i] == order[..i]; }
  }

  lemma PostOrderAppend(g: Graph, order: seq<Node>, n: Node)
    requires PostOrder(g, order) && n in g && n !in order && forall v :: Edge(g, n, v) ==> v in order
    ensures PostOrder(g, order + [n])
  {
    var p := order + [n];
    forall i, v | 0 <= i < |p| && Edge(g, p[i], v) ensures v in p[..i] {
      if i < |order| { assert p[..i] == order[..i]; } else { assert p[..i] == order; }
    }
  }

  /** checkStructCycles, then checkEnumZeroCycles: accepted exactly when no zero value contains itself. */
  method CheckZeroCycles(d: Decls, structNames: seq<Node>, enumNames: seq<Node>) returns (ok: bool, ghost order: seq<Node>)
    requires WellFormed(d) && (forall s :: s in structNames <==> s in d.structs) && forall e :: e in enumNames <==> e in d.enums
    ensures ok <==> !exists c :: IsCycle(ZeroGraph(d), c)
    ensures ok ==> PostOrder(ZeroGraph(d), order) && forall n :: n in d.structs || n in d.enums ==> n in order
  {
    ghost var structs;
    order := [];
    ok, structs := CheckFrom(StructGraph(d), structNames);
    if !ok {
      ghost var c :| IsCycle(StructGraph(d), c);
      StructCycleIsZeroCycle(d, c);
      return;
    }
    ghost var enums;
    ok, enums := CheckFrom(ZeroGraph(d), enumNames);
    if !ok { return; }
    OrdersCombine(d, structs, enums);
    WithoutIs(structs, enums);
    order := enums + Without(structs, enums);
    NoCycles(d, order);
  }

  lemma NoCycles(d: Decls, order: seq<Node>)
    requires PostOrder(ZeroGraph(d), order) && forall n :: n in d.structs || n in d.enums ==> n in order
    ensures !exists c :: IsCycle(ZeroGraph(d), c)
  {
    forall c | IsCycle(ZeroGraph(d), c) ensures false {
      StructIsNode(d, c[0]);
      OrderedIsAcyclic(ZeroGraph(d), order, c);
    }
  }

  // ----- the constructors -----

  datatype Value = PlainZero | StructZero(name: string, fields: seq<Value>) | EnumZero(name: string, fields: seq<Value>)

  /** Fields only name local declarations that exist, or plain types. */
  ghost predicate Declared(d: Decls, fs: seq<FieldType>) {
    forall i :: 0 <= i < |fs| && fs[i].Local? ==> fs[i].name in d.structs || fs[i].name in d.enums
  }

  lemma {:induction false} FieldIsNamed(fs: seq<FieldType>, i: nat)
    requires i < |fs| && fs[i].Local?
    ensures fs[i].name in Names(fs)
  {
    if i > 0 { FieldIsNamed(fs[1..], i - 1); }
  }

  /** zeroStructFor / zeroEnumFor: the accepted order is the termination measure. */
  function ZeroOf(d: Decls, ghost order: seq<Node>, n: Node): Option<Value>
    requires PostOrder(ZeroGraph(d), order) && n in order
    decreases Rank(order, n), 1, 0
  {
    var fs := ZeroFields(d, n);
    match ZeroPayload(d, order, n, fs, 0)
    case None => None
    case Some(vs) => Some(if n in d.structs then StructZero(n, vs) else EnumZero(n, vs))
  }

  /** zeroPayload: one value per field; an undeclared name is the code's "unknown struct" error. */
  function ZeroPayload(d: Decls, ghost order: seq<Node>, n: Node, fs: seq<FieldType>, i: nat): Option<seq<Value>>
    requires PostOrder(ZeroGraph(d), order) && n in order && fs == ZeroFields(d, n) && i <= |fs|
    decreases Rank(order, n), 0, |fs| - i
  {
    if i == |fs| then Some([])
    else
      match (ZeroField(d, order, n, i), ZeroPayload(d, order, n, fs, i + 1))
      case (Some(v), Some(vs)) => Some([v] + vs)
      case _ => None
  }

  function ZeroField(d: Decls, ghost order: seq<Node>, n: Node, i: nat): Option<Value>
    requires PostOrder(ZeroGraph(d), order) && n in order && i < |ZeroFields(d, n)|
    decreases Rank(order, n), 0, 0
  {
    var f := ZeroFields(d, n)[i];
    if f.Plain? then Some(PlainZero)
    else if f.name !in d.structs && f.name !in d.enums then None
    else
      FieldDrops(d, order, n, i);
      ZeroOf(d, order, f.name)
  }

  /** Each by-value field's type comes earlier in the order. */
  lemma FieldDrops(d: Decls, order: seq<Node>, n: Node, i: nat)
    requires PostOrder(ZeroGraph(d), order) && n in order && i < |ZeroFields(d, n)| && ZeroFields(d, n)[i].Local?
    requires ZeroFields(d, n)[i].name in d.structs || ZeroFields(d, n)[i].name in d.enums
    ensures ZeroFields(d, n)[i].name in order && Rank(order, ZeroFields(d, n)[i].name) < Rank(order, n)
  {
    FieldIsNamed(ZeroFields(d, n), i);
    RankDrops(ZeroGraph(d), order, n, ZeroFields(d, n)[i].name);
  }

  /** The value has its declared shape all the way down: a struct all its fields, an enum those of its first variant. */
  predicate Shaped(d: Decls, v: Value, f: FieldType) {
    match f
    case Plain => v == PlainZero
    case Local(n) =>
      (match v
      case PlainZero => false
      case StructZero(m, vs) => m == n && n in d.structs && ShapedAll(d, vs, d.structs[n])
      case EnumZero(m, vs) =>
        m == n && n !in d.structs && n in d.enums && if d.enums[n] == [] then vs == [] else ShapedAll(d, vs, d.enums[n][0]))
  }

  predicate ShapedAll(d: Decls, vs: seq<Value>, fs: seq<FieldType>) {
    |vs| == |fs| && forall i :: 0 <= i < |vs| ==> Shaped(d, vs[i], fs[i])
  }

  /** With every field declared, every accepted declaration has a finite zero of the right shape. */
  lemma {:induction false} ZeroExists(d: Decls, order: seq<Node>, n: Node)
    requires PostOrder(ZeroGraph(d), order) && n in order
    requires forall m :: m in d.structs || m in d.enums ==> Declared(d, ZeroFields(d, m))
    ensures ZeroOf(d, order, n).Some? && Shaped(d, ZeroOf(d, order, n).value, Local(n))
    decreases Rank(order, n), 1, 0
  {
    assert n in ZeroGraph(d);
    PayloadExists(d, order, n, 0);
    var fs := ZeroFields(d, n);
    assert fs[0..] == fs;
  }

  lemma {:induction false} PayloadExists(d: Decls, order: seq<Node>, n: Node, i: nat)
    requires PostOrder(ZeroGraph(d), order) && n in order && i <= |ZeroFields(d, n)|
    requires forall m :: m in d.structs || m in d.enums ==> Declared(d, ZeroFields(d, m))
    ensures var fs := ZeroFields(d, n);
            ZeroPayload(d, order, n, fs, i).Some? && ShapedAll(d, ZeroPayload(d, order, n, fs, i).value, fs[i..])
    decreases Rank(order, n), 0, |ZeroFields(d, n)| - i
  {
    var fs := ZeroFields(d, n);
    if i < |fs| {
      assert n in ZeroGraph(d);
      assert Declared(d, fs);
      PayloadExists(d, order, n, i + 1);
      if fs[i].Local? {
        FieldDrops(d, order, n, i);
        ZeroExists(d, order, fs[i].name);
      }
      assert fs[i..][0] == fs[i] && fs[i..][1..] == fs[i + 1..];
    } else {
      assert fs[i..] == [];
    }
  }
}
