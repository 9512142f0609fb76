/**
 Where values are held without a copy while code runs that may write them: a call's result
 before a later argument, as in `first(same($g), bump())`; an indexed global before its
 index, `$g[bump()]`; an assigned global before the target's indices, `$l[bump()] = $g`.
 In all three the interpreter and the copy-everything meaning differ.
 */
module LeakyArguments {
  import opened Options
  import opened Syntax
  import opened Scans
  import opened ValueSemantics
  import opened AliasHeap
  import opened AliasEval
  import AliasSim
  import CallGraph
  import EscapeAnalysis
  import CopyElision

  function ReadG(): Expr { Var("g") }
  function Zero(): Expr { Lit(Int(0)) }

  /** `bump` writes the global, `same` hands its argument back, `first` reads its first parameter. */
  function Leaky(): Program {
    Program(map[
      "bump" := Method([], [], Seq(IndexAssign("g", ECons(Zero(), ENil), Lit(Int(7))), Return(Zero()))),
      "same" := Method(["x"], [true], Return(Var("x"))),
      "first" := Method(["a", "b"], [true, true], Return(Index(Var("a"), Zero())))
    ], {})
  }

  /** first(same($g), bump()) */
  function LeakyCall(): Expr {
    Call("first", ECons(Call("same", ECons(ReadG(), ENil)), ECons(Call("bump", ENil), ENil)))
  }

  function LeakyConfig(): Config { Config(Leaky(), {"g"}, None, {"same", "first"}, false, true) }

  lemma EvalOne(p: Program, e: Expr, g: Store, l: Store, fuel: nat, v: Tree, g': Store)
    requires Eval(p, None, e, g, l, fuel) == ER(Val(v), g')
    ensures EvalAll(p, None, ECons(e, ENil), g, l, fuel) == ER(Val([v]), g')
  {
    assert EvalAll(p, None, ENil, g', l, fuel) == ER(Val([]), g');
    assert [v] + [] == [v];
  }

  lemma ValueSame(g: Store, fuel: nat)
    requires fuel >= 1 && "g" in g
    ensures Eval(Leaky(), None, Call("same", ECons(ReadG(), ENil)), g, map[], fuel) == ER(Val(g["g"]), g)
  {
    var p, es := Leaky(), ECons(ReadG(), ENil);
    EvalOne(p, ReadG(), g, map[], fuel, g["g"], g);
    var l := Bind(["x"], [g["g"]]);
    assert l["x"] == g["g"];
    assert Eval(p, None, Var("x"), g, l, fuel - 1) == ER(Val(g["g"]), g);
    assert Exec(p, None, Return(Var("x")), g, l, fuel - 1) == SR(Val(g["g"]), g, l);
    assert Len(es) == 1;
    assert p.methods["same"] == Method(["x"], [true], Return(Var("x")));
    assert Invoke(p, None, "same", es, g, map[], fuel) == ER(Val(g["g"]), g);
  }

  lemma ValueWrite(f: nat)
    ensures Exec(Leaky(), None, IndexAssign("g", ECons(Zero(), ENil), Lit(Int(7))), G(1), map[], f) == SR(Next, G(7), map[])
  {
    EvalOne(Leaky(), Zero(), G(1), map[], f, Atom(Int(0)), G(1));
    hide EvalAll;
    assert Reverse([Atom(Int(0))]) == [Atom(Int(0))];
    assert [Atom(Int(1))][0 := Atom(Int(7))] == [Atom(Int(7))];
    assert Update(G(1)["g"], [Atom(Int(0))], Atom(Int(7))) == Some(Lst([Atom(Int(7))]));
    assert G(1)["g" := Lst([Atom(Int(7))])] == G(7);
  }

  lemma ValueBump(l: Store, fuel: nat)
    requires fuel >= 1
    ensures Eval(Leaky(), None, Call("bump", ENil), G(1), l, fuel) == ER(Val(Atom(Int(0))), G(7))
  {
    hide WriteAt, Put, Reverse, Close;
    var p, f := Leaky(), fuel - 1;
    var write := IndexAssign("g", ECons(Zero(), ENil), Lit(Int(7)));
    ValueWrite(f);
    assert Exec(p, None, Return(Zero()), G(7), map[], f) == SR(Val(Atom(Int(0))), G(7), map[]);
    assert p.methods["bump"] == Method([], [], Seq(write, Return(Zero())));
    assert EvalAll(p, None, ENil, G(1), l, fuel) == ER(Val([]), G(1));
    assert Bind<Tree>([], []) == map[];
    assert Exec(p, None, Seq(write, Return(Zero())), G(1), map[], f) == SR(Val(Atom(Int(0))), G(7), map[]);
    assert Invoke(p, None, "bump", ENil, G(1), l, fuel) == ER(Val(Atom(Int(0))), G(7));
  }

  function G(n: int): Store { map["g" := Lst([Atom(Int(n))])] }

  /** The copy-everything reading: the first argument was 1 when it was evaluated. */
  lemma LeakyByValue(fuel: nat)
    requires fuel >= 1
    ensures Eval(Leaky(), None, LeakyCall(), G(1), map[], fuel).out == Val(Atom(Int(1)))
  {
    var p, es := Leaky(), LeakyCall().args;
    ValueSame(G(1), fuel);
    ValueBump(map[], fuel);
    EvalOne(p, es.tail.head, G(1), map[], fuel, Atom(Int(0)), G(7));
    var one := Lst([Atom(Int(1))]);
    assert [one] + [Atom(Int(0))] == [one, Atom(Int(0))];
    hide Invoke;
    assert EvalAll(p, None, es, G(1), map[], fuel) == ER(Val([one, Atom(Int(0))]), G(7));
    ValueFirst(one, fuel);
  }

  lemma ValueFirst(one: Tree, fuel: nat)
    requires fuel >= 1 && one == Lst([Atom(Int(1))])
    requires EvalAll(Leaky(), None, LeakyCall().args, G(1), map[], fuel) == ER(Val([one, Atom(Int(0))]), G(7))
    ensures Eval(Leaky(), None, LeakyCall(), G(1), map[], fuel).out == Val(Atom(Int(1)))
  {
    hide EvalAll;
    var p := Leaky();
    var l := Bind(["a", "b"], [one, Atom(Int(0))]);
    assert l["a"] == one;
    var body := Return(Index(Var("a"), Zero()));
    assert p.methods["first"] == Method(["a", "b"], [true, true], body);
    assert Eval(p, None, Index(Var("a"), Zero()), G(7), l, fuel - 1).out == Val(Atom(Int(1)));
    assert Exec(p, None, body, G(7), l, fuel - 1).out == Val(Atom(Int(1)));
    assert Len(LeakyCall().args) == 2;
  }

  // ----- the same call on the heap -----

  /** The global's cell, and the cells of the caller's locals. */
  function H(n: int, ids: nat, rest: seq<Cell>): Heap { Heap([Cell(GlobalOf(0, "g"), [Imm(Int(n))])] + rest, ids) }

  function Roots(): RefStore { map["g" := Ptr(0)] }

  const AT := Site(0, 1)

  lemma RunSame(ids: nat, fuel: nat)
    requires fuel >= 1
    ensures Run(LeakyConfig(), Call("same", ECons(ReadG(), ENil)), H(1, ids, []), AT, Roots(), map[], fuel)
            == XR(Val(Ptr(0)), H(1, ids + 1, []), Roots())
  {
    var c, es, h := LeakyConfig(), ECons(ReadG(), ENil), H(1, ids + 1, []);
    assert BindsByAlias(c, "same", 0, ReadG(), ENil);
    assert Run(c, ReadG(), h, AT, Roots(), map[], fuel) == XR(Val(Ptr(0)), h, Roots());
    assert RunArgs(c, "same", 1, ENil, ids, h, AT, Roots(), map[], fuel) == XR(Val([]), h, Roots());
    assert [Ptr(0)] + [] == [Ptr(0)];
    assert RunArgs(c, "same", 0, es, ids, h, AT, Roots(), map[], fuel) == XR(Val([Ptr(0)]), h, Roots());
    var hl := Bind(["x"], [Ptr(0)]);
    assert hl["x"] == Ptr(0);
    assert c.p.methods["same"] == Method(["x"], [true], Return(Var("x")));
    assert Run(c, Var("x"), h, Site(0, ids), Roots(), hl, fuel - 1) == XR(Val(Ptr(0)), h, Roots());
    assert RunStmt(c, Return(Var("x")), h, Site(0, ids), Roots(), hl, fuel - 1) == TR(Val(Ptr(0)), h, Roots(), hl);
    assert RunCall(c, "same", es, H(1, ids, []), AT, Roots(), map[], fuel) == XR(Val(Ptr(0)), h, Roots());
  }

  lemma CopyScalar(h: Heap, s: Scalar, tag: Tag)
    ensures CopyTo(h, Imm(s), tag) == Built(h, Imm(s))
  {
    TreeOfRep(h, Imm(s), Atom(s));
  }

  lemma RunWrite(ids: nat, rest: seq<Cell>, fuel: nat)
    ensures RunStmt(LeakyConfig(), IndexAssign("g", ECons(Zero(), ENil), Lit(Int(7))), H(1, ids + 1, rest), Site(0, ids), Roots(), map[], fuel)
            == TR(Next, H(7, ids + 1, rest), Roots(), map[])
  {
    var c, h, at := LeakyConfig(), H(1, ids + 1, rest), Site(0, ids);
    assert RunPath(c, ENil, h, at, Roots(), map[], fuel) == XR(Val([]), h, Roots());
    assert [Imm(Int(0))] + [] == [Imm(Int(0))];
    assert RunPath(c, ECons(Zero(), ENil), h, at, Roots(), map[], fuel) == XR(Val([Imm(Int(0))]), h, Roots());
    assert Reverse([Imm(Int(0))]) == [Imm(Int(0))];
    CopyScalar(h, Int(7), GlobalOf(0, "g"));
    assert [Imm(Int(1))][0 := Imm(Int(7))] == [Imm(Int(7))];
    assert h.cells[0 := Cell(GlobalOf(0, "g"), [Imm(Int(7))])] == H(7, ids + 1, rest).cells;
    assert StoreAt({}, "g", [Imm(Int(0))], Imm(Int(7)), h, at, Roots(), map[]) == TR(Next, H(7, ids + 1, rest), Roots(), map[]);
  }

  lemma RunBump(ids: nat, rest: seq<Cell>, hl: RefStore, fuel: nat)
    requires fuel >= 1
    ensures Run(LeakyConfig(), Call("bump", ENil), H(1, ids, rest), AT, Roots(), hl, fuel) == XR(Val(Imm(Int(0))), H(7, ids + 1, rest), Roots())
  {
    var c, h, h', f := LeakyConfig(), H(1, ids + 1, rest), H(7, ids + 1, rest), fuel - 1;
    RunWrite(ids, rest, f);
    var write := IndexAssign("g", ECons(Zero(), ENil), Lit(Int(7)));
    assert c.p.methods["bump"] == Method([], [], Seq(write, Return(Zero())));
    assert RunArgs(c, "bump", 0, ENil, ids, h, AT, Roots(), hl, fuel) == XR(Val([]), h, Roots());
    assert Bind<Ref>([], []) == map[];
    assert Run(c, Zero(), h', Site(0, ids), Roots(), map[], f) == XR(Val(Imm(Int(0))), h', Roots());
    assert RunStmt(c, Return(Zero()), h', Site(0, ids), Roots(), map[], f) == TR(Val(Imm(Int(0))), h', Roots(), map[]);
    assert RunStmt(c, Seq(write, Return(Zero())), h, Site(0, ids), Roots(), map[], f) == TR(Val(Imm(Int(0))), h', Roots(), map[]);
    assert RunCall(c, "bump", ENil, H(1, ids, rest), AT, Roots(), hl, fuel) == XR(Val(Imm(Int(0))), h', Roots());
  }

  lemma RunLeakyArgs(fuel: nat)
    requires fuel >= 1
    ensures RunArgs(LeakyConfig(), "first", 0, LeakyCall().args, 2, H(1, 3, []), AT, Roots(), map[], fuel)
            == XR(Val([Ptr(0), Imm(Int(0))]), H(7, 5, []), Roots())
  {
    var c, es := LeakyConfig(), LeakyCall().args;
    RunSame(3, fuel);
    RunBump(4, [], map[], fuel);
    hide RunCall, RunStmt;
    assert BindsByAlias(c, "first", 0, es.head, es.tail);
    assert BindsByAlias(c, "first", 1, es.tail.head, ENil);
    assert RunArgs(c, "first", 2, ENil, 2, H(7, 5, []), AT, Roots(), map[], fuel) == XR(Val([]), H(7, 5, []), Roots());
    assert [Imm(Int(0))] + [] == [Imm(Int(0))];
    assert RunArgs(c, "first", 1, es.tail, 2, H(1, 4, []), AT, Roots(), map[], fuel) == XR(Val([Imm(Int(0))]), H(7, 5, []), Roots());
    assert [Ptr(0)] + [Imm(Int(0))] == [Ptr(0), Imm(Int(0))];
  }

  /** The interpreter answers 7: the later argument's write shows through the first. */
  lemma LeakyByAlias(fuel: nat)
    requires fuel >= 1
    ensures Run(LeakyConfig(), LeakyCall(), H(1, 2, []), AT, Roots(), map[], fuel).out == Val(Imm(Int(7)))
  {
    var c, es, h := LeakyConfig(), LeakyCall().args, H(7, 5, []);
    RunLeakyArgs(fuel);
    hide RunArgs;
    var hl := Bind(["a", "b"], [Ptr(0), Imm(Int(0))]);
    assert hl["a"] == Ptr(0);
    var body := Return(Index(Var("a"), Zero()));
    assert c.p.methods["first"] == Method(["a", "b"], [true, true], body);
    assert Run(c, Var("a"), h, Site(0, 2), Roots(), hl, fuel - 1) == XR(Val(Ptr(0)), h, Roots());
    assert Run(c, Index(Var("a"), Zero()), h, Site(0, 2), Roots(), hl, fuel - 1) == XR(Val(Imm(Int(7))), h, Roots());
    assert RunStmt(c, body, h, Site(0, 2), Roots(), hl, fuel - 1).out == Val(Imm(Int(7)));
    assert Len(es) == 2;
    assert RunCall(c, "first", es, H(1, 2, []), AT, Roots(), map[], fuel).out == Val(Imm(Int(7)));
  }

  lemma LeakyFacts()
    ensures MethodFacts(Leaky(), "bump").writes == {"g"} && MethodFacts(Leaky(), "bump").callees == {}
    ensures MethodLocals(Leaky(), "bump") == {}
    ensures forall m :: m in {"same", "first"} ==>
              MethodFacts(Leaky(), m).writes == {} && MethodFacts(Leaky(), m).callees == {} && !MethodFacts(Leaky(), m).dynamic
  {
    var p := Leaky();
    assert ScanStmt(p, p.methods["bump"].body.first).writes == {"g"};
    assert ScanStmt(p, p.methods["same"].body) == ScanExpr(p, Var("x"));
    assert ScanExpr(p, Index(Var("a"), Zero())).writes == {};
  }

  /** The configuration is the one the analysis computes: only `bump` is unsafe. */
  lemma LeakyStamps()
    ensures CopyElision.SafeStamp(Leaky(), LeakyConfig().safe)
  {
    LeakyFacts();
    hide MethodFacts, MethodLocals;
    var p := Leaky();
    var edges := EscapeAnalysis.Calls(p);
    assert EscapeAnalysis.Hazards(p) == {"bump"};
    CallGraph.ReachesSelf(edges, "bump");
    forall m, n | m in p.methods && CallGraph.Reaches(edges, m, n) ensures m == n {
      var path :| CallGraph.Chain(edges, path) && path[0] == m && path[|path| - 1] == n;
      assert |path| == 1;
    }
  }

  /** The call is exactly what `Settled` excludes, and the answers differ at every fuel that finishes. */
  lemma CallResultsLeak(fuel: nat)
    requires fuel >= 1
    ensures !AliasSim.SettledArgs({"g"}, {"same", "first"}, LeakyCall().args)
    ensures Eval(Leaky(), None, LeakyCall(), G(1), map[], fuel).out == Val(Atom(Int(1)))
    ensures Run(LeakyConfig(), LeakyCall(), H(1, 2, []), AT, Roots(), map[], fuel).out == Val(Imm(Int(7)))
  {
    LeakyByValue(fuel);
    LeakyByAlias(fuel);
    hide Run, Eval;
  }

  // ----- the other two places -----

  /** $g[bump()] */
  function LeakyIndex(): Expr { Index(ReadG(), Call("bump", ENil)) }

  /** The indexed value is read before the index runs, and held without a copy. */
  lemma IndexedGlobalsLeak(fuel: nat)
    requires fuel >= 1
    ensures !AliasSim.Settled({"g"}, {"same", "first"}, LeakyIndex())
    ensures Eval(Leaky(), None, LeakyIndex(), G(1), map[], fuel).out == Val(Atom(Int(1)))
    ensures Run(LeakyConfig(), LeakyIndex(), H(1, 2, []), AT, Roots(), map[], fuel).out == Val(Imm(Int(7)))
  {
    ValueBump(map[], fuel);
    RunBump(2, [], map[], fuel);
    hide Invoke, RunCall;
  }

  /** $l[bump()] = $g */
  function LeakyAssign(): Stmt { IndexAssign("l", ECons(Call("bump", ENil), ENil), ReadG()) }

  function L(t: Tree): Store { map["l" := Lst([t])] }

  /** The caller's local: one cell holding one element. */
  function LocalCell(v: Ref): Cell { Cell(LocalOf(1, "l"), [v]) }

  function Locals(): RefStore { map["l" := Ptr(1)] }

  lemma AssignByValue(fuel: nat)
    requires fuel >= 1
    ensures Exec(Leaky(), None, LeakyAssign(), G(1), L(Atom(Int(0))), fuel) == SR(Next, G(7), L(G(1)["g"]))
  {
    var l := L(Atom(Int(0)));
    ValueBump(l, fuel);
    EvalOne(Leaky(), Call("bump", ENil), G(1), l, fuel, Atom(Int(0)), G(7));
    hide Invoke, EvalAll;
    assert Reverse([Atom(Int(0))]) == [Atom(Int(0))];
    assert [Atom(Int(0))][0 := G(1)["g"]] == [G(1)["g"]];
    assert Update(l["l"], [Atom(Int(0))], G(1)["g"]) == Some(Lst([G(1)["g"]]));
    assert l["l" := Lst([G(1)["g"]])] == L(G(1)["g"]);
  }

  lemma CopyGlobal(h: Heap, tag: Tag)
    requires |h.cells| > 0 && h.cells[0].elems == [Imm(Int(7))]
    ensures CopyTo(h, Ptr(0), tag) == Built(Heap(h.cells + [Cell(tag, [Imm(Int(7))])], h.ids), Ptr(|h.cells|))
  {
    TreeOfRep(h, Ptr(0), Lst([Atom(Int(7))]));
    assert [Atom(Int(7))][1..] == [];
    assert BuildAll(h, [], tag) == Built(h, []);
    assert [Imm(Int(7))] + [] == [Imm(Int(7))];
    assert BuildAll(h, [Atom(Int(7))], tag) == Built(h, [Imm(Int(7))]);
  }

  lemma AssignByAlias(fuel: nat)
    requires fuel >= 1
    ensures var r := RunStmt(LeakyConfig(), LeakyAssign(), H(1, 2, [LocalCell(Imm(Int(0)))]), AT, Roots(), Locals(), fuel);
            r.out == Next && r.locals == Locals() && TreeOf(r.heap, r.locals["l"]) == Lst([G(7)["g"]])
  {
    var c, rest, hl := LeakyConfig(), [LocalCell(Imm(Int(0)))], Locals();
    var h := H(7, 3, rest);
    RunBump(2, rest, hl, fuel);
    hide RunCall;
    assert RunPath(c, ENil, h, AT, Roots(), hl, fuel) == XR(Val([]), h, Roots());
    assert [Imm(Int(0))] + [] == [Imm(Int(0))];
    assert RunPath(c, ECons(Call("bump", ENil), ENil), H(1, 2, rest), AT, Roots(), hl, fuel) == XR(Val([Imm(Int(0))]), h, Roots());
    hide RunPath;
    assert Reverse([Imm(Int(0))]) == [Imm(Int(0))];
    CopyGlobal(h, LocalOf(1, "l"));
    var b := CopyTo(h, Ptr(0), LocalOf(1, "l"));
    var h' := b.heap.(cells := b.heap.cells[1 := LocalCell(Ptr(2))]);
    assert [Imm(Int(0))][0 := Ptr(2)] == [Ptr(2)];
    assert StoreAt({}, "l", [Imm(Int(0))], Ptr(0), h, AT, Roots(), hl) == TR(Next, h', Roots(), hl);
    assert Rep(h', Ptr(2), G(7)["g"]);
    TreeOfRep(h', Ptr(1), Lst([G(7)["g"]]));
  }

  /** The assigned value is read before the target's indices run, and held without a copy. */
  lemma AssignedGlobalsLeak(fuel: nat)
    requires fuel >= 1
    ensures !AliasSim.SettledStmt({"g"}, {"same", "first"}, LeakyAssign())
    ensures Exec(Leaky(), None, LeakyAssign(), G(1), L(Atom(Int(0))), fuel).locals["l"] == Lst([G(1)["g"]])
    ensures var r := RunStmt(LeakyConfig(), LeakyAssign(), H(1, 2, [LocalCell(Imm(Int(0)))]), AT, Roots(), Locals(), fuel);
            r.locals == Locals() && TreeOf(r.heap, r.locals["l"]) == Lst([G(7)["g"]])
  {
    AssignByValue(fuel);
    AssignByAlias(fuel);
    hide RunStmt, Exec;
  }
}
