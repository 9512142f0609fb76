/**
 Depth-first module loading: run-once, post-order, cycles reported by the load
 stack. Resolution, parsing and module bodies are taken to succeed.
 */
module ModuleLoading {
  import opened Cycles

  /** Every import names a module of the graph. */
  ghost predicate Closed(g: Graph) { forall m, n :: m in g && n in g[m] ==> n in g }

  class Registry {
    var stack: seq<Node>      // modules being loaded, outermost first
    var cache: set<Node>      // modules loaded and initialised
    var log: seq<Node>        // the order in which bodies ran

    constructor ()
      ensures stack == [] && cache == {} && log == []
    {
      stack, cache, log := [], {}, [];
    }

    /** The cache is what has run, in post-order; the stack is a walk of modules not yet run. */
    ghost predicate Valid(g: Graph)
      reads this
    {
      && PostOrder(g, log) && (forall m :: m in cache <==> m in log)
      && Walk(g, stack) && (forall m :: m in stack ==> m !in cache)
      && forall i, j :: 0 <= i < j < |stack| ==> stack[i] != stack[j]
    }

    /** Everything not loaded and not being loaded. */
    ghost function Unseen(g: Graph): set<Node>
      reads this
    {
      g.Keys - cache - set m | m in stack
    }

    /**
     loadModule: a module already on the stack is a cycle; a cached one is done;
     otherwise its imports load first, then its body runs, once.
     */
    method LoadModule(g: Graph, m: Node) returns (ok: bool)
      requires Closed(g) && Valid(g) && m in g && (stack != [] ==> m in g[stack[|stack| - 1]])
      modifies this
      ensures Valid(g) && stack == old(stack) && old(log) <= log && old(cache) <= cache
      ensures ok ==> m in cache
      ensures forall n :: n in cache ==> n in old(cache) || Reaches(g, m, n)
      ensures !ok ==> exists c :: IsCycle(g, c) && Reaches(g, Bottom(old(stack), m), c[0])
      decreases Unseen(g), 1
    {
      if m in stack {
        CycleFound(g, stack, m);
        return false;
      }
      if m in cache { return true; }
      WalkExtends(g, stack, m);
      assert m in Unseen(g);
      stack := stack + [m];
      assert m !in Unseen(g) && Unseen(g) <= old(Unseen(g));
      ok := LoadImports(g, m);
      stack := stack[..|stack| - 1];
      assert stack == old(stack);
      if !ok { return false; }
      SelfReach(g, m);
      RunBody(g, m);
    }

    /** Run the body and cache the module; everything it imports has run. */
    method RunBody(g: Graph, m: Node)
      requires Closed(g) && Valid(g) && m in g && m !in cache && m !in stack && forall n :: n in g[m] ==> n in cache
      modifies this`cache, this`log
      ensures Valid(g) && log == old(log) + [m] && cache == old(cache) + {m}
    {
      PostOrderExtends(g, log, m);
      log := log + [m];
      cache := cache + {m};
    }

    /** loadModuleImports of the module on top of the stack. */
    method LoadImports(g: Graph, m: Node) returns (ok: bool)
      requires Closed(g) && Valid(g) && m in g && stack != [] && stack[|stack| - 1] == m
      modifies this
      ensures Valid(g) && stack == old(stack) && old(log) <= log && old(cache) <= cache
      ensures ok ==> forall n :: n in g[m] ==> n in cache
      ensures forall n :: n in cache ==> n in old(cache) || Reaches(g, m, n)
      ensures !ok ==> exists c :: IsCycle(g, c) && Reaches(g, stack[0], c[0])
      decreases Unseen(g), 2
    {
      var imports := g[m];
      for i := 0 to |imports|
        invariant Valid(g) && stack == old(stack) && old(log) <= log && old(cache) <= cache
        invariant forall k :: 0 <= k < i ==> imports[k] in cache
        invariant forall n :: n in cache ==> n in old(cache) || Reaches(g, m, n)
      {
        ghost var before := cache;
        var done := LoadModule(g, imports[i]);
        ReachesVia(g, m, imports[i], before, cache);
        if !done { return false; }
      }
      return true;
    }
  }

  /** The module whose loading everything on the stack belongs to. */
  function Bottom(stack: seq<Node>, m: Node): Node { if stack == [] then m else stack[0] }

  lemma SelfReach(g: Graph, m: Node)
    requires m in g
    ensures Reaches(g, m, m)
  {
    assert Walk(g, [m]) && [m][0] == m;
  }

  lemma StepReach(g: Graph, m: Node, n: Node, x: Node)
    requires Edge(g, m, n) && Reaches(g, n, x)
    ensures Reaches(g, m, x)
  {
    var p :| Walk(g, p) && p != [] && p[0] == n && p[|p| - 1] == x;
    var q := [m] + p;
    forall i | 0 <= i < |q| - 1 ensures Edge(g, q[i], q[i + 1]) {
      if i > 0 { assert Edge(g, p[i - 1], p[i - 1 + 1]); }
    }
    assert Walk(g, q) && q[|q| - 1] == x;
  }

  lemma ReachesVia(g: Graph, m: Node, n: Node, before: set<Node>, after: set<Node>)
    requires Edge(g, m, n) && forall x :: x in after ==> x in before || Reaches(g, n, x)
    ensures forall x :: x in after ==> x in before || Reaches(g, m, x)
  {
    forall x | x in after && x !in before ensures Reaches(g, m, x) { StepReach(g, m, n, x); }
  }

  /** A module found on the stack closes a cycle that starts below the bottom of the stack. */
  lemma CycleFound(g: Graph, stack: seq<Node>, m: Node)
    requires Walk(g, stack) && m in stack && m in g && m in g[stack[|stack| - 1]]
    ensures exists c :: IsCycle(g, c) && Reaches(g, stack[0], c[0])
  {
    var k :| 0 <= k < |stack| && stack[k] == m;
    ClosesCycle(g, stack, k);
    var p := stack[..k + 1];
    forall i | 0 <= i < |p| - 1 ensures Edge(g, p[i], p[i + 1]) { assert Edge(g, stack[i], stack[i + 1]); }
    assert Walk(g, p) && p[|p| - 1] == m;
    assert Reaches(g, stack[0], stack[k..][0]);
  }

  lemma PostOrderExtends(g: Graph, log: seq<Node>, m: Node)
    requires Closed(g) && PostOrder(g, log) && m in g && m !in log && forall n :: n in g[m] ==> n in log
    ensures PostOrder(g, log + [m])
  {
    var order := log + [m];
    forall i, v | 0 <= i < |order| && Edge(g, order[i], v) ensures v in order[..i] {
      if i < |log| { assert order[..i] == log[..i]; } else { assert order[..i] == log; }
    }
  }

  /** Loaded modules are closed under imports, so they hold everything reachable from them. */
  lemma {:induction false} LoadedIsClosed(g: Graph, log: seq<Node>, p: seq<Node>)
    requires PostOrder(g, log) && Walk(g, p) && p != [] && p[0] in log
    ensures p[|p| - 1] in log
  {
    WalkFalls(g, log, p);
  }

  ghost predicate ReachableFrom(g: Graph, roots: seq<Node>, n: Node) { exists r :: r in roots && Reaches(g, r, n) }

  ghost predicate Cyclic(g: Graph, roots: seq<Node>) { exists c :: IsCycle(g, c) && ReachableFrom(g, roots, c[0]) }

  /**
   A whole program: its imports are loaded in order. Either everything reachable is
   initialised exactly once, after all it imports, or a cycle is reported; and a cycle
   is reported exactly when the reachable graph has one. The stack is empty again either way.
   */
  method LoadProgram(g: Graph, roots: seq<Node>) returns (ok: bool, log: seq<Node>)
    requires Closed(g) && forall r :: r in roots ==> r in g
    ensures ok <==> !Cyclic(g, roots)
    ensures PostOrder(g, log)
    ensures ok ==> forall n :: n in log <==> ReachableFrom(g, roots, n)
  {
    var reg := new Registry();
    for i := 0 to |roots|
      invariant reg.Valid(g) && reg.stack == [] && fresh(reg)
      invariant forall k :: 0 <= k < i ==> roots[k] in reg.cache
      invariant forall n :: n in reg.cache ==> ReachableFrom(g, roots, n)
    {
      ok := reg.LoadModule(g, roots[i]);
      assert roots[i] in roots;
      if !ok {
        log := reg.log;
        CycleIsReal(g, roots, roots[i]);
        return;
      }
    }
    log := reg.log;
    ok := true;
    AllLoaded(g, roots, log);
  }

  lemma CycleIsReal(g: Graph, roots: seq<Node>, r: Node)
    requires r in roots && exists c :: IsCycle(g, c) && Reaches(g, r, c[0])
    ensures Cyclic(g, roots)
  {
    var c :| IsCycle(g, c) && Reaches(g, r, c[0]);
    assert ReachableFrom(g, roots, c[0]);
  }

  lemma AllLoaded(g: Graph, roots: seq<Node>, log: seq<Node>)
    requires PostOrder(g, log) && forall r :: r in roots ==> r in log
    ensures forall n :: ReachableFrom(g, roots, n) ==> n in log
    ensures !Cyclic(g, roots)
  {
    forall n | ReachableFrom(g, roots, n) ensures n in log {
      var r :| r in roots && Reaches(g, r, n);
      var p :| Walk(g, p) && p != [] && p[0] == r && p[|p| - 1] == n;
      LoadedIsClosed(g, log, p);
    }
    forall c | IsCycle(g, c) ensures !ReachableFrom(g, roots, c[0]) {
      OrderedIsAcyclic(g, log, c);
    }
  }
}
