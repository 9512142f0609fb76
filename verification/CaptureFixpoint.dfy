/**
 computeSpawnCaptures: the fixpoint that gives each method the globals it and the
 methods it calls can name. It terminates, its result is closed under calls, and
 it holds nothing a chain of calls does not justify.
 */
module CaptureFixpoint {
  import opened Syntax
  import opened Scans
  import opened ValueSemantics
  import SpawnCapture
  import EscapeAnalysis
  import CallGraph

  function DirectNames(p: Program, m: Name): set<Name>
    requires m in p.methods
  {
    MethodFacts(p, m).uses - MethodLocals(p, m)
  }

  predicate DirectAll(p: Program, m: Name)
    requires m in p.methods
  {
    MethodFacts(p, m).dynamic || MethodFacts(p, m).spawnDynamic
  }

  /** Every call a method's code contains, those inside its spawn bodies included. */
  function AllCalls(p: Program): CallGraph.Edges {
    map m | m in p.methods :: SpawnCapture.AllCallees(MethodFacts(p, m))
  }

  ghost predicate NameJustified(p: Program, m: Name, x: Name) {
    exists n :: n in p.methods && CallGraph.Reaches(AllCalls(p), m, n) && x in DirectNames(p, n)
  }

  ghost predicate AllJustified(p: Program, m: Name) {
    exists n :: n in p.methods && CallGraph.Reaches(AllCalls(p), m, n) && DirectAll(p, n)
  }

  /** Between the direct summary and what some chain of calls justifies. */
  ghost predicate BoundedAt(p: Program, m: Name, r: Refs)
    requires m in p.methods
  {
    && DirectNames(p, m) <= r.names && (DirectAll(p, m) ==> r.all)
    && (forall x :: x in r.names ==> NameJustified(p, m, x))
    && (r.all ==> AllJustified(p, m))
  }

  ghost predicate Bounded(p: Program, summ: Summary) {
    && summ.Keys == p.methods.Keys
    && forall m :: m in p.methods ==> BoundedAt(p, m, summ[m])
  }

  /** One (method, callee) visit of the inner loop. */
  function Absorb(st: Refs, cs: Refs): Refs {
    if cs.all && !st.all then st.(all := true) else st.(names := st.names + cs.names)
  }

  // ----- termination: facts still missing -----

  datatype Fact = NeedAll(m: Name) | NeedName(m: Name, x: Name)

  function Universe(p: Program): set<Name> {
    set m, x | m in p.methods && x in DirectNames(p, m) :: x
  }

  ghost function Missing(p: Program, summ: Summary): set<Fact>
    requires summ.Keys == p.methods.Keys
  {
    (set m | m in p.methods && !summ[m].all :: NeedAll(m))
    + (set m, x | m in p.methods && x in Universe(p) && x !in summ[m].names :: NeedName(m, x))
  }

  ghost predicate Grown(p: Program, s0: Summary, s1: Summary) {
    && s0.Keys == p.methods.Keys == s1.Keys
    && forall m :: m in p.methods ==> s0[m].names <= s1[m].names && (s0[m].all ==> s1[m].all)
  }

  lemma GrownRefl(p: Program, summ: Summary)
    requires summ.Keys == p.methods.Keys
    ensures Grown(p, summ, summ)
  {
  }

  lemma NamesInUniverse(p: Program, m: Name, r: Refs, x: Name)
    requires m in p.methods && BoundedAt(p, m, r) && x in r.names
    ensures x in Universe(p)
  {
    hide MethodFacts;
    assert NameJustified(p, m, x);
  }

  lemma GrowthShrinksMissing(p: Program, s0: Summary, s1: Summary)
    requires Bounded(p, s1) && Grown(p, s0, s1) && s0 != s1
    ensures Missing(p, s1) < Missing(p, s0)
  {
    hide MethodFacts, BoundedAt, Universe;
    var m :| m in p.methods && s0[m] != s1[m];
    if s0[m].all != s1[m].all {
      assert NeedAll(m) in Missing(p, s0) && NeedAll(m) !in Missing(p, s1);
    } else {
      var x :| x in s1[m].names && x !in s0[m].names;
      NamesInUniverse(p, m, s1[m], x);
      assert NeedName(m, x) in Missing(p, s0) && NeedName(m, x) !in Missing(p, s1);
    }
    assert Missing(p, s1) <= Missing(p, s0);
  }

  lemma CallIsEdge(p: Program, m: Name, c: Name)
    requires m in p.methods && c in SpawnCapture.AllCallees(MethodFacts(p, m))
    ensures c in p.methods && m in AllCalls(p) && c in AllCalls(p)[m]
  {
    EscapeAnalysis.CalleesAreMethods(p, p.methods[m].body);
  }

  lemma AbsorbJustified(p: Program, m: Name, c: Name, st: Refs, cs: Refs)
    requires m in p.methods && c in SpawnCapture.AllCallees(MethodFacts(p, m))
    requires c in p.methods && BoundedAt(p, m, st) && BoundedAt(p, c, cs)
    ensures BoundedAt(p, m, Absorb(st, cs))
  {
    CallIsEdge(p, m, c);
    hide MethodFacts;
    forall x | x in cs.names ensures NameJustified(p, m, x) {
      var n :| n in p.methods && CallGraph.Reaches(AllCalls(p), c, n) && x in DirectNames(p, n);
      CallGraph.ReachesStep(AllCalls(p), m, c, n);
    }
    if cs.all {
      var n :| n in p.methods && CallGraph.Reaches(AllCalls(p), c, n) && DirectAll(p, n);
      CallGraph.ReachesStep(AllCalls(p), m, c, n);
    }
  }

  lemma AbsorbKeepsBounds(p: Program, summ: Summary, m: Name, c: Name)
    requires Bounded(p, summ) && m in p.methods && c in SpawnCapture.AllCallees(MethodFacts(p, m))
    ensures c in p.methods
    ensures Bounded(p, summ[m := Absorb(summ[m], summ[c])])
    ensures Grown(p, summ, summ[m := Absorb(summ[m], summ[c])])
  {
    hide BoundedAt, MethodFacts;
    CallIsEdge(p, m, c);
    AbsorbJustified(p, m, c, summ[m], summ[c]);
    var s1 := summ[m := Absorb(summ[m], summ[c])];
    assert s1.Keys == summ.Keys;
  }

  /** `summ[m]` has absorbed everything `summ[c]` holds. */
  ghost predicate Absorbed(summ: Summary, m: Name, c: Name) {
    m in summ && c in summ && (summ[m].all || (!summ[c].all && summ[c].names <= summ[m].names))
  }

  ghost predicate AbsorbedAll(p: Program, summ: Summary, m: Name) {
    m in p.methods && forall c :: c in SpawnCapture.AllCallees(MethodFacts(p, m)) ==> Absorbed(summ, m, c)
  }

  /** One method's turn in a pass: visit each of its callees, unless it already needs all. */
  method Visit(p: Program, summ: Summary, m: Name) returns (summ': Summary)
    requires Bounded(p, summ) && m in p.methods
    ensures Bounded(p, summ') && Grown(p, summ, summ') && summ'.Keys == summ.Keys
    ensures summ' == summ ==> AbsorbedAll(p, summ, m)
  {
    summ' := summ;
    var callees := SpawnCapture.AllCallees(MethodFacts(p, m));
    forall c | c in callees ensures c in p.methods { CallIsEdge(p, m, c); }
    if summ[m].all { return; }
    var todo := callees;
    hide Bounded, MethodFacts, Grown;
    GrownRefl(p, summ);
    while todo != {}
      invariant todo <= callees
      invariant summ'.Keys == summ.Keys && Bounded(p, summ') && Grown(p, summ, summ')
      invariant summ' == summ ==> forall c :: c in callees && c !in todo ==> Absorbed(summ, m, c)
      decreases todo
    {
      var c :| c in todo;
      var before := summ';
      AbsorbKeepsBounds(p, before, m, c);
      summ' := before[m := Absorb(before[m], before[c])];
      BackAndForth(p, summ, before, summ');
      todo := todo - {c};
    }
  }

  lemma BoundedStart(p: Program, start: Summary)
    requires Bounded(p, start)
    ensures start.Keys == p.methods.Keys && Grown(p, start, start)
  {
    GrownRefl(p, start);
  }

  /** One round over every method; `changed` is the loop's flag. */
  method Round(p: Program, order: seq<Name>, start: Summary) returns (summ: Summary, changed: bool)
    requires Bounded(p, start) && forall m :: m in order <==> m in p.methods
    ensures Bounded(p, summ) && Grown(p, start, summ) && (changed <==> summ != start)
    ensures !changed ==> forall m :: m in p.methods ==> AbsorbedAll(p, summ, m)
  {
    hide Bounded, AbsorbedAll, Grown, MethodFacts;
    summ, changed := start, false;
    BoundedStart(p, start);
    for i := 0 to |order|
      invariant summ.Keys == p.methods.Keys && Bounded(p, summ) && Grown(p, start, summ)
      invariant changed <==> summ != start
      invariant !changed ==> forall j :: 0 <= j < i ==> AbsorbedAll(p, start, order[j])
    {
      var before := summ;
      summ := Visit(p, before, order[i]);
      if summ != before { changed := true; }
      BackAndForth(p, start, before, summ);
    }
  }

  /** The whole analysis: refine the direct summaries until a round changes nothing. */
  method ComputeCaptures(p: Program, order: seq<Name>) returns (summ: Summary)
    requires forall m :: m in order <==> m in p.methods
    ensures SpawnCapture.Closed(p, summ)
    ensures Bounded(p, summ)
  {
    summ := map m | m in p.methods :: Refs(DirectNames(p, m), DirectAll(p, m));
    DirectBounded(p, summ);
    var changed := true;
    hide BoundedAt, AbsorbedAll, Grown, Missing;
    while changed
      invariant Bounded(p, summ)
      invariant !changed ==> forall m :: m in p.methods ==> AbsorbedAll(p, summ, m)
      decreases Missing(p, summ), changed
    {
      var start := summ;
      summ, changed := Round(p, order, start);
      if changed { GrowthShrinksMissing(p, start, summ); }
    }
    AbsorbedIsClosed(p, summ);
  }

  /** A summary that grew and came back to its start never moved. */
  lemma BackAndForth(p: Program, s0: Summary, s1: Summary, s2: Summary)
    requires Grown(p, s0, s1) && Grown(p, s1, s2)
    ensures Grown(p, s0, s2) && (s0 == s2 ==> s0 == s1)
  {
    if s0 == s2 {
      forall m | m in p.methods ensures s0[m] == s1[m] {
        assert s0[m].names == s1[m].names;
      }
    }
  }

  lemma DirectBounded(p: Program, summ: Summary)
    requires summ == map m | m in p.methods :: Refs(DirectNames(p, m), DirectAll(p, m))
    ensures Bounded(p, summ)
  {
    forall m | m in p.methods ensures CallGraph.Reaches(AllCalls(p), m, m) {
      CallGraph.ReachesSelf(AllCalls(p), m);
    }
  }

  lemma AbsorbedIsClosed(p: Program, summ: Summary)
    requires Bounded(p, summ) && forall m :: m in p.methods ==> AbsorbedAll(p, summ, m)
    ensures SpawnCapture.Closed(p, summ)
  {
    forall m | m in summ ensures SpawnCapture.ClosedAt(p, summ, m) {
      assert AbsorbedAll(p, summ, m);
    }
  }

  /** Exactness: a closed summary holds every name a chain of calls justifies. */
  lemma {:induction false} ClosedHoldsChain(p: Program, summ: Summary, path: seq<Name>)
    requires SpawnCapture.Closed(p, summ) && CallGraph.Chain(AllCalls(p), path) && !summ[path[0]].all
    ensures path[|path| - 1] in p.methods && DirectNames(p, path[|path| - 1]) <= summ[path[0]].names
    ensures !DirectAll(p, path[|path| - 1])
  {
    assert SpawnCapture.ClosedAt(p, summ, path[0]);
    if |path| > 1 {
      ClosedHoldsChain(p, summ, path[1..]);
    }
  }

  /** What the fixpoint computes, without mentioning how: all, or exactly the reachable names. */
  lemma SummaryIsExact(p: Program, summ: Summary, m: Name)
    requires SpawnCapture.Closed(p, summ) && Bounded(p, summ) && m in p.methods
    ensures summ[m].all <==> AllJustified(p, m)
    ensures !summ[m].all ==> forall x :: x in summ[m].names <==> NameJustified(p, m, x)
  {
    if !summ[m].all {
      forall n | n in p.methods && CallGraph.Reaches(AllCalls(p), m, n)
        ensures DirectNames(p, n) <= summ[m].names && !DirectAll(p, n)
      {
        var path :| CallGraph.Chain(AllCalls(p), path) && path[0] == m && path[|path| - 1] == n;
        ClosedHoldsChain(p, summ, path);
      }
    }
  }

  /**
   A spawn copies nothing it cannot need. Its stamp asks for all globals exactly when the body makes a
   dynamic call or a chain of its calls reaches a method that does; otherwise it names exactly what the
   body refers to, or a method along such a chain.
   */
  lemma StampIsExact(p: Program, summ: Summary, s: Stmt)
    requires SpawnCapture.Closed(p, summ) && Bounded(p, summ)
    ensures var f := ScanStmt(p, s); var calls := SpawnCapture.AllCallees(f);
            && (Stamp(summ, f).AllGlobals? <==> f.dynamic || f.spawnDynamic || exists c :: c in calls && AllJustified(p, c))
            && (Stamp(summ, f).Only? ==> forall x :: x in Stamp(summ, f).names <==>
                  (x in f.uses && x !in f.locals) || exists c :: c in calls && NameJustified(p, c, x))
  {
    var f := ScanStmt(p, s);
    var calls := SpawnCapture.AllCallees(f);
    EscapeAnalysis.CalleesAreMethods(p, s);
    hide ScanStmt, AllJustified, NameJustified, SpawnCapture.Closed;
    assert forall c :: c in calls ==> c in summ by { hide BoundedAt; }
    forall c | c in calls
      ensures summ[c].all <==> AllJustified(p, c)
      ensures !summ[c].all ==> forall x :: x in summ[c].names <==> NameJustified(p, c, x)
    {
      SummaryIsExact(p, summ, c);
    }
    hide Bounded;
  }
}
