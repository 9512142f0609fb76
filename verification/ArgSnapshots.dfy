/**
 stampArgSnapshots: the arguments that alias a global while a later argument of
 the same call may write one, and what "may write" guarantees when it says no. Here
 `globals` are the mutable ones.
 */
module ArgSnapshots {
  import opened Syntax
  import opened Scans
  import EscapeAnalysis

  /** The expression evaluates to (part of) a global's own backing. */
  predicate AliasesGlobal(globals: set<Name>, e: Expr) {
    match e
    case Var(x) => x in globals
    case Index(a, _) => AliasesGlobal(globals, a)
    case _ => false
  }

  /** Evaluating the expression may run code that writes a global. */
  predicate MayMutate(safe: set<Name>, e: Expr) {
    match e
    case Lit(_) => false
    case Var(_) => false
    case Bin(a, b) => MayMutate(safe, a) || MayMutate(safe, b)
    case Index(a, b) => MayMutate(safe, a) || MayMutate(safe, b)
    case ListLit(es) => AnyMutates(safe, es)
    case Call(f, es) => f !in safe || AnyMutates(safe, es)
    case CallValue(_, _) => true
    case Spawn(_) => true
  }

  predicate AnyMutates(safe: set<Name>, es: Exprs) {
    match es
    case ENil => false
    case ECons(e, tl) => MayMutate(safe, e) || AnyMutates(safe, tl)
  }

  function At(es: Exprs, k: nat): Expr
    requires k < Len(es)
  {
    if k == 0 then es.head else At(es.tail, k - 1)
  }

  function Drop(es: Exprs, k: nat): Exprs
    requires k <= Len(es)
  {
    if k == 0 then es else Drop(es.tail, k - 1)
  }

  lemma {:induction false} DropAt(es: Exprs, k: nat)
    requires k < Len(es)
    ensures Drop(es, k) == ECons(At(es, k), Drop(es, k + 1))
  {
    if k > 0 { DropAt(es.tail, k - 1); }
  }

  lemma {:induction false} DropAll(es: Exprs)
    ensures Drop(es, Len(es)) == ENil
  {
    if es.ECons? { DropAll(es.tail); }
  }

  /** ArgSnap[k]: argument k aliases a global and something after it may write one. */
  predicate Marked(globals: set<Name>, safe: set<Name>, es: Exprs, k: nat)
    requires k < Len(es)
  {
    AliasesGlobal(globals, At(es, k)) && AnyMutates(safe, Drop(es, k + 1))
  }

  /** snaps: one backward pass; a nil result is a call with nothing marked. */
  method Snaps(globals: set<Name>, safe: set<Name>, es: Exprs) returns (marks: seq<bool>)
    ensures marks == [] ==> forall k: nat :: k < Len(es) ==> !Marked(globals, safe, es, k)
    ensures marks != [] ==> |marks| == Len(es) && forall k: nat :: k < Len(es) ==> (marks[k] <==> Marked(globals, safe, es, k))
  {
    marks := [];
    var hazardAfter := false;
    var k := Len(es);
    DropAll(es);
    while k > 0
      invariant 0 <= k <= Len(es)
      invariant hazardAfter <==> AnyMutates(safe, Drop(es, k))
      invariant marks == [] ==> forall j: nat :: k <= j < Len(es) ==> !Marked(globals, safe, es, j)
      invariant marks != [] ==> |marks| == Len(es)
      invariant marks != [] ==> forall j: nat :: j < Len(es) ==> (marks[j] <==> k <= j && Marked(globals, safe, es, j))
    {
      k := k - 1;
      DropAt(es, k);
      if hazardAfter && AliasesGlobal(globals, At(es, k)) {
        if marks == [] {
          marks := seq(Len(es), _ => false);
        }
        marks := marks[k := true];
      }
      if !hazardAfter && MayMutate(safe, At(es, k)) {
        hazardAfter := true;
      }
    }
  }

  /** Code the scan clears reaches no global write: no dynamic call, only safe callees. */
  lemma {:induction false} ClearedIsQuiet(p: Program, safe: set<Name>, e: Expr, locals: set<Name>)
    requires !MayMutate(safe, e) && safe <= p.methods.Keys
    ensures EscapeAnalysis.Quiet(safe, ScanExpr(p, e), locals)
    decreases e
  {
    match e
    case Lit(_) =>
    case Var(_) =>
    case Bin(a, b) => ClearedIsQuiet(p, safe, a, locals); ClearedIsQuiet(p, safe, b, locals);
    case Index(a, b) => ClearedIsQuiet(p, safe, a, locals); ClearedIsQuiet(p, safe, b, locals);
    case ListLit(es) => AllClearedIsQuiet(p, safe, es, locals);
    case Call(f, es) => AllClearedIsQuiet(p, safe, es, locals);
  }

  lemma {:induction false} AllClearedIsQuiet(p: Program, safe: set<Name>, es: Exprs, locals: set<Name>)
    requires !AnyMutates(safe, es) && safe <= p.methods.Keys
    ensures EscapeAnalysis.Quiet(safe, ScanExprs(p, es), locals)
    decreases es
  {
    match es
    case ENil =>
    case ECons(e, tl) => ClearedIsQuiet(p, safe, e, locals); AllClearedIsQuiet(p, safe, tl, locals);
  }

  /** A spawn stands in the expression, outside any other spawn. */
  predicate Spawns(e: Expr) {
    match e
    case Bin(a, b) => Spawns(a) || Spawns(b)
    case Index(a, b) => Spawns(a) || Spawns(b)
    case ListLit(es) => AnySpawns(es)
    case Call(_, es) => AnySpawns(es)
    case CallValue(c, es) => Spawns(c) || AnySpawns(es)
    case Spawn(_) => true
    case _ => false
  }

  predicate AnySpawns(es: Exprs) {
    match es
    case ENil => false
    case ECons(e, tl) => Spawns(e) || AnySpawns(tl)
  }

  /** The scan flags no more than it must: a spawn, a dynamic call, or a call of a method that is not safe. */
  lemma {:induction false} FlaggedIsLoud(p: Program, safe: set<Name>, e: Expr)
    requires safe <= p.methods.Keys
    ensures MayMutate(safe, e) <==> Spawns(e) || ScanExpr(p, e).dynamic || !(ScanExpr(p, e).callees <= safe)
    decreases e
  {
    match e
    case Bin(a, b) => FlaggedIsLoud(p, safe, a); FlaggedIsLoud(p, safe, b);
    case Index(a, b) => FlaggedIsLoud(p, safe, a); FlaggedIsLoud(p, safe, b);
    case ListLit(es) => FlaggedAreLoud(p, safe, es);
    case Call(f, es) => FlaggedAreLoud(p, safe, es);
    case _ =>
  }

  lemma {:induction false} FlaggedAreLoud(p: Program, safe: set<Name>, es: Exprs)
    requires safe <= p.methods.Keys
    ensures AnyMutates(safe, es) <==> AnySpawns(es) || ScanExprs(p, es).dynamic || !(ScanExprs(p, es).callees <= safe)
    decreases es
  {
    match es
    case ENil =>
    case ECons(e, tl) => FlaggedIsLoud(p, safe, e); FlaggedAreLoud(p, safe, tl);
  }
}
