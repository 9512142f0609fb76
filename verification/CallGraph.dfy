/** Reachability over named calls, and the backward worklist that marks callers. */
module CallGraph {
  import opened Syntax

  /** Callee sets; a method calls only methods of the table. */
  type Edges = map<Name, set<Name>>

  ghost predicate Closed(edges: Edges) {
    forall m, c :: m in edges && c in edges[m] ==> c in edges
  }

  /** A chain of named calls. */
  ghost predicate Chain(edges: Edges, path: seq<Name>) {
    && path != [] && path[0] in edges
    && (|path| > 1 ==> path[1] in edges[path[0]] && Chain(edges, path[1..]))
  }

  ghost predicate Reaches(edges: Edges, m: Name, n: Name) {
    exists path :: Chain(edges, path) && path[0] == m && path[|path| - 1] == n
  }

  ghost predicate ReachesAny(edges: Edges, m: Name, targets: set<Name>) {
    exists n :: n in targets && Reaches(edges, m, n)
  }

  lemma ReachesSelf(edges: Edges, m: Name)
    requires m in edges
    ensures Reaches(edges, m, m)
  {
    assert Chain(edges, [m]);
  }

  lemma ReachesStep(edges: Edges, m: Name, c: Name, n: Name)
    requires m in edges && c in edges[m] && Reaches(edges, c, n)
    ensures Reaches(edges, m, n)
  {
    var path :| Chain(edges, path) && path[0] == c && path[|path| - 1] == n;
    var path' := [m] + path;
    assert path'[1..] == path;
    assert Chain(edges, path');
  }

  /** A set closed under "calls a member" holds every method that reaches one of its members. */
  lemma {:induction false} ClosedSetHoldsChains(edges: Edges, marked: set<Name>, path: seq<Name>)
    requires forall m, c :: m in edges && c in edges[m] && c in marked ==> m in marked
    requires Chain(edges, path) && path[|path| - 1] in marked
    ensures path[0] in marked
  {
    if |path| > 1 {
      ClosedSetHoldsChains(edges, marked, path[1..]);
    }
  }

  /** `callers` lists m under c exactly for the recorded call edges of the methods in `done`. */
  ghost predicate Recorded(edges: Edges, callers: map<Name, seq<Name>>, done: set<Name>) {
    && callers.Keys == edges.Keys
    && forall m, c :: c in edges ==> (m in callers[c] <==> m in done && m in edges && c in edges[m])
  }

  method RecordCaller(edges: Edges, callers: map<Name, seq<Name>>, ghost done: set<Name>, m: Name)
      returns (callers': map<Name, seq<Name>>)
    requires Closed(edges) && Recorded(edges, callers, done) && m in edges
    ensures Recorded(edges, callers', done + {m})
  {
    hide Recorded;
    callers' := callers;
    var todo := edges[m];
    RecordedKeys(edges, callers, done);
    while todo != {}
      invariant todo <= edges[m] && callers'.Keys == edges.Keys
      invariant forall c :: c in edges ==>
                  callers'[c] == if c in edges[m] && c !in todo then callers[c] + [m] else callers[c]
      decreases todo
    {
      var c :| c in todo;
      callers' := callers'[c := callers'[c] + [m]];
      todo := todo - {c};
    }
    RecordedMore(edges, callers, callers', done, m);
  }

  lemma RecordedKeys(edges: Edges, callers: map<Name, seq<Name>>, done: set<Name>)
    requires Recorded(edges, callers, done)
    ensures callers.Keys == edges.Keys
  {
  }

  lemma RecordedMore(edges: Edges, callers: map<Name, seq<Name>>, callers': map<Name, seq<Name>>, done: set<Name>, m: Name)
    requires Recorded(edges, callers, done) && m in edges && callers'.Keys == edges.Keys
    requires forall c :: c in edges ==> callers'[c] == if c in edges[m] then callers[c] + [m] else callers[c]
    ensures Recorded(edges, callers', done + {m})
  {
    forall k, c | c in edges
      ensures k in callers'[c] <==> k in done + {m} && k in edges && c in edges[k]
    {
      assert callers'[c] == if c in edges[m] then callers[c] + [m] else callers[c];
      assert k in callers[c] <==> k in done && k in edges && c in edges[k];
    }
  }

  /** Reverse call edges, one append per (caller, callee) pair. */
  method ReverseEdges(edges: Edges, order: seq<Name>) returns (callers: map<Name, seq<Name>>)
    requires Closed(edges) && forall m :: m in order <==> m in edges
    ensures Recorded(edges, callers, edges.Keys)
  {
    callers := map c | c in edges :: [];
    ghost var done: set<Name> := {};
    for i := 0 to |order|
      invariant Recorded(edges, callers, done)
      invariant forall m :: m in done <==> m in order[..i]
    {
      callers := RecordCaller(edges, callers, done, order[i]);
      done := done + {order[i]};
    }
    assert done == edges.Keys;
  }

  lemma CallersOf(edges: Edges, callers: map<Name, seq<Name>>, m: Name)
    requires Recorded(edges, callers, edges.Keys) && m in edges
    ensures m in callers && forall k :: k in callers[m] <==> k in edges && m in edges[k]
  {
  }

  ghost predicate Justified(edges: Edges, marked: set<Name>, seed: set<Name>) {
    forall m :: m in marked ==> m in edges && ReachesAny(edges, m, seed)
  }

  /** One worklist step: mark the unmarked callers of m and queue them. */
  method MarkCallers(ghost edges: Edges, ghost seed: set<Name>, ghost m: Name, callers: seq<Name>,
                     marked0: set<Name>, work0: seq<Name>) returns (marked: set<Name>, work: seq<Name>)
    requires m in edges && m in marked0 && Justified(edges, marked0, seed)
    requires forall k :: k in callers ==> k in edges && m in edges[k]
    ensures marked0 <= marked <= edges.Keys && Justified(edges, marked, seed)
    ensures forall k :: k in work <==> k in work0 || (k in marked && k !in marked0)
    ensures forall k :: k in callers ==> k in marked
    ensures marked == marked0 ==> work == work0
  {
    marked, work := marked0, work0;
    for j := 0 to |callers|
      invariant marked0 <= marked && Justified(edges, marked, seed)
      invariant forall k :: k in work <==> k in work0 || (k in marked && k !in marked0)
      invariant forall k :: k in callers[..j] ==> k in marked
      invariant marked == marked0 ==> work == work0
    {
      var caller := callers[j];
      if caller !in marked {
        CallerReaches(edges, caller, m, seed);
        marked := marked + {caller};
        work := work + [caller];
      }
    }
  }

  lemma CallerReaches(edges: Edges, caller: Name, m: Name, seed: set<Name>)
    requires caller in edges && m in edges[caller] && ReachesAny(edges, m, seed)
    ensures ReachesAny(edges, caller, seed)
  {
    var n :| n in seed && Reaches(edges, m, n);
    ReachesStep(edges, caller, m, n);
  }

  lemma ReachersMarked(edges: Edges, marked: set<Name>, seed: set<Name>, work: seq<Name>, m: Name)
    requires seed <= marked && ReachesAny(edges, m, seed)
    requires Frontier(edges, marked, work) && work == []
    ensures m in marked
  {
    var n :| n in seed && Reaches(edges, m, n);
    var path :| Chain(edges, path) && path[0] == m && path[|path| - 1] == n;
    ClosedSetHoldsChains(edges, marked, path);
  }

  /** Callers of every marked method not still queued are marked. */
  ghost predicate Frontier(edges: Edges, marked: set<Name>, work: seq<Name>) {
    forall m, c :: m in edges && c in edges[m] && c in marked && c !in work ==> m in marked
  }

  lemma FrontierStep(edges: Edges, m: Name, callers: seq<Name>, marked0: set<Name>, rest: seq<Name>,
                     marked: set<Name>, work: seq<Name>)
    requires Frontier(edges, marked0, rest + [m])
    requires forall k :: k in edges && m in edges[k] ==> k in callers
    requires forall k :: k in callers ==> k in marked
    requires marked0 <= marked
    requires forall k :: k in work <==> k in rest || (k in marked && k !in marked0)
    ensures Frontier(edges, marked, work)
  {
    forall k, c | k in edges && c in edges[k] && c in marked && c !in work ensures k in marked {
      if c == m {
        assert k in callers;
      } else {
        assert c in marked0 && c !in rest + [m];
      }
    }
  }

  method InitialWork(order: seq<Name>, seed: set<Name>) returns (work: seq<Name>)
    requires forall m :: m in seed ==> m in order
    ensures forall m :: m in work <==> m in seed
  {
    work := [];
    for i := 0 to |order|
      invariant forall m :: m in work <==> m in order[..i] && m in seed
    {
      if order[i] in seed { work := work + [order[i]]; }
    }
  }

  lemma SeedStart(edges: Edges, seed: set<Name>, work: seq<Name>)
    requires seed <= edges.Keys && forall m :: m in seed ==> m in work
    ensures Justified(edges, seed, seed) && Frontier(edges, seed, work)
  {
    forall m | m in seed ensures ReachesAny(edges, m, seed) { ReachesSelf(edges, m); }
  }

  lemma Finished(edges: Edges, marked: set<Name>, seed: set<Name>)
    requires seed <= marked && Justified(edges, marked, seed) && Frontier(edges, marked, [])
    ensures forall m :: m in marked <==> m in edges && ReachesAny(edges, m, seed)
  {
    forall m | m in edges && ReachesAny(edges, m, seed) ensures m in marked {
      ReachersMarked(edges, marked, seed, [], m);
    }
  }

  ghost predicate WorkInv(edges: Edges, seed: set<Name>, marked: set<Name>, work: seq<Name>) {
    && seed <= marked && Justified(edges, marked, seed) && Frontier(edges, marked, work)
    && forall m :: m in work ==> m in marked
  }

  /** Pop one method and mark its callers. */
  method PopAndMark(edges: Edges, ghost seed: set<Name>, callers: map<Name, seq<Name>>, marked: set<Name>, work: seq<Name>)
      returns (marked': set<Name>, work': seq<Name>)
    requires WorkInv(edges, seed, marked, work) && work != [] && Recorded(edges, callers, edges.Keys)
    ensures WorkInv(edges, seed, marked', work')
    ensures edges.Keys - marked' < edges.Keys - marked || (marked' == marked && |work'| < |work|)
  {
    hide Recorded, ReachesAny, WorkInv, Justified, Frontier;
    var m := work[|work| - 1];
    var rest := work[..|work| - 1];
    assert work == rest + [m];
    NextIsMarked(edges, seed, marked, work);
    CallersOf(edges, callers, m);
    marked', work' := MarkCallers(edges, seed, m, callers[m], marked, rest);
    FrontierStep(edges, m, callers[m], marked, rest, marked', work');
    WorkGoesOn(edges, seed, marked, rest, m, marked', work');
  }

  lemma NextIsMarked(edges: Edges, seed: set<Name>, marked: set<Name>, work: seq<Name>)
    requires WorkInv(edges, seed, marked, work) && work != []
    ensures work[|work| - 1] in marked && work[|work| - 1] in edges
    ensures Justified(edges, marked, seed) && Frontier(edges, marked, work)
  {
    hide ReachesAny;
  }

  lemma WorkGoesOn(edges: Edges, seed: set<Name>, marked: set<Name>, rest: seq<Name>, m: Name, marked': set<Name>, work': seq<Name>)
    requires WorkInv(edges, seed, marked, rest + [m]) && marked <= marked' <= edges.Keys
    requires Justified(edges, marked', seed) && Frontier(edges, marked', work')
    requires forall k :: k in work' <==> k in rest || (k in marked' && k !in marked)
    ensures WorkInv(edges, seed, marked', work')
  {
    hide Justified, Frontier;
    assert forall k :: k in rest ==> k in rest + [m];
  }

  /** The worklist: marks exactly the methods some chain of calls takes to a seed. */
  method Propagate(edges: Edges, order: seq<Name>, seed: set<Name>) returns (marked: set<Name>)
    requires Closed(edges) && (forall m :: m in order <==> m in edges) && seed <= edges.Keys
    ensures forall m :: m in marked <==> m in edges && ReachesAny(edges, m, seed)
  {
    var callers := ReverseEdges(edges, order);
    marked := seed;
    var work := InitialWork(order, seed);
    SeedStart(edges, seed, work);
    assert WorkInv(edges, seed, marked, work);
    while |work| > 0
      invariant WorkInv(edges, seed, marked, work)
      decreases edges.Keys - marked, |work|
    {
      hide WorkInv, Recorded;
      marked, work := PopAndMark(edges, seed, callers, marked, work);
    }
    Finished(edges, marked, seed);
  }
}
