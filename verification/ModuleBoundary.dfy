/**
 A call into a module: the impostor check, the crossing inward, the crossing back
 outward, and the parameter check on either side of the boundary.
 */
module ModuleBoundary {
  import opened Options
  import opened Retagging

  // ----- in and back out -----

  lemma {:induction false} TypeRoundTrip(m: LoadedModule, t: Option<Type>)
    requires m.side != Bare
    ensures MoveType(Outward(m), MoveType(Inward(m), t)) == t <==> !TypeHit(Outward(m), t)
    ensures MoveType(Inward(m), MoveType(Outward(m), t)) == t <==> !TypeHit(Inward(m), t)
    ensures !TypeHit(Outward(m), MoveType(Outward(m), t))
    decreases t
  {
    match t
    case Some(ListOf(e)) => TypeRoundTrip(m, e);
    case Some(MapOf(k, v)) => TypeRoundTrip(m, k); TypeRoundTrip(m, v);
    case Some(HandleOf(_, e)) => TypeRoundTrip(m, e);
    case _ =>
  }

  lemma HeadRoundTrip(m: LoadedModule, v: Value)
    requires m.side != Bare
    ensures MoveHead(Outward(m), MoveHead(Inward(m), v)) == v <==> !IdHit(Outward(m), v) && !StampHit(Outward(m), v)
  {
    match v
    case List(e, _) => TypeRoundTrip(m, e);
    case Map(k, t, _) => TypeRoundTrip(m, k); TypeRoundTrip(m, t);
    case _ =>
  }

  /** Moving a head and filling it do not interfere. */
  lemma MoveFill(c: Crossing, v: Value, ps: seq<Value>)
    requires |ps| == |Parts(v)|
    ensures MoveHead(c, Fill(v, ps)) == Fill(MoveHead(c, v), ps)
  {
  }

  /** Two plain rewritings in a row, one head at a time. */
  lemma RebuildTwice(c: Crossing, d: Crossing, v: Value, ps: seq<Value>)
    requires |ps| == |Parts(v)| && forall i :: 0 <= i < |ps| ==> ps[i] == Rebuild(d, Rebuild(c, Parts(v)[i]))
    ensures Rebuild(d, Rebuild(c, v)) == Fill(MoveHead(d, MoveHead(c, v)), ps)
  {
    var qs := seq(|Parts(v)|, i requires 0 <= i < |Parts(v)| => Rebuild(c, Parts(v)[i]));
    FillParts(MoveHead(c, v), qs);
    var w := Rebuild(c, v);
    assert w == Fill(MoveHead(c, v), qs) && Parts(w) == qs;
    var rs := seq(|Parts(w)|, i requires 0 <= i < |Parts(w)| => Rebuild(d, Parts(w)[i]));
    assert rs == ps;
    assert Rebuild(d, w) == Fill(MoveHead(d, w), rs);
    MoveFill(d, MoveHead(c, v), qs);
    FillParts(MoveHead(d, MoveHead(c, v)), qs);
  }

  /** In and back out is the identity exactly on values that hold no bare own identity or type. */
  lemma {:induction false} RebuildRoundTrip(m: LoadedModule, v: Value)
    requires m.side != Bare
    ensures Rebuild(Outward(m), Rebuild(Inward(m), v)) == v <==> !Touches(Outward(m), v)
  {
    hide Rebuild, MoveHead, Fill, Parts;
    var n := |Parts(v)|;
    var ps := seq(n, i requires 0 <= i < n => Rebuild(Outward(m), Rebuild(Inward(m), Parts(v)[i])));
    forall i | 0 <= i < n
      ensures ps[i] == Parts(v)[i] <==> !Touches(Outward(m), Parts(v)[i])
    {
      RebuildRoundTrip(m, Parts(v)[i]);
    }
    RebuildTwice(Inward(m), Outward(m), v, ps);
    HeadRoundTrip(m, v);
    FillWhole(MoveHead(Outward(m), MoveHead(Inward(m), v)), v, ps);
  }

  /** The same for the rewriting the interpreter performs. */
  lemma RoundTrip(m: LoadedModule, v: Value)
    requires m.side != Bare && WellTyped(v)
    ensures Retag(Inward(m), v) == Rebuild(Inward(m), v)
    ensures Retag(Outward(m), Retag(Inward(m), v)) == Rebuild(Outward(m), Rebuild(Inward(m), v))
    ensures Retag(Outward(m), Retag(Inward(m), v)) == v <==> !Touches(Outward(m), v)
  {
    WellTypedIsHonest(Inward(m), v);
    RetagIsRebuild(Inward(m), v);
    RebuildWellTyped(Inward(m), v);
    WellTypedIsHonest(Outward(m), Rebuild(Inward(m), v));
    RetagIsRebuild(Outward(m), Rebuild(Inward(m), v));
    RebuildRoundTrip(m, v);
  }

  // ----- the impostor check -----

  /** findImpostorStruct: the first bare value, depth first, whose name the module owns. */
  function FirstImpostor(m: LoadedModule, v: Value): Option<Value>
    decreases v, 1
  {
    if IdHit(Outward(m), v) then Some(v)
    else if Skipped(v) then None
    else match v
      case Map(_, _, es) => FirstInEntries(m, v, 0)
      case _ => FirstInParts(m, v, 0)
  }

  function FirstInParts(m: LoadedModule, v: Value, k: nat): Option<Value>
    requires k <= |Parts(v)|
    decreases v, 0, |Parts(v)| - k
  {
    if k == |Parts(v)| then None
    else
      var r := FirstImpostor(m, Parts(v)[k]);
      if r.Some? then r else FirstInParts(m, v, k + 1)
  }

  /** A map's entries in order, the key before the value. */
  function FirstInEntries(m: LoadedModule, v: Value, k: nat): Option<Value>
    requires v.Map? && k <= |v.entries|
    decreases v, 0, |v.entries| - k
  {
    if k == |v.entries| then None
    else
      assert v.entries[k].key == Parts(v)[k] && v.entries[k].value == Parts(v)[|v.entries| + k];
      var r := FirstImpostor(m, v.entries[k].key);
      if r.Some? then r
      else
        var q := FirstImpostor(m, v.entries[k].value);
        if q.Some? then q else FirstInEntries(m, v, k + 1)
  }

  /** `w` is `v` or lies inside it. */
  predicate Within(w: Value, v: Value) {
    w == v || exists i :: 0 <= i < |Parts(v)| && Within(w, Parts(v)[i])
  }

  /** The check reports a value inside `v` that the way out would rebrand, and misses none. */
  lemma {:induction false} ImpostorsAreFound(m: LoadedModule, v: Value)
    requires WellTyped(v)
    ensures FirstImpostor(m, v).Some? <==> AnyId(Outward(m), v)
    ensures FirstImpostor(m, v).Some? ==> IdHit(Outward(m), FirstImpostor(m, v).value) && Within(FirstImpostor(m, v).value, v)
    decreases v, 1
  {
    if IdHit(Outward(m), v) {
    } else if Skipped(v) {
      forall i | 0 <= i < |Parts(v)|
        ensures !AnyId(Outward(m), Parts(v)[i])
      {
        SkippedHoldsScalars(v, i);
      }
    } else if v.Map? {
      EntryImpostors(m, v, 0);
      forall i | 0 <= i < |Parts(v)|
        ensures AnyId(Outward(m), Parts(v)[i]) ==>
          exists j :: 0 <= j < |v.entries| && (AnyId(Outward(m), v.entries[j].key) || AnyId(Outward(m), v.entries[j].value))
      {
        var n := |v.entries|;
        if i < n { assert Parts(v)[i] == v.entries[i].key; } else { assert Parts(v)[i] == v.entries[i - n].value; }
      }
      forall j | 0 <= j < |v.entries|
        ensures AnyId(Outward(m), v.entries[j].key) || AnyId(Outward(m), v.entries[j].value) ==> AnyId(Outward(m), v)
      {
        assert Parts(v)[j] == v.entries[j].key && Parts(v)[|v.entries| + j] == v.entries[j].value;
      }
    } else {
      PartImpostors(m, v, 0);
    }
  }

  lemma {:induction false} PartImpostors(m: LoadedModule, v: Value, k: nat)
    requires WellTyped(v) && k <= |Parts(v)|
    ensures FirstInParts(m, v, k).Some? <==> exists i :: k <= i < |Parts(v)| && AnyId(Outward(m), Parts(v)[i])
    ensures FirstInParts(m, v, k).Some? ==> IdHit(Outward(m), FirstInParts(m, v, k).value) && Within(FirstInParts(m, v, k).value, v)
    decreases v, 0, |Parts(v)| - k
  {
    if k < |Parts(v)| {
      ImpostorsAreFound(m, Parts(v)[k]);
      PartImpostors(m, v, k + 1);
    }
  }

  lemma {:induction false} EntryImpostors(m: LoadedModule, v: Value, k: nat)
    requires WellTyped(v) && v.Map? && k <= |v.entries|
    ensures FirstInEntries(m, v, k).Some? <==>
            exists i :: k <= i < |v.entries| && (AnyId(Outward(m), v.entries[i].key) || AnyId(Outward(m), v.entries[i].value))
    ensures FirstInEntries(m, v, k).Some? ==> IdHit(Outward(m), FirstInEntries(m, v, k).value) && Within(FirstInEntries(m, v, k).value, v)
    decreases v, 0, |v.entries| - k
  {
    if k < |v.entries| {
      assert v.entries[k].key == Parts(v)[k] && v.entries[k].value == Parts(v)[|v.entries| + k];
      ImpostorsAreFound(m, Parts(v)[k]);
      ImpostorsAreFound(m, Parts(v)[|v.entries| + k]);
      EntryImpostors(m, v, k + 1);
    }
  }

  // ----- what the check guarantees -----

  /** `v` without its recorded types: the identities, and everything else, at every depth. */
  function Unstamped(v: Value): Value {
    Fill(BareHead(v), seq(|Parts(v)|, i requires 0 <= i < |Parts(v)| => Unstamped(Parts(v)[i])))
  }

  function BareHead(v: Value): (w: Value)
    ensures Parts(w) == Parts(v)
  {
    match v
    case List(_, s) => List(None, s)
    case Map(_, _, es) => Map(None, None, es)
    case _ => v
  }

  lemma {:induction false} UnstampedRoundTrip(m: LoadedModule, v: Value)
    requires m.side != Bare
    ensures Unstamped(Rebuild(Outward(m), Rebuild(Inward(m), v))) == Unstamped(v) <==> !AnyId(Outward(m), v)
  {
    var n := |Parts(v)|;
    var ps := seq(n, i requires 0 <= i < n => Rebuild(Outward(m), Rebuild(Inward(m), Parts(v)[i])));
    RebuildTwice(Inward(m), Outward(m), v, ps);
    var h := MoveHead(Outward(m), MoveHead(Inward(m), v));
    FillParts(h, ps);
    var us := seq(n, i requires 0 <= i < n => Unstamped(ps[i]));
    var vs := seq(n, i requires 0 <= i < n => Unstamped(Parts(v)[i]));
    forall i | 0 <= i < n
      ensures us[i] == vs[i] <==> !AnyId(Outward(m), Parts(v)[i])
    {
      UnstampedRoundTrip(m, Parts(v)[i]);
    }
    UnstampedFill(h, ps, us);
    UnstampedFill(v, Parts(v), vs);
    FillParts(v, ps);
    FillParts(BareHead(h), us);
    FillParts(BareHead(v), vs);
    FillParts(BareHead(v), us);
    HeadIds(m, v);
    if us == vs {
      FillParts(BareHead(h), us); FillParts(BareHead(h), Parts(v));
      FillParts(BareHead(v), Parts(v));
    }
  }

  lemma UnstampedFill(h: Value, ps: seq<Value>, us: seq<Value>)
    requires |ps| == |us| == |Parts(h)| && forall i :: 0 <= i < |ps| ==> us[i] == Unstamped(ps[i])
    ensures Unstamped(Fill(h, ps)) == Fill(BareHead(h), us)
  {
    FillParts(h, ps);
    var w := Fill(h, ps);
    assert us == seq(|Parts(w)|, i requires 0 <= i < |Parts(w)| => Unstamped(Parts(w)[i]));
    FillParts(BareHead(h), ps);
    assert BareHead(w) == Fill(BareHead(h), ps);
  }

  lemma HeadIds(m: LoadedModule, v: Value)
    requires m.side != Bare
    ensures BareHead(MoveHead(Outward(m), MoveHead(Inward(m), v))) == BareHead(v) <==> !IdHit(Outward(m), v)
  {
  }

  /** The check accepts exactly the arguments whose identities, at every depth, come back as they went in. */
  lemma AcceptedComeBack(m: LoadedModule, v: Value)
    requires m.side != Bare && WellTyped(v)
    ensures FirstImpostor(m, v).None? <==> Unstamped(Retag(Outward(m), Retag(Inward(m), v))) == Unstamped(v)
    ensures FirstImpostor(m, v).None? ==> (Retag(Outward(m), Retag(Inward(m), v)) == v <==> !AnyStamp(Outward(m), v))
  {
    ImpostorsAreFound(m, v);
    RoundTrip(m, v);
    UnstampedRoundTrip(m, v);
  }

  /** The check does not read recorded types: an accepted empty list can come back as a list of the module's struct. */
  lemma EmptyListRebranded(m: LoadedModule, name: string)
    requires m.side != Bare && name in OwnNames(m)
    ensures var v := List(Some(Named(Ident(Bare, name))), []);
            && WellTyped(v) && FirstImpostor(m, v).None?
            && Retag(Outward(m), Retag(Inward(m), v)) == List(Some(Named(Ident(m.side, name))), [])
  {
    var v := List(Some(Named(Ident(Bare, name))), []);
    assert Parts(v) == [];
    RoundTrip(m, v);
    assert FirstInParts(m, v, 0).None?;
    assert Rebuild(Inward(m), v) == v;
  }

  /** The head of a named value, of a struct or of an enum. */
  function Identity(v: Value): Option<Ident> {
    match v
    case Struct(id, _) => Some(id)
    case Enum(id, _, _) => Some(id)
    case _ => None
  }

  /**
   Which identities cross: entering, the module's own become bare; leaving, bare ones become its own;
   in both cases exactly the structs and enums it declares, `Error` excepted. All others stay.
   */
  lemma IdentitiesCross(m: LoadedModule, v: Value)
    requires m.side != Bare && Identity(v).Some?
    ensures var id := Identity(v).value; var own := (id.name in m.structs || id.name in m.enums) && id.name != "Error";
            && Identity(Retag(Inward(m), v)) == Some(if own && id.side == m.side then Ident(Bare, id.name) else id)
            && Identity(Retag(Outward(m), v)) == Some(if own && id.side == Bare then Ident(m.side, id.name) else id)
  {
    HeadCrosses(Inward(m), v);
    HeadCrosses(Outward(m), v);
    hide Retag;
  }

  lemma HeadCrosses(c: Crossing, v: Value)
    requires Identity(v).Some?
    ensures Identity(Retag(c, v)) == Some(Move(c, Identity(v).value))
  {
  }

  // ----- the loops -----

  /** The rewriting as it runs: untouched subtrees are shared, others are rebuilt part by part. */
  method RetagStructs(c: Crossing, v: Value) returns (r: Value)
    ensures r == Retag(c, v)
    decreases v
  {
    if !Needs(c, v) { return v; }
    match v
    case Struct(id, fs) =>
      var fs' := RetagFields(c, v, fs);
      r := Struct(Move(c, id), fs');
    case Enum(id, n, fs) =>
      var fs' := RetagFields(c, v, fs);
      r := Enum(Move(c, id), n, fs');
    case List(e, s) =>
      var s' := [];
      for i := 0 to |s|
        invariant |s'| == i && forall j :: 0 <= j < i ==> s'[j] == Retag(c, s[j])
      {
        var w := RetagStructs(c, s[i]);
        s' := s' + [w];
      }
      r := List(MoveType(c, e), s');
    case Map(k, t, es) =>
      var es' := [];
      for i := 0 to |es|
        invariant |es'| == i && forall j :: 0 <= j < i ==> es'[j] == Entry(Retag(c, es[j].key), Retag(c, es[j].value))
      {
        assert Parts(v)[i] == es[i].key && Parts(v)[|es| + i] == es[i].value;
        var a := RetagStructs(c, es[i].key);
        var b := RetagStructs(c, es[i].value);
        es' := es' + [Entry(a, b)];
      }
      r := Map(MoveType(c, k), MoveType(c, t), es');
      MapEntriesRetagged(c, v, r);
    case _ => r := v;
  }

  method RetagFields(c: Crossing, ghost v: Value, fs: seq<Field>) returns (fs': seq<Field>)
    requires (v.Struct? || v.Enum?) && v.fields == fs
    ensures |fs'| == |fs| && forall j :: 0 <= j < |fs| ==> fs'[j] == Field(fs[j].name, Retag(c, fs[j].value))
    decreases v, 0
  {
    fs' := [];
    for i := 0 to |fs|
      invariant |fs'| == i && forall j :: 0 <= j < i ==> fs'[j] == Field(fs[j].name, Retag(c, fs[j].value))
    {
      assert Parts(v)[i] == fs[i].value;
      var w := RetagStructs(c, fs[i].value);
      fs' := fs' + [Field(fs[i].name, w)];
    }
  }

  lemma MapEntriesRetagged(c: Crossing, v: Value, r: Value)
    requires v.Map? && Needs(c, v) && r.Map? && r.key == MoveType(c, v.key) && r.val == MoveType(c, v.val)
    requires |r.entries| == |v.entries|
    requires forall j :: 0 <= j < |v.entries| ==> r.entries[j] == Entry(Retag(c, v.entries[j].key), Retag(c, v.entries[j].value))
    ensures r == Retag(c, v)
  {
    var n := |v.entries|;
    assert forall i :: 0 <= i < n ==> Parts(v)[i] == v.entries[i].key && Parts(v)[n + i] == v.entries[i].value;
  }

  datatype Crossed = Crossed(args: seq<Value>) | Rejected(index: nat, impostor: Value)

  /** The argument loop of a module call: each argument is checked and then moved inward. */
  method CrossArguments(m: LoadedModule, args: seq<Value>) returns (r: Crossed)
    requires m.side != Bare && forall i :: 0 <= i < |args| ==> WellTyped(args[i])
    ensures r.Crossed? <==> forall i :: 0 <= i < |args| ==> !AnyId(Outward(m), args[i])
    ensures r.Crossed? ==> |r.args| == |args| && forall i :: 0 <= i < |args| ==>
              r.args[i] == Rebuild(Inward(m), args[i]) && Unstamped(Retag(Outward(m), r.args[i])) == Unstamped(args[i])
    ensures r.Rejected? ==>
              && r.index < |args| && (forall i :: 0 <= i < r.index ==> !AnyId(Outward(m), args[i]))
              && Within(r.impostor, args[r.index]) && IdHit(Outward(m), r.impostor)
  {
    var moved: seq<Value> := [];
    for i := 0 to |args|
      invariant |moved| == i
      invariant forall j :: 0 <= j < i ==> !AnyId(Outward(m), args[j])
      invariant forall j :: 0 <= j < i ==> moved[j] == Retag(Inward(m), args[j])
    {
      ImpostorsAreFound(m, args[i]);
      var imp := FirstImpostor(m, args[i]);
      if imp.Some? { return Rejected(i, imp.value); }
      var w := RetagStructs(Inward(m), args[i]);
      moved := moved + [w];
    }
    forall i | 0 <= i < |args|
      ensures moved[i] == Rebuild(Inward(m), args[i]) && Unstamped(Retag(Outward(m), moved[i])) == Unstamped(args[i])
    {
      RoundTrip(m, args[i]);
      AcceptedComeBack(m, args[i]);
      ImpostorsAreFound(m, args[i]);
    }
    r := Crossed(moved);
  }
}
