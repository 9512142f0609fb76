/**
 The declared-type check on both sides of a module boundary: a moved-in argument
 meets the module's own (bare) parameter type exactly when the caller's value meets
 that type spelled with the module's identity.
 */
module ParameterCheck {
  import opened Options
  import opened Retagging
  import opened ModuleBoundary

  /** MatchesDeclared. A missing inner type accepts anything. */
  predicate Matches(v: Value, t: Option<Type>)
    decreases v
  {
    match t
    case None => true
    case Some(Primitive(p)) => v.Scalar? && v.prim == p
    case Some(Named(id)) => (v.Struct? || v.Object? || v.Enum?) && v.id == id
    case Some(ListOf(e)) =>
      && v.List?
      && if v.elem.Some? then Agrees(e, v.elem) else forall i :: 0 <= i < |v.items| ==> Matches(v.items[i], e)
    case Some(MapOf(k, w)) =>
      && v.Map?
      && if v.key.Some? && v.val.Some? then Agrees(k, v.key) && Agrees(w, v.val)
         else forall i :: 0 <= i < |v.entries| ==> Matches(KeyAt(v, i), k) && Matches(ValueAt(v, i), w)
    case Some(HandleOf(h, e)) => v.HandleTo? && v.handle == h && (v.elem.None? || Agrees(e, v.elem))
    case Some(FuncType) => v.Function?
  }

  predicate Agrees(declared: Option<Type>, recorded: Option<Type>) { declared.None? || declared == recorded }

  function KeyAt(v: Value, i: nat): (k: Value)
    requires v.Map? && i < |v.entries|
    ensures k == Parts(v)[i] && k < v
  {
    assert Parts(v)[i] == v.entries[i].key;
    v.entries[i].key
  }

  function ValueAt(v: Value, i: nat): (w: Value)
    requires v.Map? && i < |v.entries|
    ensures w == Parts(v)[|v.entries| + i] && w < v
  {
    assert Parts(v)[|v.entries| + i] == v.entries[i].value;
    v.entries[i].value
  }

  /** No task, channel or native object inside carries the module's identity: these are not rewritten. */
  predicate Portable(m: LoadedModule, v: Value) {
    && (v.Object? ==> !Hit(Inward(m), v.id) && !Hit(Outward(m), v.id))
    && (v.HandleTo? ==> !TypeHit(Inward(m), v.elem) && !TypeHit(Outward(m), v.elem))
    && forall i :: 0 <= i < |Parts(v)| ==> Portable(m, Parts(v)[i])
  }

  /** A caller-side type, moved inward, against a module-side type, moved outward. */
  lemma AgreesAcross(m: LoadedModule, t: Option<Type>, u: Option<Type>)
    requires m.side != Bare && !TypeHit(Inward(m), t) && !TypeHit(Outward(m), u)
    ensures MoveType(Inward(m), u) == t <==> u == MoveType(Outward(m), t)
  {
    TypeRoundTrip(m, t);
    TypeRoundTrip(m, u);
  }

  /** An unmoved type is the same on both sides. */
  lemma AgreesUnmoved(m: LoadedModule, t: Option<Type>, u: Option<Type>)
    requires m.side != Bare && !TypeHit(Inward(m), t) && !TypeHit(Outward(m), u) && !TypeHit(Inward(m), u)
    ensures u == t <==> u == MoveType(Outward(m), t)
  {
    AgreesAcross(m, t, u);
    TypeMoves(Inward(m), u);
  }

  lemma PartAt(c: Crossing, v: Value, i: nat)
    requires i < |Parts(v)|
    ensures |Parts(Rebuild(c, v))| == |Parts(v)| && Parts(Rebuild(c, v))[i] == Rebuild(c, Parts(v)[i])
  {
    FillParts(MoveHead(c, v), seq(|Parts(v)|, j requires 0 <= j < |Parts(v)| => Rebuild(c, Parts(v)[j])));
  }

  predicate Clear(m: LoadedModule, v: Value, t: Option<Type>) {
    Portable(m, v) && !Touches(Outward(m), v) && !TypeHit(Inward(m), t)
  }

  lemma {:induction false} MatchesAcross(m: LoadedModule, v: Value, t: Option<Type>)
    requires m.side != Bare && Clear(m, v, t)
    ensures Matches(Rebuild(Inward(m), v), t) <==> Matches(v, MoveType(Outward(m), t))
    decreases v
  {
    match t
    case Some(Named(id)) => IdAcross(m, v, id);
    case Some(ListOf(e)) => if v.List? { ListAcross(m, v, e); }
    case Some(MapOf(k, w)) => if v.Map? { MapAcross(m, v, k, w); }
    case Some(HandleOf(_, e)) => if v.HandleTo? { AgreesUnmoved(m, e, v.elem); TypeRoundTrip(m, e); }
    case _ =>
  }

  lemma IdAcross(m: LoadedModule, v: Value, id: Ident)
    requires m.side != Bare && Clear(m, v, Some(Named(id)))
    ensures Matches(Rebuild(Inward(m), v), Some(Named(id))) <==> Matches(v, MoveType(Outward(m), Some(Named(id))))
  {
  }

  lemma {:induction false} ListAcross(m: LoadedModule, v: Value, e: Option<Type>)
    requires v.List? && m.side != Bare && Clear(m, v, e)
    ensures Matches(Rebuild(Inward(m), v), Some(ListOf(e))) <==> Matches(v, Some(ListOf(MoveType(Outward(m), e))))
    decreases v, 0
  {
    if v.elem.Some? {
      AgreesAcross(m, e, v.elem);
    } else {
      var w := Rebuild(Inward(m), v);
      forall i | 0 <= i < |v.items|
        ensures |w.items| == |v.items|
        ensures Matches(w.items[i], e) <==> Matches(v.items[i], MoveType(Outward(m), e))
      {
        PartAt(Inward(m), v, i);
        assert Parts(v)[i] == v.items[i];
        MatchesAcross(m, v.items[i], e);
      }
    }
  }

  lemma {:induction false} MapAcross(m: LoadedModule, v: Value, k: Option<Type>, t: Option<Type>)
    requires v.Map? && m.side != Bare && Clear(m, v, k) && Clear(m, v, t)
    ensures Matches(Rebuild(Inward(m), v), Some(MapOf(k, t))) <==>
            Matches(v, Some(MapOf(MoveType(Outward(m), k), MoveType(Outward(m), t))))
    decreases v, 1
  {
    if v.key.Some? && v.val.Some? {
      AgreesAcross(m, k, v.key);
      AgreesAcross(m, t, v.val);
    } else {
      UntypedMapAcross(m, v, k, t);
    }
  }

  lemma {:induction false} UntypedMapAcross(m: LoadedModule, v: Value, k: Option<Type>, t: Option<Type>)
    requires v.Map? && (v.key.None? || v.val.None?) && m.side != Bare && Clear(m, v, k) && Clear(m, v, t)
    ensures Matches(Rebuild(Inward(m), v), Some(MapOf(k, t))) <==>
            Matches(v, Some(MapOf(MoveType(Outward(m), k), MoveType(Outward(m), t))))
    decreases v, 0
  {
    hide Rebuild, Portable, Touches, TypeHit, MoveType, Clear;
    var w := Rebuild(Inward(m), v);
    MapShape(Inward(m), v);
    forall i | 0 <= i < |v.entries|
      ensures Matches(KeyAt(w, i), k) <==> Matches(KeyAt(v, i), MoveType(Outward(m), k))
      ensures Matches(ValueAt(w, i), t) <==> Matches(ValueAt(v, i), MoveType(Outward(m), t))
    {
      EntryAcross(m, v, w, i);
      ClearPart(m, v, k, i);
      ClearPart(m, v, t, |v.entries| + i);
      MatchesAcross(m, KeyAt(v, i), k);
      MatchesAcross(m, ValueAt(v, i), t);
    }
  }

  lemma MapShape(c: Crossing, v: Value)
    requires v.Map?
    ensures Rebuild(c, v).Map? && |Rebuild(c, v).entries| == |v.entries|
    ensures Rebuild(c, v).key == MoveType(c, v.key) && Rebuild(c, v).val == MoveType(c, v.val)
    ensures Rebuild(c, v).key.Some? == v.key.Some? && Rebuild(c, v).val.Some? == v.val.Some?
  {
  }

  lemma EntryAcross(m: LoadedModule, v: Value, w: Value, i: nat)
    requires v.Map? && w == Rebuild(Inward(m), v) && i < |v.entries|
    ensures w.Map? && |w.entries| == |v.entries|
    ensures KeyAt(w, i) == Rebuild(Inward(m), KeyAt(v, i)) && ValueAt(w, i) == Rebuild(Inward(m), ValueAt(v, i))
  {
    hide Rebuild;
    MapShape(Inward(m), v);
    PartAt(Inward(m), v, i);
    PartAt(Inward(m), v, |v.entries| + i);
  }

  lemma ClearPart(m: LoadedModule, v: Value, t: Option<Type>, i: nat)
    requires Clear(m, v, t) && i < |Parts(v)|
    ensures Clear(m, Parts(v)[i], t)
  {
  }

  /** The check the interpreter makes on an argument it accepted. */
  lemma ParameterCheckAgrees(m: LoadedModule, v: Value, t: Type)
    requires m.side != Bare && WellTyped(v) && FirstImpostor(m, v).None? && !AnyStamp(Outward(m), v)
    requires Portable(m, v) && !TypeHit(Inward(m), Some(t))
    ensures Matches(Retag(Inward(m), v), Some(t)) <==> Matches(v, MoveType(Outward(m), Some(t)))
  {
    ImpostorsAreFound(m, v);
    RoundTrip(m, v);
    MatchesAcross(m, v, Some(t));
  }

  // ----- exactly which parameter types are checked alike -----

  /** No native object inside carries one of the module's identities. */
  predicate ForeignObjects(m: LoadedModule, v: Value) {
    && (v.Object? ==> !Hit(Inward(m), v.id) && !Hit(Outward(m), v.id))
    && forall i :: 0 <= i < |Parts(v)| ==> ForeignObjects(m, Parts(v)[i])
  }

  /** The values the argument loop lets through. */
  predicate Arrives(m: LoadedModule, v: Value) {
    WellTyped(v) && ForeignObjects(m, v) && FirstImpostor(m, v).None?
  }

  ghost predicate ChecksAgree(m: LoadedModule, v: Value, t: Type) {
    Matches(Retag(Inward(m), v), Some(t)) <==> Matches(v, MoveType(Outward(m), Some(t)))
  }

  /** A type of the module's own inside a list, map, task or channel. */
  predicate OwnInside(m: LoadedModule, t: Type) { !t.Named? && TypeHit(Outward(m), Some(t)) }

  /** Moving a type in makes or unmakes no equality with a type free of own names. */
  lemma ForeignAgrees(m: LoadedModule, t: Option<Type>, u: Option<Type>)
    requires m.side != Bare && !TypeHit(Inward(m), t) && !TypeHit(Outward(m), t)
    ensures MoveType(Inward(m), u) == t <==> u == t
  {
    TypeMoves(Inward(m), u);
    MovedIsBare(m, u);
  }

  lemma {:induction false} MovedIsBare(m: LoadedModule, u: Option<Type>)
    ensures TypeHit(Inward(m), u) ==> TypeHit(Outward(m), MoveType(Inward(m), u))
    decreases u
  {
    match u
    case Some(ListOf(e)) => MovedIsBare(m, e);
    case Some(MapOf(k, v)) => MovedIsBare(m, k); MovedIsBare(m, v);
    case Some(HandleOf(_, e)) => MovedIsBare(m, e);
    case _ =>
  }

  /** A type that names nothing of the module's is met or not met on both sides. */
  lemma {:induction false} ForeignMatches(m: LoadedModule, v: Value, t: Option<Type>)
    requires m.side != Bare && !TypeHit(Inward(m), t) && !TypeHit(Outward(m), t)
    ensures Matches(Rebuild(Inward(m), v), t) <==> Matches(v, t)
    decreases v
  {
    match t
    case Some(ListOf(e)) => if v.List? { ForeignList(m, v, e); }
    case Some(MapOf(k, w)) => if v.Map? { ForeignMap(m, v, k, w); }
    case _ =>
  }

  lemma {:induction false} ForeignList(m: LoadedModule, v: Value, e: Option<Type>)
    requires v.List? && m.side != Bare && !TypeHit(Inward(m), e) && !TypeHit(Outward(m), e)
    ensures Matches(Rebuild(Inward(m), v), Some(ListOf(e))) <==> Matches(v, Some(ListOf(e)))
    decreases v, 0
  {
    var w := Rebuild(Inward(m), v);
    ForeignAgrees(m, e, v.elem);
    forall i | 0 <= i < |v.items|
      ensures |w.items| == |v.items| && (Matches(w.items[i], e) <==> Matches(v.items[i], e))
    {
      PartAt(Inward(m), v, i);
      assert Parts(v)[i] == v.items[i];
      ForeignMatches(m, v.items[i], e);
    }
  }

  lemma {:induction false} ForeignMap(m: LoadedModule, v: Value, k: Option<Type>, t: Option<Type>)
    requires v.Map? && m.side != Bare
    requires !TypeHit(Inward(m), k) && !TypeHit(Outward(m), k) && !TypeHit(Inward(m), t) && !TypeHit(Outward(m), t)
    ensures Matches(Rebuild(Inward(m), v), Some(MapOf(k, t))) <==> Matches(v, Some(MapOf(k, t)))
    decreases v, 0
  {
    hide Rebuild, TypeHit;
    var w := Rebuild(Inward(m), v);
    MapShape(Inward(m), v);
    ForeignAgrees(m, k, v.key);
    ForeignAgrees(m, t, v.val);
    forall i | 0 <= i < |v.entries|
      ensures Matches(KeyAt(w, i), k) <==> Matches(KeyAt(v, i), k)
      ensures Matches(ValueAt(w, i), t) <==> Matches(ValueAt(v, i), t)
    {
      EntryAcross(m, v, w, i);
      ForeignMatches(m, KeyAt(v, i), k);
      ForeignMatches(m, ValueAt(v, i), t);
    }
  }

  lemma AgreeWithout(m: LoadedModule, v: Value, t: Type)
    requires m.side != Bare && !TypeHit(Inward(m), Some(t)) && !OwnInside(m, t) && Arrives(m, v)
    ensures ChecksAgree(m, v, t)
  {
    RoundTrip(m, v);
    ImpostorsAreFound(m, v);
    if !t.Named? || !TypeHit(Outward(m), Some(t)) {
      TypeMoves(Outward(m), Some(t));
      ForeignMatches(m, v, Some(t));
    }
  }

  /** A value that meets the type on one side of the boundary only. */
  function Torn(t: Type): Value {
    match t
    case ListOf(e) => List(e, [])
    case MapOf(k, w) => Map(if k.Some? then k else Some(FuncType), if w.Some? then w else Some(FuncType), [])
    case HandleOf(h, e) => HandleTo(h, 0, e)
    case _ => Function("")
  }

  lemma DisagreeWith(m: LoadedModule, t: Type)
    requires m.side != Bare && !TypeHit(Inward(m), Some(t)) && OwnInside(m, t)
    ensures Arrives(m, Torn(t)) && !ChecksAgree(m, Torn(t), t)
  {
    var v := Torn(t);
    assert Parts(v) == [];
    assert FirstImpostor(m, v).None?;
    assert Retag(Inward(m), v) == v;
    TypeMoves(Outward(m), Some(t));
    match t
    case ListOf(e) => TypeMoves(Outward(m), e);
    case MapOf(k, w) => TypeMoves(Outward(m), k); TypeMoves(Outward(m), w);
    case HandleOf(_, e) => TypeMoves(Outward(m), e);
    case _ =>
  }

  /**
   Main result: a module's parameter type is checked alike on both sides, for every argument
   that arrives, exactly when no type of its own stands inside a list, map, task or channel.
   */
  lemma ParameterCheckIsExact(m: LoadedModule, t: Type)
    requires m.side != Bare && !TypeHit(Inward(m), Some(t))
    ensures (forall v :: Arrives(m, v) ==> ChecksAgree(m, v, t)) <==> !OwnInside(m, t)
  {
    hide Arrives, ChecksAgree, OwnInside;
    if OwnInside(m, t) {
      DisagreeWith(m, t);
    } else {
      forall v | Arrives(m, v) ensures ChecksAgree(m, v, t) { AgreeWithout(m, v, t); }
    }
  }

  /** A task keeps its recorded type, so a module rejects a `task of` its own struct handed in by its proper name. */
  lemma TaskKeepsItsType(m: LoadedModule, name: string, cell: nat)
    requires m.side != Bare && name in OwnNames(m)
    ensures var v := HandleTo(Task, cell, Some(Named(Ident(m.side, name))));
            var t := Some(HandleOf(Task, Some(Named(Ident(Bare, name)))));
            && FirstImpostor(m, v).None?
            && Matches(v, MoveType(Outward(m), t))
            && !Matches(Retag(Inward(m), v), t)
  {
    var v := HandleTo(Task, cell, Some(Named(Ident(m.side, name))));
    assert Parts(v) == [];
    assert FirstInParts(m, v, 0).None?;
  }
}
