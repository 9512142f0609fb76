/**
 Values crossing a module boundary. Inside a module its own structs and enums are
 bare; outside they carry the module's namespace and path. The copy-on-write
 rewriting agrees with the plain one, and a crossing in and back out restores
 exactly the arguments the impostor check lets through.
 */
module Retagging {
  import opened Options

  /** One side of a boundary: the display namespace and the module path. */
  datatype Side = Side(ns: string, path: string)

  datatype Ident = Ident(side: Side, name: string)

  const Bare := Side("", "")

  datatype Prim = IntP | FloatP | StringP | BoolP | BytesP | NullP

  datatype Handle = Task | Channel

  /** A declared type. A missing inner type is `None`. */
  datatype Type =
    | Primitive(prim: Prim)
    | Named(id: Ident)
    | ListOf(elem: Option<Type>)
    | MapOf(key: Option<Type>, val: Option<Type>)
    | HandleOf(handle: Handle, elem: Option<Type>)
    | FuncType

  datatype Field = Field(name: string, value: Value)
  datatype Entry = Entry(key: Value, value: Value)

  /** `elem`, `key` and `val` are the recorded types of a container, absent from a fresh literal. */
  datatype Value =
    | Scalar(prim: Prim, code: int)
    | Function(method_: string)
    | HandleTo(handle: Handle, cell: nat, elem: Option<Type>)
    | Object(id: Ident, cell: nat)
    | Struct(id: Ident, fields: seq<Field>)
    | Enum(id: Ident, variant: string, fields: seq<Field>)
    | List(elem: Option<Type>, items: seq<Value>)
    | Map(key: Option<Type>, val: Option<Type>, entries: seq<Entry>)

  datatype LoadedModule = LoadedModule(side: Side, structs: set<string>, enums: set<string>)

  /** The names a module declares; `Error` is shared program-wide and never its own. */
  function OwnNames(m: LoadedModule): set<string> { (m.structs + m.enums) - {"Error"} }

  /** One rewriting: identities of `from` with an own name move to `to`. */
  datatype Crossing = Crossing(from: Side, to: Side, own: set<string>)

  function Inward(m: LoadedModule): Crossing { Crossing(m.side, Bare, OwnNames(m)) }
  function Outward(m: LoadedModule): Crossing { Crossing(Bare, m.side, OwnNames(m)) }

  predicate Hit(c: Crossing, id: Ident) { id.side == c.from && id.name in c.own }

  function Move(c: Crossing, id: Ident): Ident { if Hit(c, id) then Ident(c.to, id.name) else id }

  // ----- declared types -----

  /** typeNeedsRetag */
  predicate TypeHit(c: Crossing, t: Option<Type>)
    decreases t
  {
    match t
    case None => false
    case Some(Named(id)) => Hit(c, id)
    case Some(ListOf(e)) => TypeHit(c, e)
    case Some(MapOf(k, v)) => TypeHit(c, k) || TypeHit(c, v)
    case Some(HandleOf(_, e)) => TypeHit(c, e)
    case Some(_) => false
  }

  /** retagType */
  function MoveType(c: Crossing, t: Option<Type>): Option<Type>
    decreases t
  {
    match t
    case None => None
    case Some(Named(id)) => Some(Named(Move(c, id)))
    case Some(ListOf(e)) => Some(ListOf(MoveType(c, e)))
    case Some(MapOf(k, v)) => Some(MapOf(MoveType(c, k), MoveType(c, v)))
    case Some(HandleOf(h, e)) => Some(HandleOf(h, MoveType(c, e)))
    case Some(p) => Some(p)
  }

  predicate IsPrimitive(t: Option<Type>) { t.Some? && t.value.Primitive? }

  // ----- the shape of a value -----

  /** The values directly inside: field values, items, keys then entry values. */
  function Parts(v: Value): (ps: seq<Value>)
    ensures forall i :: 0 <= i < |ps| ==> ps[i] < v
  {
    match v
    case Struct(_, fs) => seq(|fs|, i requires 0 <= i < |fs| => fs[i].value)
    case Enum(_, _, fs) => seq(|fs|, i requires 0 <= i < |fs| => fs[i].value)
    case List(_, s) => s
    case Map(_, _, es) =>
      seq(|es|, i requires 0 <= i < |es| => es[i].key) + seq(|es|, i requires 0 <= i < |es| => es[i].value)
    case _ => []
  }

  /** `v` with other values inside. */
  function Fill(v: Value, ps: seq<Value>): Value
    requires |ps| == |Parts(v)|
  {
    match v
    case Struct(id, fs) => Struct(id, seq(|fs|, i requires 0 <= i < |fs| => Field(fs[i].name, ps[i])))
    case Enum(id, n, fs) => Enum(id, n, seq(|fs|, i requires 0 <= i < |fs| => Field(fs[i].name, ps[i])))
    case List(e, _) => List(e, ps)
    case Map(k, t, es) => Map(k, t, seq(|es|, i requires 0 <= i < |es| => Entry(ps[i], ps[|es| + i])))
    case _ => v
  }

  lemma FillParts(v: Value, ps: seq<Value>)
    requires |ps| == |Parts(v)|
    ensures Parts(Fill(v, ps)) == ps
    ensures Fill(v, Parts(v)) == v
    ensures forall qs | |qs| == |ps| :: Fill(Fill(v, ps), qs) == Fill(v, qs)
  {
    assert Fill(v, Parts(v)) == v;
    forall qs | |qs| == |ps|
      ensures Fill(Fill(v, ps), qs) == Fill(v, qs)
    {
    }
  }

  /** The identity and the recorded types of `v` itself. */
  function MoveHead(c: Crossing, v: Value): (w: Value)
    ensures Parts(w) == Parts(v)
  {
    match v
    case Struct(id, fs) => Struct(Move(c, id), fs)
    case Enum(id, n, fs) => Enum(Move(c, id), n, fs)
    case List(e, s) => List(MoveType(c, e), s)
    case Map(k, t, es) => Map(MoveType(c, k), MoveType(c, t), es)
    case _ => v
  }

  predicate IdHit(c: Crossing, v: Value) { (v.Struct? || v.Enum?) && Hit(c, v.id) }

  predicate StampHit(c: Crossing, v: Value) {
    match v
    case List(e, _) => TypeHit(c, e)
    case Map(k, t, _) => TypeHit(c, k) || TypeHit(c, t)
    case _ => false
  }

  // ----- the plain rewriting, and what it touches -----

  function Rebuild(c: Crossing, v: Value): Value {
    Fill(MoveHead(c, v), seq(|Parts(v)|, i requires 0 <= i < |Parts(v)| => Rebuild(c, Parts(v)[i])))
  }

  /** Some identity at some depth is one the crossing moves. */
  predicate AnyId(c: Crossing, v: Value) {
    IdHit(c, v) || exists i :: 0 <= i < |Parts(v)| && AnyId(c, Parts(v)[i])
  }

  /** Some recorded type at some depth is one the crossing moves. */
  predicate AnyStamp(c: Crossing, v: Value) {
    StampHit(c, v) || exists i :: 0 <= i < |Parts(v)| && AnyStamp(c, Parts(v)[i])
  }

  predicate Touches(c: Crossing, v: Value) { AnyId(c, v) || AnyStamp(c, v) }

  // ----- the copy-on-write rewriting -----

  /** The precheck does not walk a container recorded with primitive types. */
  predicate Skipped(v: Value) {
    match v
    case List(e, _) => IsPrimitive(e)
    case Map(k, t, _) => IsPrimitive(k) && IsPrimitive(t)
    case _ => false
  }

  /** subtreeNeedsRetag */
  predicate Needs(c: Crossing, v: Value) {
    || IdHit(c, v) || StampHit(c, v)
    || (!Skipped(v) && exists i :: 0 <= i < |Parts(v)| && Needs(c, Parts(v)[i]))
  }

  /** retagStructs */
  function Retag(c: Crossing, v: Value): Value {
    if !Needs(c, v) then v
    else Fill(MoveHead(c, v), seq(|Parts(v)|, i requires 0 <= i < |Parts(v)| => Retag(c, Parts(v)[i])))
  }

  /** A skipped container holds nothing the crossing would move. */
  predicate Honest(c: Crossing, v: Value) {
    && (Skipped(v) ==> forall i :: 0 <= i < |Parts(v)| ==> !Touches(c, Parts(v)[i]))
    && forall i :: 0 <= i < |Parts(v)| ==> Honest(c, Parts(v)[i])
  }

  predicate Fits(t: Option<Type>, v: Value) { IsPrimitive(t) ==> v.Scalar? && v.prim == t.value.prim }

  /** What checked writes guarantee: a container recorded with a primitive type holds only such scalars. */
  predicate WellTyped(v: Value) {
    InsideFits(v) && forall i :: 0 <= i < |Parts(v)| ==> WellTyped(Parts(v)[i])
  }

  predicate InsideFits(v: Value) {
    match v
    case List(e, s) => forall i :: 0 <= i < |s| ==> Fits(e, s[i])
    case Map(k, t, es) => forall i :: 0 <= i < |es| ==> Fits(k, es[i].key) && Fits(t, es[i].value)
    case _ => true
  }

  // ----- copy on write is the plain rewriting -----

  lemma {:induction false} TypeMoves(c: Crossing, t: Option<Type>)
    requires c.from != c.to
    ensures MoveType(c, t) == t <==> !TypeHit(c, t)
    decreases t
  {
    match t
    case Some(ListOf(e)) => TypeMoves(c, e);
    case Some(MapOf(k, v)) => TypeMoves(c, k); TypeMoves(c, v);
    case Some(HandleOf(_, e)) => TypeMoves(c, e);
    case _ =>
  }

  lemma HeadMoves(c: Crossing, v: Value)
    requires c.from != c.to
    ensures MoveHead(c, v) == v <==> !IdHit(c, v) && !StampHit(c, v)
  {
    match v
    case List(e, _) => TypeMoves(c, e);
    case Map(k, t, _) => TypeMoves(c, k); TypeMoves(c, t);
    case _ =>
  }

  /** Two fillings of one moved head agree exactly when the values inside do. */
  lemma FillEqual(c: Crossing, v: Value, ps: seq<Value>, qs: seq<Value>)
    requires |ps| == |qs| == |Parts(v)|
    ensures Fill(MoveHead(c, v), ps) == Fill(MoveHead(c, v), qs) <==> ps == qs
  {
    FillParts(MoveHead(c, v), ps);
    FillParts(MoveHead(c, v), qs);
  }

  /** A filled head is `v` itself exactly when the head and the values inside are. */
  lemma FillWhole(h: Value, v: Value, ps: seq<Value>)
    requires Parts(h) == Parts(v) && |ps| == |Parts(v)|
    ensures Fill(h, ps) == v <==> h == v && ps == Parts(v)
  {
    hide Fill, Parts;
    FillParts(h, ps);
    FillParts(h, Parts(v));
    FillParts(v, ps);
  }

  lemma {:induction false} RebuildMoves(c: Crossing, v: Value)
    requires c.from != c.to
    ensures Rebuild(c, v) == v <==> !Touches(c, v)
  {
    HeadMoves(c, v);
    var ps := seq(|Parts(v)|, i requires 0 <= i < |Parts(v)| => Rebuild(c, Parts(v)[i]));
    FillWhole(MoveHead(c, v), v, ps);
    forall i | 0 <= i < |Parts(v)|
      ensures ps[i] == Parts(v)[i] <==> !Touches(c, Parts(v)[i])
    {
      RebuildMoves(c, Parts(v)[i]);
    }
  }

  lemma {:induction false} NeedsTouches(c: Crossing, v: Value)
    ensures Needs(c, v) ==> Touches(c, v)
    ensures Honest(c, v) && Touches(c, v) ==> Needs(c, v)
    ensures !Honest(c, v) ==> Touches(c, v)
  {
    forall i | 0 <= i < |Parts(v)|
      ensures Needs(c, Parts(v)[i]) ==> Touches(c, Parts(v)[i])
      ensures Honest(c, Parts(v)[i]) && Touches(c, Parts(v)[i]) ==> Needs(c, Parts(v)[i])
      ensures !Honest(c, Parts(v)[i]) ==> Touches(c, Parts(v)[i])
    {
      NeedsTouches(c, Parts(v)[i]);
    }
  }

  /** The precheck may skip a subtree exactly when no skipped container hides an identity to move. */
  lemma {:induction false} RetagIsRebuild(c: Crossing, v: Value)
    requires c.from != c.to
    ensures Retag(c, v) == Rebuild(c, v) <==> Honest(c, v)
  {
    NeedsTouches(c, v);
    RebuildMoves(c, v);
    if Needs(c, v) {
      var ps := seq(|Parts(v)|, i requires 0 <= i < |Parts(v)| => Retag(c, Parts(v)[i]));
      var qs := seq(|Parts(v)|, i requires 0 <= i < |Parts(v)| => Rebuild(c, Parts(v)[i]));
      FillEqual(c, v, ps, qs);
      forall i | 0 <= i < |Parts(v)|
        ensures ps[i] == qs[i] <==> Honest(c, Parts(v)[i])
      {
        RetagIsRebuild(c, Parts(v)[i]);
      }
      if Skipped(v) { SkippedStays(c, v); }
    }
  }

  /** A container recorded with primitive types has no recorded type to move. */
  lemma SkippedStays(c: Crossing, v: Value)
    requires Skipped(v)
    ensures !Needs(c, v)
  {
  }

  lemma {:induction false} WellTypedIsHonest(c: Crossing, v: Value)
    requires WellTyped(v)
    ensures Honest(c, v)
  {
    forall i | 0 <= i < |Parts(v)|
      ensures Honest(c, Parts(v)[i])
      ensures Skipped(v) ==> !Touches(c, Parts(v)[i])
    {
      WellTypedIsHonest(c, Parts(v)[i]);
      if Skipped(v) { SkippedHoldsScalars(v, i); }
    }
  }

  lemma SkippedHoldsScalars(v: Value, i: nat)
    requires WellTyped(v) && Skipped(v) && i < |Parts(v)|
    ensures Parts(v)[i].Scalar?
  {
    if v.Map? {
      var n := |v.entries|;
      assert Parts(v)[i] == if i < n then v.entries[i].key else v.entries[i - n].value;
    }
  }

  lemma {:induction false} RebuildWellTyped(c: Crossing, v: Value)
    requires WellTyped(v)
    ensures WellTyped(Rebuild(c, v))
  {
    var ps := seq(|Parts(v)|, i requires 0 <= i < |Parts(v)| => Rebuild(c, Parts(v)[i]));
    FillParts(MoveHead(c, v), ps);
    forall i | 0 <= i < |ps|
      ensures WellTyped(ps[i])
    {
      RebuildWellTyped(c, Parts(v)[i]);
    }
    RebuildFits(c, v, ps);
  }

  lemma FitsMoves(c: Crossing, t: Option<Type>, v: Value)
    requires Fits(t, v)
    ensures Fits(MoveType(c, t), Rebuild(c, v))
  {
  }

  lemma RebuildFits(c: Crossing, v: Value, ps: seq<Value>)
    requires InsideFits(v) && |ps| == |Parts(v)| && forall i :: 0 <= i < |ps| ==> ps[i] == Rebuild(c, Parts(v)[i])
    ensures InsideFits(Fill(MoveHead(c, v), ps))
  {
    hide Rebuild, MoveType, Fits;
    match v
    case List(e, s) =>
      forall i | 0 <= i < |s|
        ensures Fits(MoveType(c, e), ps[i])
      {
        FitsMoves(c, e, s[i]);
      }
    case Map(k, t, es) =>
      var n, w := |es|, Fill(MoveHead(c, v), ps);
      forall i | 0 <= i < n
        ensures Fits(w.key, w.entries[i].key) && Fits(w.val, w.entries[i].value)
      {
        assert Parts(v)[i] == es[i].key && Parts(v)[n + i] == es[i].value;
        FitsMoves(c, k, es[i].key);
        FitsMoves(c, t, es[i].value);
      }
    case _ =>
  }
}
