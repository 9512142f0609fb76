/**
 Values as the interpreter stores them: a header that may point at a shared
 backing. A cell's tag names the binding its backing was allocated for; tags only
 instrument the heap, no operation reads them.
 */
module AliasHeap {
  import opened Options
  import opened Syntax
  import opened ValueSemantics

  datatype Ref = Imm(s: Scalar) | Ptr(a: nat)

  datatype Tag = GlobalOf(world: nat, x: Name) | ConstOf(x: Name) | LocalOf(frame: nat, x: Name) | Unbound

  datatype Cell = Cell(tag: Tag, elems: seq<Ref>)

  /** `ids` is the next unused frame or world number. */
  datatype Heap = Heap(cells: seq<Cell>, ids: nat)

  predicate KnownTag(tag: Tag, ids: nat) {
    match tag
    case GlobalOf(w, _) => w < ids
    case LocalOf(f, _) => f < ids
    case ConstOf(_) => true
    case Unbound => true
  }

  ghost predicate Wf(h: Heap) {
    forall a :: 0 <= a < |h.cells| ==> KnownTag(h.cells[a].tag, h.ids)
  }

  /** The header v denotes the tree t. */
  ghost predicate Rep(h: Heap, v: Ref, t: Tree)
    decreases t
  {
    match t
    case Atom(s) => v == Imm(s)
    case Lst(ts) =>
      && v.Ptr? && v.a < |h.cells| && |h.cells[v.a].elems| == |ts|
      && forall i :: 0 <= i < |ts| ==> Rep(h, h.cells[v.a].elems[i], ts[i])
  }

  /** Cell a is part of the backing of v. */
  ghost predicate Touches(h: Heap, v: Ref, t: Tree, a: nat)
    decreases t
  {
    match t
    case Atom(_) => false
    case Lst(ts) =>
      && v.Ptr? && v.a < |h.cells| && |h.cells[v.a].elems| == |ts|
      && (v.a == a || exists i :: 0 <= i < |ts| && Touches(h, h.cells[v.a].elems[i], ts[i], a))
  }

  /** v denotes t, and its backing is a tree of cells that all belong to `tag`. */
  ghost predicate Owned(h: Heap, v: Ref, t: Tree, tag: Tag)
    decreases t
  {
    match t
    case Atom(s) => v == Imm(s)
    case Lst(ts) =>
      && v.Ptr? && v.a < |h.cells| && |h.cells[v.a].elems| == |ts| && h.cells[v.a].tag == tag
      && (forall i :: 0 <= i < |ts| ==> Owned(h, h.cells[v.a].elems[i], ts[i], tag))
      && (forall i :: 0 <= i < |ts| ==> !Touches(h, h.cells[v.a].elems[i], ts[i], v.a))
      && Apart(h, h.cells[v.a].elems, ts)
  }

  /** No two elements share a cell. */
  ghost predicate Apart(h: Heap, vs: seq<Ref>, ts: seq<Tree>)
    requires |vs| == |ts|
    decreases ts, 0
  {
    forall i, j, a: nat :: 0 <= i < j < |ts| && Touches(h, vs[i], ts[i], a) ==> !Touches(h, vs[j], ts[j], a)
  }

  ghost predicate Kept(h: Heap, h': Heap, v: Ref, t: Tree) {
    && |h.cells| <= |h'.cells|
    && forall a: nat :: Touches(h, v, t, a) ==> a < |h.cells| && h'.cells[a] == h.cells[a]
  }

  lemma {:induction false} TouchesBounded(h: Heap, v: Ref, t: Tree, a: nat)
    requires Touches(h, v, t, a)
    ensures a < |h.cells|
    decreases t
  {
    if v.a != a {
      var i :| 0 <= i < |t.elems| && Touches(h, h.cells[v.a].elems[i], t.elems[i], a);
      TouchesBounded(h, h.cells[v.a].elems[i], t.elems[i], a);
    }
  }

  lemma {:induction false} OwnedIsRep(h: Heap, v: Ref, t: Tree, tag: Tag)
    requires Owned(h, v, t, tag)
    ensures Rep(h, v, t)
    ensures forall a: nat :: Touches(h, v, t, a) ==> a < |h.cells| && h.cells[a].tag == tag
    decreases t
  {
    if t.Lst? {
      forall i | 0 <= i < |t.elems|
        ensures Rep(h, h.cells[v.a].elems[i], t.elems[i])
        ensures forall a: nat :: Touches(h, h.cells[v.a].elems[i], t.elems[i], a) ==> a < |h.cells| && h.cells[a].tag == tag
      {
        OwnedIsRep(h, h.cells[v.a].elems[i], t.elems[i], tag);
      }
    }
  }

  /** A header denotes at most one tree. */
  lemma {:induction false} RepUnique(h: Heap, v: Ref, t: Tree, t': Tree)
    requires Rep(h, v, t) && Rep(h, v, t')
    ensures t == t'
    decreases t
  {
    if t.Lst? {
      forall i | 0 <= i < |t.elems| ensures t.elems[i] == t'.elems[i] {
        RepUnique(h, h.cells[v.a].elems[i], t.elems[i], t'.elems[i]);
      }
      assert t.elems == t'.elems;
    }
  }

  lemma {:induction false} KeptChildren(h: Heap, h': Heap, v: Ref, t: Tree, i: nat)
    requires Rep(h, v, t) && Kept(h, h', v, t) && t.Lst? && i < |t.elems|
    ensures Kept(h, h', h.cells[v.a].elems[i], t.elems[i])
  {
    forall a: nat | Touches(h, h.cells[v.a].elems[i], t.elems[i], a)
      ensures Touches(h, v, t, a)
    {
    }
  }

  /** A value none of whose cells changed still denotes the same tree over the same cells. */
  lemma {:induction false} KeptRep(h: Heap, h': Heap, v: Ref, t: Tree)
    requires Rep(h, v, t) && Kept(h, h', v, t)
    ensures Rep(h', v, t)
    ensures forall a: nat :: Touches(h', v, t, a) <==> Touches(h, v, t, a)
    decreases t
  {
    if t.Lst? {
      assert Touches(h, v, t, v.a);
      forall i | 0 <= i < |t.elems|
        ensures Rep(h', h.cells[v.a].elems[i], t.elems[i])
        ensures forall a: nat :: Touches(h', h.cells[v.a].elems[i], t.elems[i], a) <==> Touches(h, h.cells[v.a].elems[i], t.elems[i], a)
      {
        KeptChildren(h, h', v, t, i);
        KeptRep(h, h', h.cells[v.a].elems[i], t.elems[i]);
      }
    }
  }

  lemma {:induction false} KeptOwned(h: Heap, h': Heap, v: Ref, t: Tree, tag: Tag)
    requires Owned(h, v, t, tag) && Kept(h, h', v, t)
    ensures Owned(h', v, t, tag)
    decreases t
  {
    OwnedIsRep(h, v, t, tag);
    KeptRep(h, h', v, t);
    if t.Lst? {
      assert Touches(h, v, t, v.a);
      forall i | 0 <= i < |t.elems|
        ensures Owned(h', h.cells[v.a].elems[i], t.elems[i], tag)
        ensures forall a: nat :: Touches(h', h.cells[v.a].elems[i], t.elems[i], a) <==> Touches(h, h.cells[v.a].elems[i], t.elems[i], a)
      {
        KeptChildren(h, h', v, t, i);
        OwnedIsRep(h, h.cells[v.a].elems[i], t.elems[i], tag);
        KeptRep(h, h', h.cells[v.a].elems[i], t.elems[i]);
        KeptOwned(h, h', h.cells[v.a].elems[i], t.elems[i], tag);
      }
    }
  }

  // ----- copying -----

  ghost predicate Extends(h: Heap, h': Heap) {
    h.cells <= h'.cells && h.ids == h'.ids
  }

  lemma ExtendsKeeps(h: Heap, h': Heap, v: Ref, t: Tree)
    requires Extends(h, h') && Rep(h, v, t)
    ensures Kept(h, h', v, t) && Rep(h', v, t)
    ensures forall a: nat :: Touches(h', v, t, a) <==> Touches(h, v, t, a)
    ensures forall a: nat :: Touches(h, v, t, a) ==> a < |h.cells| && h'.cells[a] == h.cells[a]
  {
    forall a: nat | Touches(h, v, t, a) ensures a < |h.cells| && h'.cells[a] == h.cells[a] {
      TouchesBounded(h, v, t, a);
    }
    KeptRep(h, h', v, t);
  }

  /** The tree a header denotes. */
  ghost function TreeOf(h: Heap, v: Ref): Tree {
    if exists t :: Rep(h, v, t) then var t :| Rep(h, v, t); t else Atom(Null)
  }

  lemma TreeOfRep(h: Heap, v: Ref, t: Tree)
    requires Rep(h, v, t)
    ensures TreeOf(h, v) == t
  {
    RepUnique(h, v, TreeOf(h, v), t);
  }

  datatype Built<+V> = Built(heap: Heap, v: V)

  /** Allocate a backing for t, every cell of it for `tag`. */
  ghost function Build(h: Heap, t: Tree, tag: Tag): Built<Ref>
    decreases t, 0
  {
    match t
    case Atom(s) => Built(h, Imm(s))
    case Lst(ts) =>
      var b := BuildAll(h, ts, tag);
      Built(Heap(b.heap.cells + [Cell(tag, b.v)], b.heap.ids), Ptr(|b.heap.cells|))
  }

  ghost function BuildAll(h: Heap, ts: seq<Tree>, tag: Tag): Built<seq<Ref>>
    decreases ts, 1
  {
    if ts == [] then Built(h, [])
    else
      var b := Build(h, ts[0], tag);
      var rest := BuildAll(b.heap, ts[1..], tag);
      Built(rest.heap, [b.v] + rest.v)
  }

  /** Value.Copy: a fresh backing for whatever the header denotes now. */
  ghost function CopyTo(h: Heap, v: Ref, tag: Tag): Built<Ref> {
    Build(h, TreeOf(h, v), tag)
  }

  /** Every cell of v was allocated at or after address n. */
  ghost predicate Above(h: Heap, v: Ref, t: Tree, n: nat) {
    forall a: nat :: Touches(h, v, t, a) ==> n <= a
  }

  lemma OwnedExtends(h: Heap, h': Heap, v: Ref, t: Tree, tag: Tag, n: nat)
    requires Extends(h, h') && Owned(h, v, t, tag) && Above(h, v, t, n)
    ensures Owned(h', v, t, tag) && Above(h', v, t, n)
    ensures forall a: nat :: Touches(h', v, t, a) ==> a < |h.cells|
  {
    OwnedIsRep(h, v, t, tag);
    ExtendsKeeps(h, h', v, t);
    KeptOwned(h, h', v, t, tag);
  }

  /** Every cell past the old end carries this tag. */
  ghost predicate NewTags(h: Heap, h': Heap, tag: Tag) {
    forall a: nat :: |h.cells| <= a < |h'.cells| ==> h'.cells[a].tag == tag
  }

  lemma {:induction false} BuildOwned(h: Heap, t: Tree, tag: Tag)
    ensures var b := Build(h, t, tag);
            Extends(h, b.heap) && Owned(b.heap, b.v, t, tag) && Above(b.heap, b.v, t, |h.cells|) && NewTags(h, b.heap, tag)
    decreases t, 0
  {
    if t.Lst? {
      BuildAllOwned(h, t.elems, tag);
      var b := BuildAll(h, t.elems, tag);
      var h' := Build(h, t, tag).heap;
      forall i | 0 <= i < |t.elems|
        ensures Owned(h', b.v[i], t.elems[i], tag) && Above(h', b.v[i], t.elems[i], |h.cells|)
        ensures forall a: nat :: Touches(h', b.v[i], t.elems[i], a) <==> Touches(b.heap, b.v[i], t.elems[i], a)
        ensures forall a: nat :: Touches(h', b.v[i], t.elems[i], a) ==> a < |b.heap.cells|
      {
        OwnedExtends(b.heap, h', b.v[i], t.elems[i], tag, |h.cells|);
        OwnedIsRep(b.heap, b.v[i], t.elems[i], tag);
        ExtendsKeeps(b.heap, h', b.v[i], t.elems[i]);
      }
    }
  }

  lemma {:induction false} BuildAllOwned(h: Heap, ts: seq<Tree>, tag: Tag)
    ensures var b := BuildAll(h, ts, tag);
            && Extends(h, b.heap) && |b.v| == |ts| && Apart(b.heap, b.v, ts) && NewTags(h, b.heap, tag)
            && forall i :: 0 <= i < |ts| ==> Owned(b.heap, b.v[i], ts[i], tag) && Above(b.heap, b.v[i], ts[i], |h.cells|)
    decreases ts, 1
  {
    if ts != [] {
      var b := Build(h, ts[0], tag);
      var rest := BuildAll(b.heap, ts[1..], tag);
      BuildOwned(h, ts[0], tag);
      BuildAllOwned(b.heap, ts[1..], tag);
      OwnedExtends(b.heap, rest.heap, b.v, ts[0], tag, |h.cells|);
      var vs := [b.v] + rest.v;
      forall i | 0 <= i < |ts| ensures Owned(rest.heap, vs[i], ts[i], tag) && Above(rest.heap, vs[i], ts[i], |h.cells|) {
        if i > 0 { assert vs[i] == rest.v[i - 1] && ts[i] == ts[1..][i - 1]; }
      }
      forall i, j, a: nat | 0 <= i < j < |ts| && Touches(rest.heap, vs[i], ts[i], a)
        ensures !Touches(rest.heap, vs[j], ts[j], a)
      {
        assert vs[j] == rest.v[j - 1] && ts[j] == ts[1..][j - 1];
        if i > 0 { assert vs[i] == rest.v[i - 1] && ts[i] == ts[1..][i - 1]; }
      }
    }
  }

  /** A copy denotes the same tree over fresh cells of its own tag. */
  lemma CopyOwned(h: Heap, v: Ref, t: Tree, tag: Tag)
    requires Rep(h, v, t)
    ensures var b := CopyTo(h, v, tag);
            Extends(h, b.heap) && Owned(b.heap, b.v, t, tag) && Above(b.heap, b.v, t, |h.cells|) && NewTags(h, b.heap, tag)
  {
    TreeOfRep(h, v, t);
    BuildOwned(h, t, tag);
  }

  // ----- writing in place -----

  /** applyLvalueWrite: descend the steps and overwrite one slot of the last backing. */
  function WriteRef(h: Heap, v: Ref, path: seq<Ref>, w: Ref): Option<Heap>
    decreases |path|
  {
    if path == [] || !v.Ptr? || v.a >= |h.cells| || !path[0].Imm? || !path[0].s.Int?
       || !(0 <= path[0].s.n < |h.cells[v.a].elems|) then None
    else
      var i := path[0].s.n;
      if |path| == 1 then Some(h.(cells := h.cells[v.a := h.cells[v.a].(elems := h.cells[v.a].elems[i := w])]))
      else WriteRef(h, h.cells[v.a].elems[i], path[1..], w)
  }

  /** A header used as an index or condition agrees with the tree on every scalar. */
  predicate Alike(v: Ref, t: Tree) {
    match t
    case Atom(s) => v == Imm(s)
    case Lst(_) => v.Ptr?
  }

  predicate AlikeAll(vs: seq<Ref>, ts: seq<Tree>) {
    |vs| == |ts| && forall i :: 0 <= i < |vs| ==> Alike(vs[i], ts[i])
  }

  /** h' differs from h only in elements of cells v touches. */
  ghost predicate WroteInto(h: Heap, h': Heap, v: Ref, t: Tree) {
    && |h'.cells| == |h.cells| && h'.ids == h.ids
    && forall a: nat :: a < |h.cells| ==> h'.cells[a].tag == h.cells[a].tag && (h'.cells[a] == h.cells[a] || Touches(h, v, t, a))
  }

  ghost predicate Disjoint(h: Heap, v: Ref, t: Tree, w: Ref, tw: Tree) {
    forall a: nat :: Touches(h, v, t, a) ==> !Touches(h, w, tw, a)
  }

  lemma KeptUnlessTouched(h: Heap, h': Heap, v: Ref, t: Tree, w: Ref, tw: Tree, tag: Tag)
    requires WroteInto(h, h', v, t) && Disjoint(h, v, t, w, tw) && Owned(h, w, tw, tag)
    ensures Owned(h', w, tw, tag)
    ensures forall a: nat :: Touches(h', w, tw, a) <==> Touches(h, w, tw, a)
  {
    forall a: nat | Touches(h, w, tw, a) ensures a < |h.cells| && h'.cells[a] == h.cells[a] {
      TouchesBounded(h, w, tw, a);
    }
    OwnedIsRep(h, w, tw, tag);
    KeptRep(h, h', w, tw);
    KeptOwned(h, h', w, tw, tag);
  }

  /** What v touches after the write was v's or w's before. */
  ghost predicate Absorbs(h: Heap, h': Heap, v: Ref, t: Tree, t': Tree, w: Ref, tw: Tree) {
    forall a: nat :: Touches(h', v, t', a) ==> Touches(h, v, t, a) || Touches(h, w, tw, a)
  }

  /** The in-place write computes exactly the tree update, and stays inside v's own backing. */
  lemma {:induction false} WriteOwned(h: Heap, v: Ref, t: Tree, tag: Tag, path: seq<Ref>, tpath: seq<Tree>, w: Ref, tw: Tree)
    requires Owned(h, v, t, tag) && Owned(h, w, tw, tag) && Disjoint(h, v, t, w, tw) && AlikeAll(path, tpath)
    ensures WriteRef(h, v, path, w).Some? == Update(t, tpath, tw).Some?
    ensures WriteRef(h, v, path, w).Some? ==>
              var h', t' := WriteRef(h, v, path, w).value, Update(t, tpath, tw).value;
              WroteInto(h, h', v, t) && Owned(h', v, t', tag) && Absorbs(h, h', v, t, t', w, tw)
    decreases |path|
  {
    if path == [] || t.Atom? { return; }
    assert Alike(path[0], tpath[0]);
    if WriteRef(h, v, path, w).None? && Update(t, tpath, tw).None? { return; }
    if |path| == 1 {
      WriteSlot(h, v, t, tag, path[0].s.n, w, tw);
    } else if path[0].Imm? && path[0].s.Int? && 0 <= path[0].s.n < |t.elems| {
      var i := path[0].s.n;
      var c := h.cells[v.a].elems[i];
      assert Disjoint(h, c, t.elems[i], w, tw) by {
        forall a: nat | Touches(h, c, t.elems[i], a) ensures Touches(h, v, t, a) {}
      }
      WriteOwned(h, c, t.elems[i], tag, path[1..], tpath[1..], w, tw);
      var h' := WriteRef(h, c, path[1..], w).value;
      WriteChild(h, h', v, t, tag, i, Update(t.elems[i], tpath[1..], tw).value, w, tw);
    }
  }

  lemma WriteSlot(h: Heap, v: Ref, t: Tree, tag: Tag, i: nat, w: Ref, tw: Tree)
    requires Owned(h, v, t, tag) && Owned(h, w, tw, tag) && Disjoint(h, v, t, w, tw) && t.Lst? && i < |t.elems|
    ensures var h' := h.(cells := h.cells[v.a := h.cells[v.a].(elems := h.cells[v.a].elems[i := w])]);
            var t' := Lst(t.elems[i := tw]);
            WroteInto(h, h', v, t) && Owned(h', v, t', tag) && Absorbs(h, h', v, t, t', w, tw)
  {
    var h' := h.(cells := h.cells[v.a := h.cells[v.a].(elems := h.cells[v.a].elems[i := w])]);
    var ts := t.elems[i := tw];
    var vs, ws := h.cells[v.a].elems, h'.cells[v.a].elems;
    assert Touches(h, v, t, v.a);
    forall j | 0 <= j < |ts|
      ensures Owned(h', ws[j], ts[j], tag) && !Touches(h', ws[j], ts[j], v.a)
      ensures forall a: nat :: Touches(h', ws[j], ts[j], a) <==> Touches(h, ws[j], ts[j], a)
      ensures j != i ==> forall a: nat :: Touches(h', ws[j], ts[j], a) ==> Touches(h, v, t, a)
    {
      KeptOffCell(h, h', v.a, ws[j], ts[j], tag);
    }
    assert Apart(h', ws, ts);
  }

  lemma KeptOffCell(h: Heap, h': Heap, a0: nat, w: Ref, tw: Tree, tag: Tag)
    requires |h'.cells| == |h.cells| && forall a: nat :: a < |h.cells| && a != a0 ==> h'.cells[a] == h.cells[a]
    requires Owned(h, w, tw, tag) && !Touches(h, w, tw, a0)
    ensures Owned(h', w, tw, tag)
    ensures forall a: nat :: Touches(h', w, tw, a) <==> Touches(h, w, tw, a)
  {
    forall a: nat | Touches(h, w, tw, a) ensures a < |h.cells| && h'.cells[a] == h.cells[a] {
      TouchesBounded(h, w, tw, a);
    }
    OwnedIsRep(h, w, tw, tag);
    KeptRep(h, h', w, tw);
    KeptOwned(h, h', w, tw, tag);
  }

  lemma WriteChild(h: Heap, h': Heap, v: Ref, t: Tree, tag: Tag, i: nat, tc: Tree, w: Ref, tw: Tree)
    requires Owned(h, v, t, tag) && t.Lst? && i < |t.elems| && Disjoint(h, v, t, w, tw)
    requires var c := h.cells[v.a].elems[i];
             WroteInto(h, h', c, t.elems[i]) && Owned(h', c, tc, tag) && Absorbs(h, h', c, t.elems[i], tc, w, tw)
    ensures var t' := Lst(t.elems[i := tc]);
            WroteInto(h, h', v, t) && Owned(h', v, t', tag) && Absorbs(h, h', v, t, t', w, tw)
  {
    var vs := h.cells[v.a].elems;
    var ts := t.elems[i := tc];
    assert Touches(h, v, t, v.a);
    assert !Touches(h, vs[i], t.elems[i], v.a);
    assert h'.cells[v.a] == h.cells[v.a];
    forall j | 0 <= j < |ts| && j != i
      ensures Owned(h', vs[j], ts[j], tag) && !Touches(h', vs[j], ts[j], v.a)
      ensures forall a: nat :: Touches(h', vs[j], ts[j], a) <==> Touches(h, vs[j], t.elems[j], a)
      ensures forall a: nat :: Touches(h', vs[j], ts[j], a) ==> Touches(h, v, t, a) && !Touches(h, vs[i], t.elems[i], a)
    {
      assert Disjoint(h, vs[i], t.elems[i], vs[j], t.elems[j]);
      KeptUnlessTouched(h, h', vs[i], t.elems[i], vs[j], t.elems[j], tag);
    }
    forall a: nat | Touches(h', vs[i], tc, a)
      ensures a != v.a
      ensures (Touches(h, v, t, a) && Touches(h, vs[i], t.elems[i], a)) || Touches(h, w, tw, a)
    {
      if Touches(h, vs[i], t.elems[i], a) { assert Touches(h, v, t, a); }
    }
    ApartAfter(h, h', v, t, i, tc, w, tw);
  }

  lemma ApartAfter(h: Heap, h': Heap, v: Ref, t: Tree, i: nat, tc: Tree, w: Ref, tw: Tree)
    requires t.Lst? && v.Ptr? && v.a < |h.cells| && |h.cells[v.a].elems| == |t.elems| && i < |t.elems|
    requires Apart(h, h.cells[v.a].elems, t.elems) && Disjoint(h, v, t, w, tw)
    requires var vs := h.cells[v.a].elems;
             && (forall a: nat :: Touches(h', vs[i], tc, a) ==> Touches(h, vs[i], t.elems[i], a) || Touches(h, w, tw, a))
             && forall j :: 0 <= j < |t.elems| && j != i ==>
                  forall a: nat :: Touches(h', vs[j], t.elems[j], a) ==> Touches(h, vs[j], t.elems[j], a)
    ensures Apart(h', h.cells[v.a].elems, t.elems[i := tc])
  {
    var vs, ts := h.cells[v.a].elems, t.elems[i := tc];
    forall j, k, a: nat | 0 <= j < k < |ts| && Touches(h', vs[j], ts[j], a) ensures !Touches(h', vs[k], ts[k], a) {
      if Touches(h', vs[k], ts[k], a) {
        var o := if j == i then k else j;
        assert Touches(h, vs[o], t.elems[o], a);
        assert Touches(h, v, t, a);
        assert false;
      }
    }
  }
}
