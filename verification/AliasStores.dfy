/** The store sites: bind, assign, index-assign and the spawn snapshot each match the value semantics. */
module AliasStores {
  import opened Syntax
  import opened ValueSemantics
  import opened AliasHeap
  import opened AliasEval
  import opened AliasInvariant

  /** A header used as a scalar agrees with its tree even after its backing went stale. */
  lemma RepAlike(h: Heap, v: Ref, t: Tree)
    requires Rep(h, v, t)
    ensures Alike(v, t)
  {
  }

  lemma {:induction false} ReverseAlike(vs: seq<Ref>, ts: seq<Tree>)
    requires AlikeAll(vs, ts)
    ensures AlikeAll(Reverse(vs), Reverse(ts))
  {
    if vs != [] {
      ReverseAlike(vs[1..], ts[1..]);
      assert Alike(vs[0], ts[0]);
    }
  }

  /** What a statement leaves: the frame's invariant, and only its own backings changed. */
  ghost predicate Leaves(h: Heap, cx: Ctx, r': StmtRun, r: StmtResult) {
    && Evolves(h, r'.heap, HotStmt(cx))
    && GlobalsOwned(r'.heap, cx.consts, cx.at.world, r'.globals, r.globals) && LocalsOk(r'.heap, cx, r'.locals, r.locals)
  }

  lemma LocalsBind(h: Heap, cx: Ctx, hl: RefStore, l: Store, x: Name, v: Ref, t: Tree)
    requires LocalsOk(h, cx, hl, l) && x !in cx.bor && Owned(h, v, t, LocalOf(cx.at.frame, x))
    ensures LocalsOk(h, cx, hl[x := v], l[x := t])
  {
    hide Owned, Rep, Avoids;
    var hl', l' := hl[x := v], l[x := t];
    forall y | y in l' ensures LocalOk(h, cx, y, hl'[y], l'[y]) {
      if y != x { assert LocalOk(h, cx, y, hl[y], l[y]); }
    }
  }

  lemma GlobalsBind(h: Heap, consts: set<Name>, w: nat, hg: RefStore, g: Store, x: Name, v: Ref, t: Tree)
    requires GlobalsOwned(h, consts, w, hg, g) && Owned(h, v, t, GlobalTag(consts, w, x))
    ensures GlobalsOwned(h, consts, w, hg[x := v], g[x := t])
  {
    hide Owned;
  }

  /** A copied local bind. */
  lemma BindLocal(h: Heap, cx: Ctx, hg: RefStore, hl: RefStore, g: Store, l: Store, x: Name, v: Ref, t: Tree)
    requires Inv(h, cx, hg, hl, g, l) && Rep(h, v, t) && x !in cx.bor
    ensures var b := CopyTo(h, v, LocalOf(cx.at.frame, x));
            Leaves(h, cx, TR(Next, b.heap, hg, hl[x := b.v]), SR(Next, g, l[x := t]))
  {
    hide Rep, Owned, CopyTo, Touches;
    var b := CopyTo(h, v, LocalOf(cx.at.frame, x));
    CopyEvolves(h, v, t, LocalOf(cx.at.frame, x));
    hide Evolves;
    GlobalsStay(h, b.heap, {}, cx.consts, cx.at.world, hg, g);
    LocalsStay(h, b.heap, {}, cx, hl, l);
    LocalsBind(b.heap, cx, hl, l, x, b.v, t);
    EvolvesMore(h, b.heap, {}, HotStmt(cx));
  }

  lemma BindGlobal(h: Heap, cx: Ctx, hg: RefStore, hl: RefStore, g: Store, l: Store, x: Name, v: Ref, t: Tree)
    requires Inv(h, cx, hg, hl, g, l) && Rep(h, v, t) && x !in cx.consts
    ensures var b := CopyTo(h, v, GlobalOf(cx.at.world, x));
            Leaves(h, cx, TR(Next, b.heap, hg[x := b.v], hl), SR(Next, g[x := t], l))
  {
    hide Rep, Owned, CopyTo, Touches;
    var b := CopyTo(h, v, GlobalOf(cx.at.world, x));
    CopyEvolves(h, v, t, GlobalOf(cx.at.world, x));
    hide Evolves;
    GlobalsStay(h, b.heap, {}, cx.consts, cx.at.world, hg, g);
    LocalsStay(h, b.heap, {}, cx, hl, l);
    GlobalsBind(b.heap, cx.consts, cx.at.world, hg, g, x, b.v, t);
    EvolvesMore(h, b.heap, {}, HotStmt(cx));
  }

  lemma StaysPut(h: Heap, cx: Ctx, hg: RefStore, hl: RefStore, g: Store, l: Store, o': Out<Ref>, o: Out<Tree>)
    requires Inv(h, cx, hg, hl, g, l)
    ensures Leaves(h, cx, TR(o', h, hg, hl), SR(o, g, l))
  {
  }

  lemma StoreSim(h: Heap, cx: Ctx, hg: RefStore, hl: RefStore, g: Store, l: Store, x: Name, v: Ref, t: Tree)
    requires Inv(h, cx, hg, hl, g, l) && Rep(h, v, t) && x !in cx.bor
    ensures var r', r := AliasEval.Store(cx.consts, x, v, h, cx.at, hg, hl), Put(cx.consts, x, t, g, l);
            Leaves(h, cx, r', r) && (r'.out.Next? <==> r.out.Next?) && (r'.out.Fail? <==> r.out.Fail?)
  {
    assert hl.Keys == l.Keys && hg.Keys == g.Keys;
    if x in l {
      BindLocal(h, cx, hg, hl, g, l, x, v, t);
    } else if Writable(cx.consts, x, g) {
      BindGlobal(h, cx, hg, hl, g, l, x, v, t);
    } else {
      StaysPut(h, cx, hg, hl, g, l, Fail, Fail);
    }
  }

  // ----- index assignment -----

  /** A backing of another binding is not reached by a write into the root's own backing. */
  lemma OtherStays(h: Heap, h': Heap, root: Ref, t: Tree, tag: Tag, v: Ref, tv: Tree, tag': Tag)
    requires Owned(h, root, t, tag) && Owned(h, v, tv, tag') && tag != tag' && WroteInto(h, h', root, t)
    ensures Owned(h', v, tv, tag')
  {
    OwnedIsRep(h, root, t, tag);
    OwnedIsRep(h, v, tv, tag');
    KeptUnlessTouched(h, h', root, t, v, tv, tag');
  }

  lemma WroteEvolves(h: Heap, h': Heap, root: Ref, t: Tree, tag: Tag, hot: set<nat>)
    requires Wf(h) && Owned(h, root, t, tag) && WroteInto(h, h', root, t) && !Clean(tag, hot)
    ensures Evolves(h, h', hot)
  {
    OwnedIsRep(h, root, t, tag);
  }

  /** Copy the new element, then overwrite one slot of the root. */
  lemma CopyThenWrite(h: Heap, root: Ref, t: Tree, tag: Tag, path: seq<Ref>, tpath: seq<Tree>, v: Ref, tv: Tree)
    requires Wf(h) && Rep(h, v, tv) && KnownTag(tag, h.ids) && Owned(h, root, t, tag) && AlikeAll(path, tpath)
    ensures var b := CopyTo(h, v, tag);
            && Evolves(h, b.heap, {}) && Owned(b.heap, root, t, tag)
            && WriteRef(b.heap, root, path, b.v).Some? == Update(t, tpath, tv).Some?
            && (Update(t, tpath, tv).Some? ==>
                  var h' := WriteRef(b.heap, root, path, b.v).value;
                  WroteInto(b.heap, h', root, t) && Owned(h', root, Update(t, tpath, tv).value, tag))
  {
    hide Rep, Owned, CopyTo;
    var b := CopyTo(h, v, tag);
    CopyEvolves(h, v, tv, tag);
    OwnedStay(h, b.heap, {}, root, t, tag);
    assert Disjoint(b.heap, root, t, b.v, tv) by {
      OwnedIsRep(h, root, t, tag);
      KeptRep(h, b.heap, root, t);
    }
    hide Touches, WriteRef, Update, WroteInto, Absorbs, Evolves, AlikeAll, Disjoint;
    WriteOwned(b.heap, root, t, tag, path, tpath, b.v, tv);
  }

  lemma BorrowedStays(h: Heap, h': Heap, cx: Ctx, x: Name, v: Ref, t: Tree)
    requires x in cx.bor && LocalOk(h, cx, x, v, t) && Evolves(h, h', {cx.at.frame})
    ensures LocalOk(h', cx, x, v, t)
  {
    AvoidsStay(h, h', {cx.at.frame}, v, t, cx.ban + {cx.at.frame});
  }

  lemma WriteLocal(h: Heap, h': Heap, cx: Ctx, hg: RefStore, hl: RefStore, g: Store, l: Store, x: Name, t': Tree)
    requires Inv(h, cx, hg, hl, g, l) && x in l && x !in cx.bor
    requires WroteInto(h, h', hl[x], l[x]) && Owned(h', hl[x], t', LocalOf(cx.at.frame, x))
    ensures Leaves(h, cx, TR(Next, h', hg, hl), SR(Next, g, l[x := t']))
  {
    var f := cx.at.frame;
    assert LocalOk(h, cx, x, hl[x], l[x]);
    hide Rep, Owned;
    WroteEvolves(h, h', hl[x], l[x], LocalOf(f, x), {f});
    hide WroteInto, Evolves, Avoids;
    GlobalsStay(h, h', {f}, cx.consts, cx.at.world, hg, g);
    forall y | y in l[x := t'] ensures LocalOk(h', cx, y, hl[y], l[x := t'][y]) {
      if y != x {
        assert LocalOk(h, cx, y, hl[y], l[y]);
        if y in cx.bor {
          BorrowedStays(h, h', cx, y, hl[y], l[y]);
        } else {
          OtherStays(h, h', hl[x], l[x], LocalOf(f, x), hl[y], l[y], LocalOf(f, y));
        }
      }
    }
    assert l[x := t'].Keys == l.Keys;
    EvolvesMore(h, h', {f}, HotStmt(cx));
  }

  lemma WriteGlobal(h: Heap, h': Heap, cx: Ctx, hg: RefStore, hl: RefStore, g: Store, l: Store, x: Name, t': Tree)
    requires Inv(h, cx, hg, hl, g, l) && Writable(cx.consts, x, g) && cx.loud
    requires WroteInto(h, h', hg[x], g[x]) && Owned(h', hg[x], t', GlobalOf(cx.at.world, x))
    ensures Leaves(h, cx, TR(Next, h', hg, hl), SR(Next, g[x := t'], l))
  {
    var w := cx.at.world;
    hide Rep, Owned;
    WroteEvolves(h, h', hg[x], g[x], GlobalOf(w, x), {w});
    hide WroteInto, Evolves, Avoids;
    LocalsStay(h, h', {w}, cx, hl, l);
    forall y | y in g[x := t'] ensures Owned(h', hg[y], g[x := t'][y], GlobalTag(cx.consts, w, y)) {
      if y != x {
        OtherStays(h, h', hg[x], g[x], GlobalOf(w, x), hg[y], g[y], GlobalTag(cx.consts, w, y));
      }
    }
    assert g[x := t'].Keys == g.Keys;
    EvolvesMore(h, h', {w}, HotStmt(cx));
  }

  lemma LeavesAfter(h: Heap, h1: Heap, cx: Ctx, r': StmtRun, r: StmtResult)
    requires Evolves(h, h1, HotStmt(cx)) && Leaves(h1, cx, r', r)
    ensures Leaves(h, cx, r', r)
  {
    EvolvesTrans(h, h1, r'.heap, HotStmt(cx));
  }

  /** Index assignment through the binding's own backing is the tree update. */
  lemma StoreAtSim(h: Heap, cx: Ctx, hg: RefStore, hl: RefStore, g: Store, l: Store,
                   x: Name, path: seq<Ref>, tpath: seq<Tree>, v: Ref, t: Tree)
    requires Inv(h, cx, hg, hl, g, l) && Rep(h, v, t) && AlikeAll(path, tpath)
    requires x !in cx.bor && (x !in l && Writable(cx.consts, x, g) ==> cx.loud)
    ensures var r', r := StoreAt(cx.consts, x, path, v, h, cx.at, hg, hl), WriteAt(cx.consts, x, tpath, t, g, l);
            Leaves(h, cx, r', r) && (r'.out.Next? <==> r.out.Next?) && (r'.out.Fail? <==> r.out.Fail?)
  {
    hide Rep, Owned, CopyTo, WriteRef, Update, WroteInto, Evolves, AlikeAll, Leaves, Avoids, Touches;
    assert hl.Keys == l.Keys && hg.Keys == g.Keys;
    if x !in l && !Writable(cx.consts, x, g) {
      StaysPut(h, cx, hg, hl, g, l, Fail, Fail);
      return;
    }
    var root, tr := if x in l then hl[x] else hg[x], if x in l then l[x] else g[x];
    var tag := FrameTag(cx.consts, x !in hl, if x in hl then cx.at.frame else cx.at.world, x);
    assert Owned(h, root, tr, tag) by {
      if x in l { assert LocalOk(h, cx, x, hl[x], l[x]); }
    }
    CopyThenWrite(h, root, tr, tag, path, tpath, v, t);
    var b := CopyTo(h, v, tag);
    hide LocalsOk, GlobalsOwned, Inv, LocalOk;
    InvUnder(h, b.heap, cx, hg, hl, g, l);
    EvolvesMore(h, b.heap, {}, HotStmt(cx));
    if Update(tr, tpath, t).Some? {
      var h' := WriteRef(b.heap, root, path, b.v).value;
      if x in l {
        WriteLocal(b.heap, h', cx, hg, hl, g, l, x, Update(tr, tpath, t).value);
      } else {
        WriteGlobal(b.heap, h', cx, hg, hl, g, l, x, Update(tr, tpath, t).value);
      }
    } else {
      StaysPut(b.heap, cx, hg, hl, g, l, Fail, Fail);
    }
    LeavesAfter(h, b.heap, cx, StoreAt(cx.consts, x, path, v, h, cx.at, hg, hl), WriteAt(cx.consts, x, tpath, t, g, l));
  }

  lemma InvUnder(h: Heap, h': Heap, cx: Ctx, hg: RefStore, hl: RefStore, g: Store, l: Store)
    requires Inv(h, cx, hg, hl, g, l) && Evolves(h, h', {})
    ensures Inv(h', cx, hg, hl, g, l)
  {
    hide Owned, Rep;
    GlobalsStay(h, h', {}, cx.consts, cx.at.world, hg, g);
    EvolvesMore(h, h', {}, Hot(cx));
    InvStep(h, h', cx, hg, hl, g, l, hg, g);
  }

  // ----- the spawn snapshot -----

  ghost predicate RepAll(h: Heap, names: set<Name>, src: RefStore, ts: Store) {
    names <= src.Keys && names <= ts.Keys && forall x :: x in names ==> Rep(h, src[x], ts[x])
  }

  ghost predicate OwnedAll(h: Heap, consts: set<Name>, names: set<Name>, vs: RefStore, ts: Store, global: bool, id: nat) {
    vs.Keys == names && names <= ts.Keys && forall x :: x in names ==> Owned(h, vs[x], ts[x], FrameTag(consts, global, id, x))
  }

  lemma RepAllStay(h: Heap, h': Heap, names: set<Name>, src: RefStore, ts: Store)
    requires RepAll(h, names, src, ts) && Evolves(h, h', {})
    ensures RepAll(h', names, src, ts)
  {
    forall x | x in names ensures Rep(h', src[x], ts[x]) {
      assert Avoids(h, src[x], ts[x], {}) by { BoundedCells(h, src[x], ts[x]); }
      AvoidsStay(h, h', {}, src[x], ts[x], {});
    }
  }

  lemma BoundedCells(h: Heap, v: Ref, t: Tree)
    ensures Avoids(h, v, t, {})
  {
    forall a: nat | Touches(h, v, t, a) ensures a < |h.cells| { TouchesBounded(h, v, t, a); }
  }

  /** The copied frame owns a private copy of every captured binding. */
  lemma {:induction false} CopyStoreOwned(h: Heap, consts: set<Name>, names: set<Name>, src: RefStore, ts: Store, global: bool, id: nat)
    requires Wf(h) && id < h.ids && RepAll(h, names, src, ts)
    ensures var b := CopyStore(h, consts, names, src, global, id);
            Evolves(h, b.heap, {}) && OwnedAll(b.heap, consts, names, b.v, ts, global, id)
    decreases |names|
  {
    hide Rep, Owned, Touches;
    if names != {} {
      var x := Pick(names);
      var tag := FrameTag(consts, global, id, x);
      var b := CopyTo(h, src[x], tag);
      CopyEvolves(h, src[x], ts[x], tag);
      RepAllStay(h, b.heap, names, src, ts);
      var rest := CopyStore(b.heap, consts, names - {x}, src, global, id);
      CopyStoreOwned(b.heap, consts, names - {x}, src, ts, global, id);
      OwnedStay(b.heap, rest.heap, {}, b.v, ts[x], tag);
      EvolvesTrans(h, b.heap, rest.heap, {});
      hide Evolves;
      assert rest.v[x := b.v].Keys == names;
    }
  }
}
