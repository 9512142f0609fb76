/**
 What the interpreter keeps true of its heap between steps: every binding that is
 not borrowed owns its backing, borrowed bindings denote their values and cannot
 be reached by any write the frame may perform.
 */
module AliasInvariant {
  import opened Syntax
  import opened ValueSemantics
  import opened AliasHeap
  import opened AliasEval

  /** The tag belongs to none of the numbered frames and worlds. Constants belong to none: nothing writes them. */
  predicate Clean(tag: Tag, ids: set<nat>) {
    match tag
    case GlobalOf(w, _) => w !in ids
    case ConstOf(_) => true
    case LocalOf(f, _) => f !in ids
    case Unbound => true
  }

  ghost predicate Avoids(h: Heap, v: Ref, t: Tree, ids: set<nat>) {
    forall a: nat :: Touches(h, v, t, a) ==> a < |h.cells| && Clean(h.cells[a].tag, ids)
  }

  /** From h to h' only backings of the frames in `hot` changed. */
  ghost predicate Evolves(h: Heap, h': Heap, hot: set<nat>) {
    && |h.cells| <= |h'.cells| && h.ids <= h'.ids && Wf(h')
    && forall a: nat :: a < |h.cells| ==>
         h'.cells[a].tag == h.cells[a].tag && (Clean(h.cells[a].tag, hot) ==> h'.cells[a] == h.cells[a])
  }

  lemma EvolvesTrans(h: Heap, h1: Heap, h2: Heap, hot: set<nat>)
    requires Evolves(h, h1, hot) && Evolves(h1, h2, hot)
    ensures Evolves(h, h2, hot)
  {
  }

  lemma EvolvesMore(h: Heap, h': Heap, hot: set<nat>, hot': set<nat>)
    requires Evolves(h, h', hot) && hot <= hot'
    ensures Evolves(h, h', hot')
  {
  }

  /** A frame created after h has no backing in h. */
  lemma EvolvesForget(h: Heap, h': Heap, hot: set<nat>, hot': set<nat>)
    requires Wf(h) && Evolves(h, h', hot) && forall k :: k in hot && k !in hot' ==> h.ids <= k
    ensures Evolves(h, h', hot')
  {
  }

  lemma AvoidsStay(h: Heap, h': Heap, hot: set<nat>, v: Ref, t: Tree, ban: set<nat>)
    requires Rep(h, v, t) && Avoids(h, v, t, hot) && Evolves(h, h', hot)
    ensures Rep(h', v, t) && (Avoids(h, v, t, ban) ==> Avoids(h', v, t, ban))
  {
    KeptRep(h, h', v, t);
  }

  lemma OwnedAvoids(h: Heap, v: Ref, t: Tree, tag: Tag, ids: set<nat>)
    requires Owned(h, v, t, tag) && Clean(tag, ids)
    ensures Rep(h, v, t) && Avoids(h, v, t, ids)
  {
    OwnedIsRep(h, v, t, tag);
  }

  lemma OwnedStay(h: Heap, h': Heap, hot: set<nat>, v: Ref, t: Tree, tag: Tag)
    requires Owned(h, v, t, tag) && Clean(tag, hot) && Evolves(h, h', hot)
    ensures Owned(h', v, t, tag)
  {
    OwnedIsRep(h, v, t, tag);
    KeptOwned(h, h', v, t, tag);
  }

  lemma CopyEvolves(h: Heap, v: Ref, t: Tree, tag: Tag)
    requires Wf(h) && Rep(h, v, t) && KnownTag(tag, h.ids)
    ensures var b := CopyTo(h, v, tag); Evolves(h, b.heap, {}) && Owned(b.heap, b.v, t, tag) && Above(b.heap, b.v, t, |h.cells|)
  {
    CopyOwned(h, v, t, tag);
  }

  // ----- frames -----

  /**
   `ban` are frames still being built, whose backings nothing reachable here may
   touch; `bor` are the borrowed locals; `loud` code may write globals.
   */
  datatype Ctx = Ctx(at: Site, consts: set<Name>, ban: set<nat>, bor: set<Name>, locals: set<Name>, loud: bool)

  /** What evaluating an expression of this frame may change. */
  function Hot(cx: Ctx): set<nat> { if cx.loud then {cx.at.world} else {} }

  function HotStmt(cx: Ctx): set<nat> { Hot(cx) + {cx.at.frame} }

  ghost predicate GlobalsOwned(h: Heap, consts: set<Name>, w: nat, hg: RefStore, g: Store) {
    hg.Keys == g.Keys && forall x :: x in g ==> Owned(h, hg[x], g[x], GlobalTag(consts, w, x))
  }

  ghost predicate LocalOk(h: Heap, cx: Ctx, x: Name, v: Ref, t: Tree) {
    if x in cx.bor then Rep(h, v, t) && Avoids(h, v, t, cx.ban + {cx.at.frame})
    else Owned(h, v, t, LocalOf(cx.at.frame, x))
  }

  ghost predicate LocalsOk(h: Heap, cx: Ctx, hl: RefStore, l: Store) {
    hl.Keys == l.Keys && cx.bor <= l.Keys && forall x :: x in l ==> LocalOk(h, cx, x, hl[x], l[x])
  }

  ghost predicate CtxOk(h: Heap, cx: Ctx) {
    && Wf(h) && cx.at.world < h.ids && cx.at.frame < h.ids && cx.at.world != cx.at.frame
    && cx.at.world !in cx.ban && cx.at.frame !in cx.ban && (forall k :: k in cx.ban ==> k < h.ids)
    && (cx.loud ==> cx.bor == {})
  }

  ghost predicate Inv(h: Heap, cx: Ctx, hg: RefStore, hl: RefStore, g: Store, l: Store) {
    CtxOk(h, cx) && GlobalsOwned(h, cx.consts, cx.at.world, hg, g) && LocalsOk(h, cx, hl, l)
  }

  lemma GlobalsStay(h: Heap, h': Heap, hot: set<nat>, consts: set<Name>, w: nat, hg: RefStore, g: Store)
    requires GlobalsOwned(h, consts, w, hg, g) && Evolves(h, h', hot) && w !in hot
    ensures GlobalsOwned(h', consts, w, hg, g)
  {
    forall x | x in g ensures Owned(h', hg[x], g[x], GlobalTag(consts, w, x)) {
      OwnedStay(h, h', hot, hg[x], g[x], GlobalTag(consts, w, x));
    }
  }

  lemma LocalStays(h: Heap, h': Heap, hot: set<nat>, cx: Ctx, x: Name, v: Ref, t: Tree)
    requires LocalOk(h, cx, x, v, t) && Evolves(h, h', hot) && cx.at.frame !in hot && (x in cx.bor ==> hot == {})
    ensures LocalOk(h', cx, x, v, t)
  {
    hide Evolves, Rep, Owned;
    if x in cx.bor {
      AvoidsNothing(h, v, t, cx.ban + {cx.at.frame});
      AvoidsStay(h, h', hot, v, t, cx.ban + {cx.at.frame});
    } else {
      OwnedStay(h, h', hot, v, t, LocalOf(cx.at.frame, x));
    }
  }

  lemma AvoidsNothing(h: Heap, v: Ref, t: Tree, ids: set<nat>)
    requires Avoids(h, v, t, ids)
    ensures Avoids(h, v, t, {})
  {
  }

  lemma LocalsStay(h: Heap, h': Heap, hot: set<nat>, cx: Ctx, hl: RefStore, l: Store)
    requires LocalsOk(h, cx, hl, l) && Evolves(h, h', hot) && cx.at.frame !in hot && (cx.bor != {} ==> hot == {})
    ensures LocalsOk(h', cx, hl, l)
  {
    hide Evolves, LocalOk;
    forall x | x in l ensures LocalOk(h', cx, x, hl[x], l[x]) {
      LocalStays(h, h', hot, cx, x, hl[x], l[x]);
    }
  }

  /** Evaluating an expression keeps the frame's invariant. */
  lemma InvStep(h: Heap, h': Heap, cx: Ctx, hg: RefStore, hl: RefStore, g: Store, l: Store, hg': RefStore, g': Store)
    requires Inv(h, cx, hg, hl, g, l) && Evolves(h, h', Hot(cx)) && GlobalsOwned(h', cx.consts, cx.at.world, hg', g')
    ensures Inv(h', cx, hg', hl, g', l)
  {
    LocalsStay(h, h', Hot(cx), cx, hl, l);
    hide LocalsOk, GlobalsOwned;
  }

  /** An allocation of new frame numbers changes nothing. */
  lemma Bump(h: Heap, n: nat)
    requires Wf(h)
    ensures Evolves(h, h.(ids := h.ids + n), {}) && Wf(h.(ids := h.ids + n))
  {
  }

  /** Nothing that exists touches a frame not yet created. */
  lemma FreshFrame(h: Heap, v: Ref, t: Tree, ban: set<nat>, new_: set<nat>)
    requires Wf(h) && Avoids(h, v, t, ban) && forall k :: k in new_ ==> h.ids <= k
    ensures Avoids(h, v, t, ban + new_)
  {
  }

  /** Start building a callee's frame. */
  lemma InvReserve(h: Heap, cx: Ctx, hg: RefStore, hl: RefStore, g: Store, l: Store)
    requires Inv(h, cx, hg, hl, g, l)
    ensures Inv(h.(ids := h.ids + 1), cx.(ban := cx.ban + {h.ids}), hg, hl, g, l)
  {
    var h1, cx1 := h.(ids := h.ids + 1), cx.(ban := cx.ban + {h.ids});
    Bump(h, 1);
    GlobalsStay(h, h1, {}, cx.consts, cx.at.world, hg, g);
    forall x | x in l ensures LocalOk(h1, cx1, x, hl[x], l[x]) {
      if x in cx.bor {
        FreshFrame(h, hl[x], l[x], cx.ban + {cx.at.frame}, {h.ids});
        assert (cx.ban + {cx.at.frame}) + {h.ids} == cx1.ban + {cx1.at.frame};
        AvoidsNothing(h, hl[x], l[x], cx1.ban + {cx1.at.frame});
        AvoidsStay(h, h1, {}, hl[x], l[x], cx1.ban + {cx1.at.frame});
      } else {
        OwnedStay(h, h1, {}, hl[x], l[x], LocalOf(cx.at.frame, x));
      }
    }
  }
}
