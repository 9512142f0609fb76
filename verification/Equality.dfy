/**
 Jennifer's `==` over runtime values: what it means (Same), that it is an
 equivalence, how map keys encode, and the indexed map comparison that decides it.
 */
module Equality {
  import opened Options
  import opened Numbers

  /** Identity of a struct or enum type. */
  datatype TypeId = TypeId(name: string, ns: string, modPath: string)

  datatype Field = Field(name: string, value: Value)
  datatype Entry = Entry(key: Value, value: Value)

  datatype Value =
    | Null
    | Bool(b: bool)
    | Int(n: Int64)
    | Flt(f: Float)
    | Str(s: string)
    | Bytes(bytes: seq<int>)
    | Lst(elems: seq<Value>)
    | Map(entries: seq<Entry>)
    | Struct(id: TypeId, fields: seq<Field>)
    | Enum(id: TypeId, variant: string, fields: seq<Field>)
    | Handle(kind: nat, ptr: nat)             // func, task and channel handles
    | Object(ns: string, name: string, inner: seq<Value>)  // no payload, or one wrapped value

  /** Every float in the value is a real binary64 value and not NaN. */
  ghost predicate Clean(v: Value) {
    match v
    case Flt(f) => Valid(f) && !f.NaN?
    case Lst(vs) => CleanAll(vs)
    case Map(es) => CleanEntries(es)
    case Struct(_, fs) => CleanFields(fs)
    case Enum(_, _, fs) => CleanFields(fs)
    case Object(_, _, vs) => CleanAll(vs)
    case _ => true
  }

  ghost predicate CleanAll(vs: seq<Value>) { forall i :: 0 <= i < |vs| ==> Clean(vs[i]) }
  ghost predicate CleanEntry(e: Entry) { Clean(e.key) && Clean(e.value) }
  ghost predicate CleanEntries(es: seq<Entry>) { forall i :: 0 <= i < |es| ==> CleanEntry(es[i]) }
  ghost predicate CleanFields(fs: seq<Field>) { forall i :: 0 <= i < |fs| ==> Clean(fs[i].value) }

  /** What `==` means: numbers by exact value, maps by mutual containment, everything else componentwise. */
  ghost predicate Same(v: Value, o: Value)
    requires Clean(v) && Clean(o)
    decreases v, 0
  {
    match (v, o)
    case (Null, Null) => true
    case (Bool(a), Bool(b)) => a == b
    case (Int(a), Int(b)) => a == b
    case (Flt(a), Flt(b)) => Point(a) == Point(b)
    case (Int(a), Flt(b)) => Real(a as real) == Point(b)
    case (Flt(a), Int(b)) => Point(a) == Real(b as real)
    case (Str(a), Str(b)) => a == b
    case (Bytes(a), Bytes(b)) => a == b
    case (Lst(vs), Lst(os)) => SameAll(vs, os)
    case (Struct(i, fs), Struct(j, gs)) => i == j && SameFields(fs, gs)
    case (Enum(i, x, fs), Enum(j, y, gs)) => i == j && x == y && SameFields(fs, gs)
    case (Handle(k, p), Handle(l, q)) => k == l && p == q
    case (Object(n, m, vs), Object(n', m', os)) => n == n' && m == m' && SameAll(vs, os)
    case (Map(es), Map(gs)) => SameMap(es, gs)
    case _ => false
  }

  ghost predicate SameAll(vs: seq<Value>, os: seq<Value>)
    requires CleanAll(vs) && CleanAll(os)
    decreases vs, 0
  {
    |vs| == |os| && forall i :: 0 <= i < |vs| ==> Same(vs[i], os[i])
  }

  ghost predicate SameFields(fs: seq<Field>, gs: seq<Field>)
    requires CleanFields(fs) && CleanFields(gs)
    decreases fs, 0
  {
    |fs| == |gs| && forall i :: 0 <= i < |fs| ==> fs[i].name == gs[i].name && Same(fs[i].value, gs[i].value)
  }

  ghost predicate SameEntry(e: Entry, g: Entry)
    requires CleanEntry(e) && CleanEntry(g)
    decreases e, 0
  {
    Same(e.key, g.key) && Same(e.value, g.value)
  }

  /** Same length, and each side holds an equal entry for every entry of the other. */
  ghost predicate SameMap(es: seq<Entry>, gs: seq<Entry>)
    requires CleanEntries(es) && CleanEntries(gs)
    decreases es, 2
  {
    && |es| == |gs|
    && (forall i :: 0 <= i < |es| ==> InRight(es[i], gs))
    && (forall j :: 0 <= j < |gs| ==> InLeft(es, gs[j]))
  }

  ghost predicate InRight(e: Entry, gs: seq<Entry>)
    requires CleanEntry(e) && CleanEntries(gs)
    decreases e, 1
  {
    exists j :: 0 <= j < |gs| && SameEntry(e, gs[j])
  }

  ghost predicate InLeft(es: seq<Entry>, g: Entry)
    requires CleanEntries(es) && CleanEntry(g)
    decreases es, 1
  {
    exists i :: 0 <= i < |es| && SameEntry(es[i], g)
  }

  // ----- an equivalence -----

  lemma {:induction false} SameRefl(v: Value)
    requires Clean(v)
    ensures Same(v, v)
    decreases v
  {
    match v
    case Lst(vs) => forall i | 0 <= i < |vs| ensures Same(vs[i], vs[i]) { SameRefl(vs[i]); }
    case Object(_, _, vs) => forall i | 0 <= i < |vs| ensures Same(vs[i], vs[i]) { SameRefl(vs[i]); }
    case Struct(_, fs) => forall i | 0 <= i < |fs| ensures Same(fs[i].value, fs[i].value) { SameRefl(fs[i].value); }
    case Enum(_, _, fs) => forall i | 0 <= i < |fs| ensures Same(fs[i].value, fs[i].value) { SameRefl(fs[i].value); }
    case Map(es) => MapRefl(es);
    case _ =>
  }

  lemma {:induction false} EntryRefl(e: Entry)
    requires CleanEntry(e)
    ensures SameEntry(e, e)
    decreases e
  {
    SameRefl(e.key);
    SameRefl(e.value);
  }

  lemma {:induction false} MapRefl(es: seq<Entry>)
    requires CleanEntries(es)
    ensures SameMap(es, es)
    decreases es
  {
    hide SameEntry, InRight, InLeft, Same;
    forall i | 0 <= i < |es| ensures InRight(es[i], es) && InLeft(es, es[i]) {
      EntryRefl(es[i]);
      EntryIsIn(es, i);
    }
  }

  lemma EntryIsIn(es: seq<Entry>, i: nat)
    requires CleanEntries(es) && i < |es| && SameEntry(es[i], es[i])
    ensures InRight(es[i], es) && InLeft(es, es[i])
  {
    hide SameEntry, Same;
  }

  lemma {:induction false} SameSym(v: Value, o: Value)
    requires Clean(v) && Clean(o) && Same(v, o)
    ensures Same(o, v)
    decreases v
  {
    match (v, o)
    case (Lst(vs), Lst(os)) => AllSym(vs, os);
    case (Object(_, _, vs), Object(_, _, os)) => AllSym(vs, os);
    case (Struct(_, fs), Struct(_, gs)) => FieldsSym(fs, gs);
    case (Enum(_, _, fs), Enum(_, _, gs)) => FieldsSym(fs, gs);
    case (Map(es), Map(gs)) => MapSym(es, gs);
    case _ =>
  }

  lemma {:induction false} AllSym(vs: seq<Value>, os: seq<Value>)
    requires CleanAll(vs) && CleanAll(os) && SameAll(vs, os)
    ensures SameAll(os, vs)
    decreases vs
  {
    hide Same;
    forall i | 0 <= i < |vs| ensures Same(os[i], vs[i]) { SameSym(vs[i], os[i]); }
  }

  lemma {:induction false} FieldsSym(fs: seq<Field>, gs: seq<Field>)
    requires CleanFields(fs) && CleanFields(gs) && SameFields(fs, gs)
    ensures SameFields(gs, fs)
    decreases fs
  {
    hide Same;
    forall i | 0 <= i < |fs| ensures Same(gs[i].value, fs[i].value) { SameSym(fs[i].value, gs[i].value); }
  }

  lemma {:induction false} EntrySym(e: Entry, g: Entry)
    requires CleanEntry(e) && CleanEntry(g) && SameEntry(e, g)
    ensures SameEntry(g, e)
    decreases e
  {
    SameSym(e.key, g.key);
    SameSym(e.value, g.value);
  }

  lemma {:induction false} MapSym(es: seq<Entry>, gs: seq<Entry>)
    requires CleanEntries(es) && CleanEntries(gs) && SameMap(es, gs)
    ensures SameMap(gs, es)
    decreases es
  {
    hide SameEntry, CleanEntry;
    forall j | 0 <= j < |gs| ensures InRight(gs[j], es) {
      var i :| 0 <= i < |es| && SameEntry(es[i], gs[j]);
      EntrySym(es[i], gs[j]);
    }
    forall i | 0 <= i < |es| ensures InLeft(gs, es[i]) {
      var j :| 0 <= j < |gs| && SameEntry(es[i], gs[j]);
      EntrySym(es[i], gs[j]);
    }
  }

  lemma {:induction false} SameTrans(v: Value, o: Value, p: Value)
    requires Clean(v) && Clean(o) && Clean(p) && Same(v, o) && Same(o, p)
    ensures Same(v, p)
    decreases v
  {
    match v
    case Lst(vs) => AllTrans(vs, o.elems, p.elems);
    case Object(_, _, vs) => AllTrans(vs, o.inner, p.inner);
    case Struct(_, fs) => FieldsTrans(fs, o.fields, p.fields);
    case Enum(_, _, fs) => FieldsTrans(fs, o.fields, p.fields);
    case Map(es) => MapTrans(es, o.entries, p.entries);
    case _ =>
  }

  lemma {:induction false} AllTrans(vs: seq<Value>, os: seq<Value>, ps: seq<Value>)
    requires CleanAll(vs) && CleanAll(os) && CleanAll(ps) && SameAll(vs, os) && SameAll(os, ps)
    ensures SameAll(vs, ps)
    decreases vs
  {
    hide Same;
    forall i | 0 <= i < |vs| ensures Same(vs[i], ps[i]) { SameTrans(vs[i], os[i], ps[i]); }
  }

  lemma {:induction false} FieldsTrans(fs: seq<Field>, gs: seq<Field>, hs: seq<Field>)
    requires CleanFields(fs) && CleanFields(gs) && CleanFields(hs) && SameFields(fs, gs) && SameFields(gs, hs)
    ensures SameFields(fs, hs)
    decreases fs
  {
    hide Same;
    forall i | 0 <= i < |fs| ensures Same(fs[i].value, hs[i].value) { SameTrans(fs[i].value, gs[i].value, hs[i].value); }
  }

  lemma {:induction false} EntryTrans(e: Entry, g: Entry, h: Entry)
    requires CleanEntry(e) && CleanEntry(g) && CleanEntry(h) && SameEntry(e, g) && SameEntry(g, h)
    ensures SameEntry(e, h)
    decreases e, 0
  {
    SameTrans(e.key, g.key, h.key);
    SameTrans(e.value, g.value, h.value);
  }

  lemma {:induction false} RightTrans(e: Entry, gs: seq<Entry>, hs: seq<Entry>)
    requires CleanEntry(e) && CleanEntries(gs) && CleanEntries(hs) && InRight(e, gs)
    requires forall j :: 0 <= j < |gs| ==> InRight(gs[j], hs)
    ensures InRight(e, hs)
    decreases e, 1
  {
    hide SameEntry, CleanEntry;
    var j :| 0 <= j < |gs| && SameEntry(e, gs[j]);
    assert InRight(gs[j], hs);
    var k :| 0 <= k < |hs| && SameEntry(gs[j], hs[k]);
    EntryTrans(e, gs[j], hs[k]);
  }

  lemma {:induction false} LeftTrans(es: seq<Entry>, gs: seq<Entry>, h: Entry)
    requires CleanEntries(es) && CleanEntries(gs) && CleanEntry(h) && InLeft(gs, h)
    requires forall j :: 0 <= j < |gs| ==> InLeft(es, gs[j])
    ensures InLeft(es, h)
    decreases es, 0
  {
    hide SameEntry, CleanEntry;
    var j :| 0 <= j < |gs| && SameEntry(gs[j], h);
    assert InLeft(es, gs[j]);
    var i :| 0 <= i < |es| && SameEntry(es[i], gs[j]);
    EntryTrans(es[i], gs[j], h);
  }

  lemma {:induction false} MapTrans(es: seq<Entry>, gs: seq<Entry>, hs: seq<Entry>)
    requires CleanEntries(es) && CleanEntries(gs) && CleanEntries(hs) && SameMap(es, gs) && SameMap(gs, hs)
    ensures SameMap(es, hs)
    decreases es, 1
  {
    hide InRight, InLeft, CleanEntry;
    forall i | 0 <= i < |es| ensures InRight(es[i], hs) { RightTrans(es[i], gs, hs); }
    forall k | 0 <= k < |hs| ensures InLeft(es, hs[k]) { LeftTrans(es, gs, hs[k]); }
  }

  // ----- map key encoding -----

  /** The tagged string mapKeyEncode returns: a kind letter, then a spelling that is unique within the kind. */
  datatype Code = OfString(s: string) | OfInt(n: int) | OfFloat(f: Float) | OfBool(b: bool) | OfNull

  function Encode(v: Value): Option<Code> {
    match v
    case Str(s) => Some(OfString(s))
    case Int(n) => Some(OfInt(n))
    case Bool(b) => Some(OfBool(b))
    case Null => Some(OfNull)
    case Flt(f) =>
      (match f
      case NaN => None
      case NegZero => Some(OfInt(0))
      case Inf(_) => Some(OfFloat(f))
      case Num(x) =>
        // float64(int64(x)) is exact here (TruncIsExact), so this is the test the code makes
        if -(TWO63 as real) <= x < TWO63 as real && Trunc(x) as real == x
        then Some(OfInt(Trunc(x))) else Some(OfFloat(f)))
    case _ => None
  }

  /** Hashable keys encode alike exactly when they are equal; a key that does not encode equals none that does. */
  lemma EncodeIsEquality(k: Value, l: Value)
    requires Clean(k) && Clean(l)
    ensures Encode(k).Some? && Encode(l).Some? ==> (Encode(k) == Encode(l) <==> Same(k, l))
    ensures Encode(k).Some? && Encode(l).None? ==> !Same(k, l) && !Same(l, k)
  {
    hide Binary64;
    if k.Flt? && k.f.Num? { EncodeNum(k.f.x); }
    if l.Flt? && l.f.Num? { EncodeNum(l.f.x); }
    hide Trunc;
  }

  lemma EncodeNum(x: real)
    ensures var c := Encode(Flt(Num(x)));
            if Integral(x) && -(TWO63 as real) <= x < TWO63 as real then c == Some(OfInt(x.Floor)) else c == Some(OfFloat(Num(x)))
  {
    if Integral(x) { TruncOfWhole(x); }
  }

  // ----- every component counts -----

  /** In a list, a struct, an enum value or an object, changing one component makes it unequal exactly when the component is. */
  lemma ComponentsCount(vs: seq<Value>, fs: seq<Field>, id: TypeId, variant: string, ns: string, i: nat, w: Value)
    requires CleanAll(vs) && CleanFields(fs) && Clean(w)
    ensures i < |vs| ==> Clean(Lst(vs)) && Clean(Lst(vs[i := w])) && (Same(Lst(vs), Lst(vs[i := w])) <==> Same(vs[i], w))
    ensures i < |vs| ==> (Same(Object(ns, variant, vs), Object(ns, variant, vs[i := w])) <==> Same(vs[i], w))
    ensures i < |fs| ==> var gs := fs[i := Field(fs[i].name, w)];
              && CleanFields(gs) && (Same(Struct(id, fs), Struct(id, gs)) <==> Same(fs[i].value, w))
              && (Same(Enum(id, variant, fs), Enum(id, variant, gs)) <==> Same(fs[i].value, w))
  {
    hide Same, Clean;
    ItemsCount(vs, i, w);
    FieldsCount(fs, i, w);
    AsContainers(vs, if i < |vs| then vs[i := w] else vs, ns, variant);
    if i < |fs| { AsRecords(fs, fs[i := Field(fs[i].name, w)], id, variant); }
  }

  lemma AsContainers(vs: seq<Value>, os: seq<Value>, ns: string, name: string)
    requires CleanAll(vs) && CleanAll(os)
    ensures Clean(Lst(vs)) && Clean(Lst(os)) && (Same(Lst(vs), Lst(os)) <==> SameAll(vs, os))
    ensures Clean(Object(ns, name, vs)) && Clean(Object(ns, name, os)) && (Same(Object(ns, name, vs), Object(ns, name, os)) <==> SameAll(vs, os))
  {
    hide SameAll;
  }

  lemma AsRecords(fs: seq<Field>, gs: seq<Field>, id: TypeId, variant: string)
    requires CleanFields(fs) && CleanFields(gs)
    ensures Clean(Struct(id, fs)) && Clean(Struct(id, gs)) && (Same(Struct(id, fs), Struct(id, gs)) <==> SameFields(fs, gs))
    ensures Clean(Enum(id, variant, fs)) && Clean(Enum(id, variant, gs))
    ensures Same(Enum(id, variant, fs), Enum(id, variant, gs)) <==> SameFields(fs, gs)
  {
    hide SameFields;
  }

  lemma AsMaps(es: seq<Entry>, gs: seq<Entry>)
    requires CleanEntries(es) && CleanEntries(gs)
    ensures Clean(Map(es)) && Clean(Map(gs)) && (Same(Map(es), Map(gs)) <==> SameMap(es, gs))
  {
    hide SameMap;
  }

  lemma ItemsCount(vs: seq<Value>, i: nat, w: Value)
    requires CleanAll(vs) && Clean(w)
    ensures i < |vs| ==> CleanAll(vs[i := w]) && (SameAll(vs, vs[i := w]) <==> Same(vs[i], w))
  {
    hide Same, Clean;
    if i < |vs| {
      var os := vs[i := w];
      forall k | 0 <= k < |vs| && k != i ensures Same(vs[k], os[k]) { SameRefl(vs[k]); }
      if SameAll(vs, os) { assert Same(vs[i], os[i]); }
    }
  }

  lemma FieldsCount(fs: seq<Field>, i: nat, w: Value)
    requires CleanFields(fs) && Clean(w)
    ensures i < |fs| ==> var gs := fs[i := Field(fs[i].name, w)]; CleanFields(gs) && (SameFields(fs, gs) <==> Same(fs[i].value, w))
  {
    hide Same, Clean;
    if i < |fs| {
      var gs := fs[i := Field(fs[i].name, w)];
      forall k | 0 <= k < |fs| && k != i ensures Same(fs[k].value, gs[k].value) { SameRefl(fs[k].value); }
      if SameFields(fs, gs) { assert Same(fs[i].value, gs[i].value); }
    }
  }

  ghost predicate DistinctKeys(es: seq<Entry>)
    requires CleanEntries(es)
  {
    forall i, j :: 0 <= i < |es| && 0 <= j < |es| && i != j ==> CleanEntry(es[i]) && CleanEntry(es[j]) && !Same(es[i].key, es[j].key)
  }

  /** In a map, too: changing the value of one key makes it unequal exactly when the value is. */
  lemma EntriesCount(es: seq<Entry>, i: nat, w: Value)
    requires CleanEntries(es) && DistinctKeys(es) && Clean(w) && i < |es|
    ensures var gs := es[i := Entry(es[i].key, w)];
            Clean(Map(es)) && Clean(Map(gs)) && CleanEntry(es[i]) && (Same(Map(es), Map(gs)) <==> Same(es[i].value, w))
  {
    var gs := es[i := Entry(es[i].key, w)];
    CleanAfter(es, i, w);
    hide Same, Clean, SameMap, DistinctKeys, CleanEntries;
    AsMaps(es, gs);
    if SameMap(es, gs) { OwnValue(es, i, w, gs); }
    if Same(es[i].value, w) { StillSame(es, i, w, gs); }
  }

  lemma CleanAfter(es: seq<Entry>, i: nat, w: Value)
    requires CleanEntries(es) && Clean(w) && i < |es|
    ensures CleanEntry(es[i]) && CleanEntries(es[i := Entry(es[i].key, w)])
  {
    hide Clean;
    assert CleanEntry(es[i]);
  }

  /** The only entry that can match is the one with the same key. */
  lemma OwnValue(es: seq<Entry>, i: nat, w: Value, gs: seq<Entry>)
    requires CleanEntries(es) && CleanEntries(gs) && DistinctKeys(es) && i < |es| && CleanEntry(es[i]) && Clean(w)
    requires gs == es[i := Entry(es[i].key, w)] && SameMap(es, gs)
    ensures Same(es[i].value, w)
  {
    hide Same, Clean;
    assert InRight(es[i], gs);
    var j :| 0 <= j < |gs| && CleanEntry(gs[j]) && SameEntry(es[i], gs[j]);
  }

  lemma StillSame(es: seq<Entry>, i: nat, w: Value, gs: seq<Entry>)
    requires CleanEntries(es) && CleanEntries(gs) && i < |es| && CleanEntry(es[i]) && Clean(w)
    requires gs == es[i := Entry(es[i].key, w)] && Same(es[i].value, w)
    ensures SameMap(es, gs)
  {
    hide Same, Clean;
    forall k | 0 <= k < |es| ensures CleanEntry(es[k]) && CleanEntry(gs[k]) && SameEntry(es[k], gs[k]) {
      assert CleanEntry(es[k]) && CleanEntry(gs[k]);
      SameRefl(es[k].key);
      if k != i { SameRefl(es[k].value); }
    }
    hide SameEntry;
    forall k | 0 <= k < |es| ensures InRight(es[k], gs) { assert SameEntry(es[k], gs[k]); }
    forall k | 0 <= k < |gs| ensures InLeft(es, gs[k]) { assert SameEntry(es[k], gs[k]); }
  }
}
