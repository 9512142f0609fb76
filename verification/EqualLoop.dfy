/** Value.Equal as it runs: early exits, a hash index of one side's keys, a double scan for degenerate maps. */
module EqualLoop {
  import opened Options
  import opened Numbers
  import opened Equality

  // ----- termination measure -----

  ghost function Size(v: Value): nat {
    match v
    case Lst(vs) => 1 + SizeAll(vs)
    case Object(_, _, vs) => 1 + SizeAll(vs)
    case Struct(_, fs) => 1 + SizeFields(fs)
    case Enum(_, _, fs) => 1 + SizeFields(fs)
    case Map(es) => 1 + SizeEntries(es)
    case _ => 1
  }

  ghost function SizeAll(vs: seq<Value>): nat { if vs == [] then 0 else Size(vs[0]) + SizeAll(vs[1..]) }
  ghost function SizeFields(fs: seq<Field>): nat { if fs == [] then 0 else SizeField(fs[0]) + SizeFields(fs[1..]) }
  ghost function SizeField(f: Field): nat { Size(f.value) }
  ghost function SizeEntries(es: seq<Entry>): nat { if es == [] then 0 else SizeEntry(es[0]) + SizeEntries(es[1..]) }
  ghost function SizeEntry(e: Entry): nat { Size(e.key) + Size(e.value) }

  lemma {:induction false} SizeAt(vs: seq<Value>, i: nat)
    requires i < |vs|
    ensures Size(vs[i]) <= SizeAll(vs)
  {
    if i > 0 { SizeAt(vs[1..], i - 1); }
  }

  lemma {:induction false} FieldAt(fs: seq<Field>, i: nat)
    requires i < |fs|
    ensures Size(fs[i].value) <= SizeFields(fs)
  {
    if i > 0 { FieldAt(fs[1..], i - 1); }
  }

  lemma {:induction false} EntryAt(es: seq<Entry>, i: nat)
    requires i < |es|
    ensures Size(es[i].key) + Size(es[i].value) <= SizeEntries(es)
  {
    if i > 0 { EntryAt(es[1..], i - 1); }
  }

  // ----- the index of one side -----

  /** Distinct, hashable keys, each code giving its position. */
  predicate Indexes(idx: map<Code, nat>, gs: seq<Entry>) {
    && (forall j :: 0 <= j < |gs| ==> Encode(gs[j].key).Some? && Encode(gs[j].key).value in idx && idx[Encode(gs[j].key).value] == j)
    && (forall c :: c in idx ==> idx[c] < |gs| && Encode(gs[idx[c]].key) == Some(c))
  }

  method BuildIndex(gs: seq<Entry>) returns (idx: map<Code, nat>, ok: bool)
    requires CleanEntries(gs)
    ensures ok ==> Indexes(idx, gs)
  {
    idx := map[];
    for i := 0 to |gs|
      invariant Indexes(idx, gs[..i])
    {
      var c := Encode(gs[i].key);
      if c.None? || c.value in idx { return idx, false; }
      assert gs[..i + 1] == gs[..i] + [gs[i]];
      idx := idx[c.value := i];
    }
    assert gs[..|gs|] == gs;
    return idx, true;
  }

  ghost predicate SameKey(e: Entry, g: Entry)
    requires CleanEntry(e) && CleanEntry(g)
  {
    Same(e.key, g.key)
  }

  ghost predicate SameValue(e: Entry, g: Entry)
    requires CleanEntry(e) && CleanEntry(g)
  {
    Same(e.value, g.value)
  }

  /** With an index, an entry can only be matched at the position its key's code names. */
  lemma MatchIsIndexed(idx: map<Code, nat>, gs: seq<Entry>, e: Entry, j: nat)
    requires CleanEntries(gs) && Indexes(idx, gs) && CleanEntry(e) && j < |gs| && SameKey(e, gs[j])
    ensures Encode(e.key).Some? && Encode(e.key).value in idx && idx[Encode(e.key).value] == j
  {
    assert CleanEntry(gs[j]);
    EncodeIsEquality(gs[j].key, e.key);
    EncodeIsEquality(e.key, gs[j].key);
    SameSym(e.key, gs[j].key);
    hide Encode, Same;
  }

  lemma IndexedMatches(idx: map<Code, nat>, gs: seq<Entry>, e: Entry)
    requires CleanEntries(gs) && Indexes(idx, gs) && CleanEntry(e) && Encode(e.key).Some? && Encode(e.key).value in idx
    ensures SameKey(e, gs[idx[Encode(e.key).value]])
  {
    assert CleanEntry(gs[idx[Encode(e.key).value]]);
    EncodeIsEquality(e.key, gs[idx[Encode(e.key).value]].key);
    hide Encode, Same;
  }

  /** No entry of the indexed side matches. */
  lemma MissRefutes(idx: map<Code, nat>, es: seq<Entry>, gs: seq<Entry>, k: nat)
    requires CleanEntries(es) && CleanEntries(gs) && Indexes(idx, gs) && k < |es|
    requires Encode(es[k].key).None? || Encode(es[k].key).value !in idx
             || !SameValue(es[k], gs[idx[Encode(es[k].key).value]])
    ensures !SameMap(es, gs)
  {
    hide Encode, Same, Indexes;
    if InRight(es[k], gs) {
      var j :| 0 <= j < |gs| && SameEntry(es[k], gs[j]);
      MatchIsIndexed(idx, gs, es[k], j);
    }
  }

  function Upto(n: nat): set<nat> { if n == 0 then {} else Upto(n - 1) + {n - 1} }

  lemma {:induction false} UptoCard(n: nat)
    ensures |Upto(n)| == n && forall x: nat :: x in Upto(n) <==> x < n
  {
    if n > 0 { UptoCard(n - 1); }
  }

  lemma {:induction false} SeqCard(p: seq<nat>, s: set<nat>)
    requires forall x :: x in s ==> x in p
    ensures |s| <= |p|
    decreases |p|
  {
    if p == [] {
      assert s == {};
    } else {
      SeqCard(p[1..], s - {p[0]});
    }
  }

  /** n positions, two of them the same, leave some position below n unreached. */
  lemma CollisionMisses(p: seq<nat>, a: nat, b: nat)
    requires a < b < |p| && p[a] == p[b]
    ensures exists x: nat :: x < |p| && x !in p
  {
    if forall x: nat :: x < |p| ==> x in p {
      var q := p[..b] + p[b + 1..];
      var s := Upto(|p|);
      UptoCard(|p|);
      forall x | x in s ensures x in q {
        assert x in p;
        var i :| 0 <= i < |p| && p[i] == x;
        if i < b { assert q[i] == x; } else if i > b { assert q[i - 1] == x; } else { assert q[a] == x; }
      }
      SeqCard(q, s);
      assert false;
    }
  }

  /** n different positions below n reach every position. */
  lemma InjectiveIsOnto(p: seq<nat>, x: nat)
    requires (forall i :: 0 <= i < |p| ==> p[i] < |p|) && forall i, j :: 0 <= i < j < |p| ==> p[i] != p[j]
    requires x < |p|
    ensures x in p
  {
    if x !in p {
      var s := set i | 0 <= i < |p| :: p[i];
      DistinctCard(p, s);
      var all := Upto(|p|);
      UptoCard(|p|);
      Smaller(s, all - {x});
    }
  }

  lemma Smaller(s: set<nat>, t: set<nat>)
    requires s <= t
    ensures |s| <= |t|
  {
    if s != {} {
      var x :| x in s;
      Smaller(s - {x}, t - {x});
    }
  }

  lemma {:induction false} DistinctCard(p: seq<nat>, s: set<nat>)
    requires forall i, j :: 0 <= i < j < |p| ==> p[i] != p[j]
    requires s == set i | 0 <= i < |p| :: p[i]
    ensures |s| == |p|
    decreases |p|
  {
    if p != [] {
      var q := p[1..];
      var t := set i | 0 <= i < |q| :: q[i];
      assert s == t + {p[0]} by {
        forall x | x in s ensures x in t + {p[0]} {
          var i :| 0 <= i < |p| && p[i] == x;
          if i > 0 { assert q[i - 1] == x; }
        }
        forall x | x in t ensures x in s {
          var i :| 0 <= i < |q| && q[i] == x;
          assert p[i + 1] == x;
        }
      }
      assert p[0] !in t;
      DistinctCard(q, t);
    }
  }

  function Where(idx: map<Code, nat>, e: Entry): nat {
    if Encode(e.key).Some? && Encode(e.key).value in idx then idx[Encode(e.key).value] else 0
  }

  /** Two entries that hit the same position cannot both be matched one to one. */
  lemma CollisionRefutes(idx: map<Code, nat>, es: seq<Entry>, gs: seq<Entry>, a: nat, b: nat)
    requires CleanEntries(es) && CleanEntries(gs) && Indexes(idx, gs) && |es| == |gs| && a < b < |es|
    requires Where(idx, es[a]) == Where(idx, es[b])
    ensures !SameMap(es, gs)
  {
    hide Encode, Same, Indexes, Where;
    if SameMap(es, gs) {
      var p := seq(|es|, i requires 0 <= i < |es| => Where(idx, es[i]));
      CollisionMisses(p, a, b);
      var j: nat :| j < |p| && j !in p;
      assert InLeft(es, gs[j]);
      var i :| 0 <= i < |es| && SameEntry(es[i], gs[j]);
      assert p[i] in p && p[i] != j;
      MatchIsIndexed(idx, gs, es[i], j);
      WhereIs(idx, es[i]);
    }
  }

  lemma WhereIs(idx: map<Code, nat>, e: Entry)
    requires Encode(e.key).Some? && Encode(e.key).value in idx
    ensures Where(idx, e) == idx[Encode(e.key).value]
  {
  }

  /** All entries hit different positions with equal values: the maps are the same. */
  lemma AllHit(idx: map<Code, nat>, es: seq<Entry>, gs: seq<Entry>)
    requires CleanEntries(es) && CleanEntries(gs) && Indexes(idx, gs) && |es| == |gs|
    requires forall i :: 0 <= i < |es| ==> HitAt(idx, es, gs, i)
    requires forall i, j :: 0 <= i < j < |es| ==> Where(idx, es[i]) != Where(idx, es[j])
    ensures SameMap(es, gs)
  {
    hide Encode, Same, Indexes, Where, SameEntry, CleanEntry;
    var p := seq(|es|, i requires 0 <= i < |es| => Where(idx, es[i]));
    forall i | 0 <= i < |es| ensures InRight(es[i], gs) && p[i] < |p| { assert HitAt(idx, es, gs, i); }
    forall j | 0 <= j < |gs| ensures InLeft(es, gs[j]) {
      InjectiveIsOnto(p, j);
      var i :| 0 <= i < |p| && p[i] == j;
      assert HitAt(idx, es, gs, i);
    }
  }

  // ----- the comparison -----

  method EqualAll(vs: seq<Value>, os: seq<Value>) returns (b: bool)
    requires CleanAll(vs) && CleanAll(os)
    ensures b == SameAll(vs, os)
    decreases SizeAll(vs) + SizeAll(os) + 1, 0
  {
    hide Same, Clean, SizeAll;
    if |vs| != |os| { return false; }
    for i := 0 to |vs|
      invariant forall k :: 0 <= k < i ==> Same(vs[k], os[k])
    {
      SizeAt(vs, i);
      SizeAt(os, i);
      var e := Equal(vs[i], os[i]);
      if !e { return false; }
    }
    return true;
  }

  method EqualFields(fs: seq<Field>, gs: seq<Field>) returns (b: bool)
    requires CleanFields(fs) && CleanFields(gs)
    ensures b == SameFields(fs, gs)
    decreases SizeFields(fs) + SizeFields(gs) + 1, 0
  {
    hide Same, Clean, SizeFields;
    if |fs| != |gs| { return false; }
    for i := 0 to |fs|
      invariant forall k :: 0 <= k < i ==> fs[k].name == gs[k].name && Same(fs[k].value, gs[k].value)
    {
      FieldAt(fs, i);
      FieldAt(gs, i);
      if fs[i].name != gs[i].name { return false; }
      var e := Equal(fs[i].value, gs[i].value);
      if !e { return false; }
    }
    return true;
  }

  /** mapContainsEntry: the container's entry is the left operand of each comparison. */
  method Contains(es: seq<Entry>, e: Entry) returns (b: bool)
    requires CleanEntries(es) && CleanEntry(e)
    ensures b == InLeft(es, e)
    decreases SizeEntries(es) + SizeEntry(e), 0
  {
    hide Same, SizeEntries;
    for i := 0 to |es|
      invariant forall k :: 0 <= k < i ==> !SameEntry(es[k], e)
    {
      assert CleanEntry(es[i]);
      EntryAt(es, i);
      SizePositive(es[i].key);
      SizePositive(es[i].value);
      SizePositive(e.key);
      SizePositive(e.value);
      hide Clean;
      var k := Equal(es[i].key, e.key);
      if k {
        var v := Equal(es[i].value, e.value);
        if v {
          assert SameEntry(es[i], e);
          return true;
        }
      }
    }
    return false;
  }

  lemma SizePositive(v: Value)
    ensures Size(v) >= 1
  {
  }

  lemma {:induction false} RightIsLeft(e: Entry, gs: seq<Entry>)
    requires CleanEntry(e) && CleanEntries(gs)
    ensures InRight(e, gs) <==> InLeft(gs, e)
  {
    hide SameEntry, CleanEntry;
    if InRight(e, gs) {
      var j :| 0 <= j < |gs| && SameEntry(e, gs[j]);
      EntrySym(e, gs[j]);
    }
    if InLeft(gs, e) {
      var j :| 0 <= j < |gs| && SameEntry(gs[j], e);
      EntrySym(gs[j], e);
    }
  }

  lemma SizeOfEntries(es: seq<Entry>, i: nat)
    requires i < |es|
    ensures SizeEntry(es[i]) <= SizeEntries(es)
  {
    EntryAt(es, i);
  }

  /** The fallback for duplicate or unhashable keys: containment both ways. */
  method EqualByScan(es: seq<Entry>, gs: seq<Entry>) returns (b: bool)
    requires CleanEntries(es) && CleanEntries(gs) && |es| == |gs|
    ensures b == SameMap(es, gs)
    decreases SizeEntries(es) + SizeEntries(gs), 1
  {
    hide InRight, InLeft, SizeEntries, SizeEntry, CleanEntry;
    for i := 0 to |es|
      invariant forall k :: 0 <= k < i ==> InRight(es[k], gs)
    {
      RightIsLeft(es[i], gs);
      SizeOfEntries(es, i);
      var c := Contains(gs, es[i]);
      if !c { return false; }
    }
    for j := 0 to |gs|
      invariant forall k :: 0 <= k < j ==> InLeft(es, gs[k])
    {
      SizeOfEntries(gs, j);
      var c := Contains(es, gs[j]);
      if !c { return false; }
    }
    return true;
  }

  /** The indexed comparison: every entry must hit a position of its own with an equal value. */
  method EqualByIndex(es: seq<Entry>, gs: seq<Entry>, idx: map<Code, nat>) returns (b: bool)
    requires CleanEntries(es) && CleanEntries(gs) && |es| == |gs| && Indexes(idx, gs)
    ensures b == SameMap(es, gs)
    decreases SizeEntries(es) + SizeEntries(gs), 0
  {
    hide Same, Encode, SizeEntries, SameMap, Size;
    var seen := seq(|gs|, _ => false);
    for i := 0 to |es|
      invariant |seen| == |gs|
      invariant forall k :: 0 <= k < i ==> HitAt(idx, es, gs, k)
      invariant forall k, l :: 0 <= k < l < i ==> Where(idx, es[k]) != Where(idx, es[l])
      invariant forall p :: 0 <= p < |gs| && seen[p] ==> exists k :: 0 <= k < i && Where(idx, es[k]) == p
      invariant forall k :: 0 <= k < i ==> Where(idx, es[k]) < |gs| && seen[Where(idx, es[k])]
    {
      var c := Encode(es[i].key);
      if c.None? || c.value !in idx {
        MissRefutes(idx, es, gs, i);
        return false;
      }
      var pos := idx[c.value];
      WhereIs(idx, es[i]);
      if seen[pos] {
        var k :| 0 <= k < i && Where(idx, es[k]) == pos;
        CollisionRefutes(idx, es, gs, k, i);
        return false;
      }
      assert CleanEntry(es[i]) && CleanEntry(gs[pos]);
      EntryAt(es, i);
      EntryAt(gs, pos);
      SizePositive(es[i].key);
      var e := Equal(es[i].value, gs[pos].value);
      if !e {
        MissRefutes(idx, es, gs, i);
        return false;
      }
      IndexedMatches(idx, gs, es[i]);
      seen := seen[pos := true];
    }
    AllHit(idx, es, gs);
    return true;
  }

  ghost predicate HitAt(idx: map<Code, nat>, es: seq<Entry>, gs: seq<Entry>, k: nat)
    requires CleanEntries(es) && CleanEntries(gs) && k < |es|
  {
    Where(idx, es[k]) < |gs| && SameEntry(es[k], gs[Where(idx, es[k])])
  }

  method EqualMaps(es: seq<Entry>, gs: seq<Entry>) returns (b: bool)
    requires CleanEntries(es) && CleanEntries(gs)
    ensures b == SameMap(es, gs)
    decreases SizeEntries(es) + SizeEntries(gs), 2
  {
    hide SizeEntries, InRight, InLeft;
    if |es| != |gs| { return false; }
    var idx, ok := BuildIndex(gs);
    if ok {
      b := EqualByIndex(es, gs, idx);
    } else {
      b := EqualByScan(es, gs);
    }
  }

  /** Value.Equal decides exactly Same. */
  method Equal(v: Value, o: Value) returns (b: bool)
    requires Clean(v) && Clean(o)
    ensures b == Same(v, o)
    decreases Size(v) + Size(o), 3
  {
    hide SameAll, SameFields, SameMap, CleanAll, CleanEntries, CleanFields, SizeAll, SizeFields, SizeEntries;
    match v
    case Lst(vs) =>
      if o.Lst? { b := EqualAll(vs, o.elems); } else { b := false; }
    case Map(es) =>
      if o.Map? { b := EqualMaps(es, o.entries); } else { b := false; }
    case Struct(id, fs) =>
      if o.Struct? && id == o.id { b := EqualFields(fs, o.fields); } else { b := false; }
    case Enum(id, x, fs) =>
      if o.Enum? && id == o.id && x == o.variant { b := EqualFields(fs, o.fields); } else { b := false; }
    case Object(ns, name, vs) =>
      if o.Object? && ns == o.ns && name == o.name { b := EqualAll(vs, o.inner); } else { b := false; }
    case Int(n) =>
      if o.Flt? {
        IntFloatIsExact(n, o.f);
        return CompareIntFloat(n, o.f) == 0;
      }
      return o.Int? && n == o.n;
    case Flt(f) =>
      if o.Int? {
        IntFloatIsExact(o.n, f);
        return CompareIntFloat(o.n, f) == 0;
      }
      return o.Flt? && Point(f) == Point(o.f);
    case _ =>
      return v == o;
  }
}
