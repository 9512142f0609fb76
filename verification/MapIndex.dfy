/**
 The map hash index. Value headers are copied freely and may share one index object
 and one backing array; an index is trusted only while its size equals the header's
 length. An upsert always leaves its own map right. It leaves every index exact and the keys
 of every other header where they were if and only if it does not append another key behind
 a longer header of the same array.
 */
module MapIndex {
  import opened Options
  import opened Equality
  import EqualLoop

  /** A map value: a slice (backing array and length) and perhaps an index. */
  datatype Header = Header(backing: nat, len: nat, index: Option<nat>)

  ghost predicate SameKeyAs(e: Entry, key: Value)
    requires CleanEntry(e) && Clean(key)
  {
    Same(e.key, key)
  }

  /** The linear scan: the first entry with an equal key, or -1. */
  ghost function Find(es: seq<Entry>, key: Value): (r: int)
    requires CleanEntries(es) && Clean(key)
    ensures -1 <= r < |es|
    ensures r >= 0 ==> SameKeyAs(es[r], key) && forall k :: 0 <= k < r ==> !SameKeyAs(es[k], key)
    ensures r < 0 ==> forall k :: 0 <= k < |es| ==> !SameKeyAs(es[k], key)
  {
    FindFrom(es, key, 0)
  }

  ghost function FindFrom(es: seq<Entry>, key: Value, i: nat): (r: int)
    requires CleanEntries(es) && Clean(key) && i <= |es|
    ensures r == -1 || i <= r < |es|
    ensures r >= 0 ==> SameKeyAs(es[r], key) && forall k :: i <= k < r ==> !SameKeyAs(es[k], key)
    ensures r < 0 ==> forall k :: i <= k < |es| ==> !SameKeyAs(es[k], key)
    decreases |es| - i
  {
    if i == |es| then -1 else if SameKeyAs(es[i], key) then i else FindFrom(es, key, i + 1)
  }

  /** The result is pinned down by what it says. */
  lemma FindIs(es: seq<Entry>, key: Value, r: int)
    requires CleanEntries(es) && Clean(key) && -1 <= r < |es|
    requires r >= 0 ==> SameKeyAs(es[r], key) && forall k :: 0 <= k < r ==> !SameKeyAs(es[k], key)
    requires r < 0 ==> forall k :: 0 <= k < |es| ==> !SameKeyAs(es[k], key)
    ensures Find(es, key) == r
  {
    hide SameKeyAs;
    var f := Find(es, key);
    if f >= 0 { assert SameKeyAs(es[f], key); }
    if r >= 0 { assert SameKeyAs(es[r], key); }
  }

  /** What an upsert means. */
  ghost function Upserted(es: seq<Entry>, key: Value, val: Value): seq<Entry>
    requires CleanEntries(es) && Clean(key)
  {
    var r := Find(es, key);
    if r >= 0 then es[r := Entry(es[r].key, val)] else es + [Entry(key, val)]
  }

  /** Every key of the header is in the index, at its own position. */
  predicate Covers(x: map<Code, nat>, es: seq<Entry>) {
    forall k :: 0 <= k < |es| ==> Encode(es[k].key).Some? && Encode(es[k].key).value in x && x[Encode(es[k].key).value] == k
  }

  /** Positions are below the index's size, and no two codes share one. */
  predicate Compact(x: map<Code, nat>) {
    (forall c :: c in x ==> x[c] < |x|) && forall c, d :: c in x && d in x && x[c] == x[d] ==> c == d
  }

  /** An index of the header's own size holds exactly its keys. */
  lemma UsableIsExact(x: map<Code, nat>, es: seq<Entry>, c: Code)
    requires Covers(x, es) && Compact(x) && |x| == |es| && c in x
    ensures Encode(es[x[c]].key) == Some(c)
  {
    var k := x[c];
    assert Encode(es[k].key).Some? && x[Encode(es[k].key).value] == k;
  }

  /** What the index answers for a key's code. */
  function Answer(x: map<Code, nat>, c: Code): int { if c in x then x[c] else -1 }

  /** A hit names the first entry with that key; a miss means there is none. */
  lemma IndexFinds(x: map<Code, nat>, es: seq<Entry>, key: Value, c: Code)
    requires CleanEntries(es) && Clean(key) && Encode(key) == Some(c)
    requires Covers(x, es) && Compact(x) && |x| == |es|
    ensures Find(es, key) == if c in x then x[c] else -1
  {
    hide Encode, Find, FindFrom;
    forall k | 0 <= k < |es| ensures SameKeyAs(es[k], key) <==> Encode(es[k].key) == Some(c) {
      assert CleanEntry(es[k]);
      EncodeIsEquality(es[k].key, key);
    }
    if c in x { UsableIsExact(x, es, c); }
    hide SameKeyAs;
    FindIs(es, key, if c in x then x[c] else -1);
  }

  /** Every key is hashable and no two are equal: what buildMapIndex asks for. */
  predicate Indexable(es: seq<Entry>) {
    && (forall k :: 0 <= k < |es| ==> Encode(es[k].key).Some?)
    && forall j, k :: 0 <= j < k < |es| ==> Encode(es[j].key) != Encode(es[k].key)
  }

  // ----- a store of maps -----

  /** Backing arrays with their spare capacity, map headers, index objects, and an unused id. */
  datatype Store = Store(slots: map<nat, seq<Entry>>, headers: map<nat, Header>, indexes: map<nat, map<Code, nat>>, next: nat)

  predicate SliceOk(s: Store, h: Header) {
    h.backing in s.slots && h.len <= |s.slots[h.backing]| && (h.index.Some? ==> h.index.value in s.indexes)
  }

  /** The header's index, if any, has its keys at their positions. */
  predicate Indexed(s: Store, h: Header)
    requires SliceOk(s, h)
  {
    h.index.Some? ==> Covers(s.indexes[h.index.value], s.slots[h.backing][..h.len])
  }

  /** What no operation breaks. */
  ghost predicate Shaped(s: Store) {
    && (forall h :: h in s.headers ==> SliceOk(s, s.headers[h]))
    && (forall i :: i in s.indexes ==> i < s.next && Compact(s.indexes[i]))
    && (forall b :: b in s.slots ==> b < s.next && CleanEntries(s.slots[b]))
  }

  /** Every index is exact for the keys of every header that has it. */
  ghost predicate Valid(s: Store) {
    Shaped(s) && forall h :: h in s.headers ==> Indexed(s, s.headers[h])
  }

  function Entries(s: Store, h: nat): seq<Entry>
    requires h in s.headers && SliceOk(s, s.headers[h])
  {
    s.slots[s.headers[h].backing][..s.headers[h].len]
  }

  /** mapIndexUsable. */
  predicate Usable(s: Store, h: nat)
    requires h in s.headers && SliceOk(s, s.headers[h])
  {
    s.headers[h].index.Some? && |s.indexes[s.headers[h].index.value]| == s.headers[h].len
  }

  /** Whether append finds a spare slot after h's slice. */
  predicate Roomy(s: Store, h: nat)
    requires h in s.headers && SliceOk(s, s.headers[h])
  {
    s.headers[h].len < |s.slots[s.headers[h].backing]|
  }

  /** An append through h lands past every header of its backing, or in a new one. */
  predicate AtFrontier(s: Store, h: nat)
    requires h in s.headers && SliceOk(s, s.headers[h])
  {
    !Roomy(s, h) || forall g :: g in s.headers && s.headers[g].backing == s.headers[h].backing ==> s.headers[g].len <= s.headers[h].len
  }

  /** An append of `key` through h moves no other header's keys. */
  predicate Harmless(s: Store, h: nat, key: Value)
    requires h in s.headers && SliceOk(s, s.headers[h])
  {
    AtFrontier(s, h) || s.slots[s.headers[h].backing][s.headers[h].len].key == key
  }

  lemma CleanOf(s: Store, h: nat)
    requires Shaped(s) && h in s.headers
    ensures SliceOk(s, s.headers[h]) && CleanEntries(Entries(s, h))
  {
    hide CleanEntry, Compact;
  }

  /** Headers other than h are the same and show the same keys. */
  ghost predicate OthersKept(s: Store, s': Store, h: nat)
    requires Shaped(s) && Shaped(s')
  {
    && s'.headers.Keys == s.headers.Keys
    && forall g :: g in s.headers && g != h ==> s'.headers[g] == s.headers[g] && Keys(Entries(s', g)) == Keys(Entries(s, g))
  }

  /** What an upsert through h should leave: the pure result there, every index exact, and no other header's keys moved. */
  ghost predicate Upserts(s: Store, s': Store, h: nat, key: Value, val: Value)
    requires Shaped(s) && h in s.headers && CleanEntries(Entries(s, h)) && Clean(key)
  {
    Valid(s') && OthersKept(s, s', h) && Entries(s', h) == Upserted(Entries(s, h), key, val)
  }

  /** What it leaves in every case: its own map is right, and its index exact. */
  ghost predicate OwnMapRight(s: Store, s': Store, h: nat, key: Value, val: Value)
    requires Shaped(s) && h in s.headers && CleanEntries(Entries(s, h)) && Clean(key)
  {
    && Shaped(s') && h in s'.headers && s'.headers == s.headers[h := s'.headers[h]] && Indexed(s', s'.headers[h])
    && Entries(s', h) == Upserted(Entries(s, h), key, val)
    && forall i :: i in s.indexes && s'.headers[h].index != Some(i) ==> i in s'.indexes && s'.indexes[i] == s.indexes[i]
  }

  /** Where it leaves it: the same array while there is room, else a new one with `spare` slots more. */
  ghost predicate Placed(s: Store, s': Store, h: nat, spare: nat)
    requires h in s.headers && SliceOk(s, s.headers[h]) && h in s'.headers && SliceOk(s', s'.headers[h])
  {
    if Roomy(s, h) then s'.headers[h].backing == s.headers[h].backing
    else |s'.slots[s'.headers[h].backing]| == s'.headers[h].len + spare
  }

  // ----- what the single writes do -----

  /** Go's append with room to spare: the slot after the slice is overwritten. */
  function Overwrite(s: Store, h: nat, e: Entry): Store
    requires h in s.headers && SliceOk(s, s.headers[h]) && Roomy(s, h)
  {
    var hd := s.headers[h];
    s.(slots := s.slots[hd.backing := s.slots[hd.backing][hd.len := e]], headers := s.headers[h := Header(hd.backing, hd.len + 1, None)])
  }

  /** Go's append without room: the entries move to a new array. */
  function Regrow(s: Store, h: nat, e: Entry, spare: nat): Store
    requires h in s.headers && SliceOk(s, s.headers[h])
  {
    s.(slots := s.slots[s.next := Entries(s, h) + [e] + seq(spare, _ => e)],
       headers := s.headers[h := Header(s.next, s.headers[h].len + 1, None)], next := s.next + 1)
  }

  function Appended(s: Store, h: nat, e: Entry, spare: nat): Store
    requires h in s.headers && SliceOk(s, s.headers[h])
  {
    if Roomy(s, h) then Overwrite(s, h, e) else Regrow(s, h, e, spare)
  }

  lemma OverwriteShaped(s: Store, h: nat, e: Entry)
    requires Valid(s) && h in s.headers && CleanEntry(e) && Roomy(s, h)
    ensures Shaped(Overwrite(s, h, e)) && Entries(Overwrite(s, h, e), h) == Entries(s, h) + [e]
  {
    hide Encode, Clean, Covers, Compact;
    PrefixKept(s.slots[s.headers[h].backing], s.headers[h].len, e);
  }

  /** One other header's view of the overwritten slot. */
  lemma OverwriteSeen(s: Store, h: nat, e: Entry, g: nat)
    requires Valid(s) && h in s.headers && CleanEntry(e) && Roomy(s, h) && g in s.headers && g != h
    ensures var s' := Overwrite(s, h, e); SliceOk(s', s.headers[g]) && s'.headers[g] == s.headers[g]
    ensures var s', n := Overwrite(s, h, e), s.headers[h].len;
            Keys(Entries(s', g)) == Keys(Entries(s, g)) <==>
              s.headers[g].backing != s.headers[h].backing || s.headers[g].len <= n || e.key == s.slots[s.headers[h].backing][n].key
    ensures Keys(Entries(Overwrite(s, h, e), g)) == Keys(Entries(s, g)) ==> Indexed(Overwrite(s, h, e), s.headers[g])
  {
    hide Encode, Clean, Covers, Compact, CleanEntries, CleanEntry, Keys;
    var s' := Overwrite(s, h, e);
    var b := s.headers[g].backing;
    SlotRead(s.slots[b], s'.slots[b], s.headers[g].len, s.headers[h].len, e);
    if s.headers[g].index.Some? && Keys(Entries(s', g)) == Keys(Entries(s, g)) {
      KeysCover(Entries(s, g), Entries(s', g), s.indexes[s.headers[g].index.value]);
    }
  }

  lemma OverwriteKeeps(s: Store, h: nat, e: Entry)
    requires Valid(s) && h in s.headers && CleanEntry(e) && Roomy(s, h) && Shaped(Overwrite(s, h, e))
    ensures if Harmless(s, h, e.key) then Valid(Overwrite(s, h, e)) && OthersKept(s, Overwrite(s, h, e), h)
            else !OthersKept(s, Overwrite(s, h, e), h)
  {
    hide Encode, Clean, Covers, Compact, CleanEntries, CleanEntry, Keys;
    forall g | g in s.headers && g != h
      ensures var s', n := Overwrite(s, h, e), s.headers[h].len;
              Keys(Entries(s', g)) == Keys(Entries(s, g)) <==>
                s.headers[g].backing != s.headers[h].backing || s.headers[g].len <= n || e.key == s.slots[s.headers[h].backing][n].key
      ensures Keys(Entries(Overwrite(s, h, e), g)) == Keys(Entries(s, g)) ==> Indexed(Overwrite(s, h, e), s.headers[g])
    {
      OverwriteSeen(s, h, e, g);
    }
    if !Harmless(s, h, e.key) {
      var g :| g in s.headers && s.headers[g].backing == s.headers[h].backing && s.headers[g].len > s.headers[h].len;
      assert g != h;
    }
  }

  lemma RegrowKeeps(s: Store, h: nat, e: Entry, spare: nat)
    requires Valid(s) && h in s.headers && CleanEntry(e)
    ensures Valid(Regrow(s, h, e, spare)) && Entries(Regrow(s, h, e, spare), h) == Entries(s, h) + [e]
    ensures OthersKept(s, Regrow(s, h, e, spare), h)
  {
    hide Encode, Clean, Covers, Compact, Keys;
    CleanOf(s, h);
  }

  /** An append keeps the store exactly when it is harmless. */
  lemma AppendedKeeps(s: Store, h: nat, e: Entry, spare: nat)
    requires Valid(s) && h in s.headers && CleanEntry(e)
    ensures var s' := Appended(s, h, e, spare);
            Shaped(s') && h in s'.headers && Entries(s', h) == Entries(s, h) + [e] && Placed(s, s', h, spare)
    ensures var s' := Appended(s, h, e, spare);
            if Harmless(s, h, e.key) then Valid(s') && OthersKept(s, s', h) else !OthersKept(s, s', h)
  {
    hide CleanEntry, CleanEntries, OthersKept, Keys, Covers, Compact;
    if Roomy(s, h) {
      OverwriteShaped(s, h, e);
      OverwriteKeeps(s, h, e);
    } else {
      RegrowKeeps(s, h, e, spare);
    }
  }

  /** The code of h's last key enters an index that h goes on to use. */
  function Entered(s: Store, h: nat, i: nat, c: Code): Store
    requires h in s.headers && i in s.indexes && s.headers[h].len >= 1
  {
    s.(indexes := s.indexes[i := s.indexes[i][c := s.headers[h].len - 1]], headers := s.headers[h := s.headers[h].(index := Some(i))])
  }

  lemma EnteredKeeps(s: Store, h: nat, i: nat, c: Code)
    requires Shaped(s) && h in s.headers && s.headers[h].len >= 1 && i in s.indexes && |s.indexes[i]| == s.headers[h].len - 1
    requires Covers(s.indexes[i], Entries(s, h)[..s.headers[h].len - 1]) && c !in s.indexes[i]
    requires Encode(Entries(s, h)[s.headers[h].len - 1].key) == Some(c)
    ensures var s' := Entered(s, h, i, c);
            Shaped(s') && Usable(s', h) && Indexed(s', s'.headers[h]) && Entries(s', h) == Entries(s, h) && (Valid(s) ==> Valid(s'))
  {
    hide Clean, Encode, CleanEntries;
    var x, n := s.indexes[i], s.headers[h].len - 1;
    assert Entries(s, h) == Entries(s, h)[..n] + [Entries(s, h)[n]];
    IndexGrows(x, Entries(s, h)[..n], Entries(s, h)[n], c);
    NewKeyCard(x, c, n);
    forall g | g in s.headers && s.headers[g].index == Some(i) && Indexed(s, s.headers[g])
      ensures Covers(x[c := n], s.slots[s.headers[g].backing][..s.headers[g].len])
    {
      CoversMore(x, s.slots[s.headers[g].backing][..s.headers[g].len], c, n);
    }
    hide Covers, Compact;
  }

  /** A value overwritten in place. */
  function Set(s: Store, h: nat, pos: nat, val: Value): Store
    requires h in s.headers && SliceOk(s, s.headers[h]) && pos < s.headers[h].len
  {
    var b := s.headers[h].backing;
    s.(slots := s.slots[b := s.slots[b][pos := Entry(s.slots[b][pos].key, val)]])
  }

  /** Every header over that slot sees the value; no key moves. */
  lemma SetKeeps(s: Store, h: nat, pos: nat, val: Value)
    requires Valid(s) && h in s.headers && pos < s.headers[h].len && Clean(val)
    ensures var s' := Set(s, h, pos, val);
            Valid(s') && OthersKept(s, s', h) && Entries(s', h) == Entries(s, h)[pos := Entry(Entries(s, h)[pos].key, val)]
  {
    hide Encode, Clean, Compact;
    var b := s.headers[h].backing;
    var a, a' := s.slots[b], s.slots[b][pos := Entry(s.slots[b][pos].key, val)];
    assert CleanEntries(a') by { CleanValue(a, pos, val); }
    forall g | g in s.headers && s.headers[g].backing == b
      ensures Keys(a'[..s.headers[g].len]) == Keys(a[..s.headers[g].len])
      ensures s.headers[g].index.Some? ==> Covers(s.indexes[s.headers[g].index.value], a'[..s.headers[g].len])
    {
      SameKeysCover(a[..s.headers[g].len], a'[..s.headers[g].len],
                    if s.headers[g].index.Some? then s.indexes[s.headers[g].index.value] else map[]);
    }
    hide Covers, CleanEntries, Keys;
  }

  // ----- what an upsert amounts to -----

  ghost predicate Searched(s: Store, h: nat, key: Value)
    requires Shaped(s) && h in s.headers && CleanEntries(Entries(s, h)) && Clean(key)
  {
    Find(Entries(s, h), key) >= 0 || Harmless(s, h, key)
  }

  /** The result of one upsert: the header's own map is right, the rest exactly when the write was harmless. */
  ghost predicate Upserting(s: Store, s': Store, h: nat, key: Value, val: Value, spare: nat)
    requires Shaped(s) && h in s.headers && CleanEntries(Entries(s, h)) && Clean(key)
  {
    && OwnMapRight(s, s', h, key, val) && (Upserts(s, s', h, key, val) <==> Searched(s, h, key))
    && (Find(Entries(s, h), key) < 0 ==> Placed(s, s', h, spare))
  }

  lemma UpsertingMeans(s: Store, s': Store, h: nat, key: Value, val: Value, spare: nat)
    requires Shaped(s) && h in s.headers && CleanEntries(Entries(s, h)) && Clean(key) && Upserting(s, s', h, key, val, spare)
    ensures OwnMapRight(s, s', h, key, val) && Shaped(s') && h in s'.headers && SliceOk(s', s'.headers[h])
    ensures Upserts(s, s', h, key, val) <==>
              || Find(Entries(s, h), key) >= 0 || AtFrontier(s, h) || s.slots[s.headers[h].backing][s.headers[h].len].key == key
    ensures Upserts(s, s', h, key, val) <==> Searched(s, h, key)
    ensures Find(Entries(s, h), key) < 0 ==> Placed(s, s', h, spare)
  {
    hide Find, FindFrom, Clean, CleanEntries, Upserted, AtFrontier, OthersKept, Compact;
  }

  lemma SetUpserts(s: Store, h: nat, key: Value, val: Value, spare: nat)
    requires Valid(s) && h in s.headers && Clean(key) && Clean(val) && CleanEntries(Entries(s, h))
    requires Find(Entries(s, h), key) >= 0
    ensures Upserting(s, Set(s, h, Find(Entries(s, h), key), val), h, key, val, spare)
  {
    hide Encode, Find, FindFrom, Clean, Covers, Compact, CleanEntries, Keys, Harmless;
    SetKeeps(s, h, Find(Entries(s, h), key), val);
  }

  lemma AppendUpserts(s: Store, h: nat, key: Value, val: Value, spare: nat)
    requires Valid(s) && h in s.headers && Clean(key) && Clean(val) && CleanEntries(Entries(s, h))
    requires Find(Entries(s, h), key) < 0
    ensures Upserting(s, Appended(s, h, Entry(key, val), spare), h, key, val, spare)
  {
    hide Encode, Find, FindFrom, Clean, Covers, Compact, CleanEntries, Keys, Harmless, OthersKept;
    CleanPair(key, val);
    AppendedKeeps(s, h, Entry(key, val), spare);
  }

  lemma EnterUpserts(s: Store, h: nat, key: Value, val: Value, spare: nat, c: Code)
    requires Valid(s) && h in s.headers && Clean(key) && Clean(val) && CleanEntries(Entries(s, h))
    requires Find(Entries(s, h), key) < 0 && Encode(key) == Some(c) && Usable(s, h) && c !in s.indexes[s.headers[h].index.value]
    ensures var t := Appended(s, h, Entry(key, val), spare); h in t.headers && t.headers[h].len >= 1
    ensures var s' := Entered(Appended(s, h, Entry(key, val), spare), h, s.headers[h].index.value, c);
            Upserting(s, s', h, key, val, spare) && Usable(s', h)
  {
    hide Encode, Find, FindFrom, Clean, Covers, Compact, CleanEntries, Keys, Harmless, OthersKept;
    var t := Appended(s, h, Entry(key, val), spare);
    CleanPair(key, val);
    AppendedKeeps(s, h, Entry(key, val), spare);
    assert Entries(t, h)[..s.headers[h].len] == Entries(s, h);
    EnteredKeeps(t, h, s.headers[h].index.value, c);
    KeysUntouched(s, t, h, s.headers[h].index.value, c);
  }

  lemma KeysUntouched(s: Store, t: Store, h: nat, i: nat, c: Code)
    requires Shaped(s) && Shaped(t) && h in t.headers && i in t.indexes && t.headers[h].len >= 1 && Shaped(Entered(t, h, i, c))
    ensures OthersKept(s, Entered(t, h, i, c), h) <==> OthersKept(s, t, h)
  {
    hide Shaped, Keys;
  }

  /** Only h's index object changed, and it is new. */
  ghost predicate Reindexed(s: Store, t: Store, h: nat)
    requires h in s.headers
  {
    && t.slots == s.slots && h in t.headers && t.headers == s.headers[h := s.headers[h].(index := t.headers[h].index)]
    && (t.headers[h].index.Some? ==> t.headers[h].index.value !in s.indexes)
    && forall i :: i in s.indexes ==> i in t.indexes && t.indexes[i] == s.indexes[i]
  }

  lemma SameFrontier(s: Store, t: Store, h: nat, key: Value)
    requires Shaped(s) && Shaped(t) && h in s.headers && Reindexed(s, t, h)
    ensures Entries(t, h) == Entries(s, h) && (Roomy(t, h) <==> Roomy(s, h)) && (Harmless(t, h, key) <==> Harmless(s, h, key))
  {
    hide CleanEntries, Compact;
    assert t.headers.Keys == s.headers.Keys;
    assert forall g :: g in s.headers ==> t.headers[g].backing == s.headers[g].backing && t.headers[g].len == s.headers[g].len;
    assert AtFrontier(t, h) <==> AtFrontier(s, h);
  }

  lemma SameOthers(s: Store, t: Store, s': Store, h: nat)
    requires Shaped(s) && Shaped(t) && Shaped(s') && h in s.headers && Reindexed(s, t, h)
    ensures OthersKept(t, s', h) <==> OthersKept(s, s', h)
  {
    hide CleanEntries, Compact, Keys;
    assert forall g :: g in s.headers && g != h ==> Entries(t, g) == Entries(s, g);
  }

  lemma SameOwn(s: Store, t: Store, s': Store, h: nat, key: Value, val: Value)
    requires Shaped(s) && Shaped(t) && h in s.headers && Reindexed(s, t, h) && Clean(key) && CleanEntries(Entries(s, h))
    requires Entries(t, h) == Entries(s, h) && OwnMapRight(t, s', h, key, val)
    ensures OwnMapRight(s, s', h, key, val)
  {
    hide Shaped, CleanEntries, Indexed, Upserted, Entries, Clean;
    assert s.headers[h := s'.headers[h]] == t.headers[h := s'.headers[h]];
    forall i | i in s.indexes && s'.headers[h].index != Some(i)
      ensures i in s'.indexes && s'.indexes[i] == s.indexes[i]
    {
      assert i in t.indexes && t.indexes[i] == s.indexes[i];
    }
  }

  lemma ReindexedUpserts(s: Store, t: Store, s': Store, h: nat, key: Value, val: Value, spare: nat)
    requires Valid(s) && Valid(t) && h in s.headers && Reindexed(s, t, h) && Clean(key) && CleanEntries(Entries(s, h))
    requires CleanEntries(Entries(t, h)) && Upserting(t, s', h, key, val, spare)
    ensures Upserting(s, s', h, key, val, spare)
  {
    hide Find, FindFrom, Clean, CleanEntries, Harmless, OthersKept, Upserts, Upserting, OwnMapRight, Placed, Compact, Covers;
    SameFrontier(s, t, h, key);
    UpsertingMeans(t, s', h, key, val, spare);
    SameOwn(s, t, s', h, key, val);
    SameUpserts(s, t, s', h, key, val);
    SamePlace(s, t, s', h, spare);
    UpsertingIs(s, s', h, key, val, spare);
  }

  lemma UpsertingIs(s: Store, s': Store, h: nat, key: Value, val: Value, spare: nat)
    requires Shaped(s) && h in s.headers && CleanEntries(Entries(s, h)) && Clean(key)
    requires OwnMapRight(s, s', h, key, val) && (Upserts(s, s', h, key, val) <==> Searched(s, h, key))
    requires Find(Entries(s, h), key) < 0 ==> Placed(s, s', h, spare)
    ensures Upserting(s, s', h, key, val, spare)
  {
    hide Find, FindFrom, Clean, CleanEntries, Upserts, Searched, OwnMapRight, Placed;
  }

  lemma SamePlace(s: Store, t: Store, s': Store, h: nat, spare: nat)
    requires Shaped(s) && Shaped(t) && h in s.headers && Reindexed(s, t, h) && h in s'.headers && SliceOk(s', s'.headers[h])
    ensures Placed(t, s', h, spare) <==> Placed(s, s', h, spare)
  {
    hide CleanEntries, Compact;
  }

  lemma SameUpserts(s: Store, t: Store, s': Store, h: nat, key: Value, val: Value)
    requires Shaped(s) && Shaped(t) && Shaped(s') && h in s.headers && Reindexed(s, t, h)
    requires CleanEntries(Entries(s, h)) && Clean(key) && Entries(t, h) == Entries(s, h)
    ensures Upserts(t, s', h, key, val) <==> Upserts(s, s', h, key, val)
  {
    hide Find, FindFrom, Clean, CleanEntries, Upserted, OthersKept, Indexed, Compact;
    SameOthers(s, t, s', h);
  }

  class MapStore {
    var slots: map<nat, seq<Entry>>
    var headers: map<nat, Header>
    var indexes: map<nat, map<Code, nat>>
    var next: nat

    function Now(): Store
      reads this
    {
      Store(slots, headers, indexes, next)
    }

    constructor ()
      ensures Now() == Store(map[], map[], map[], 0) && Valid(Now())
    {
      slots, headers, indexes, next := map[], map[], map[], 0;
    }

    /** A new empty map. */
    method NewMap(g: nat)
      requires Valid(Now()) && g !in headers
      modifies this`slots, this`headers, this`next
      ensures Valid(Now()) && headers == old(headers)[g := Header(old(next), 0, None)] && slots == old(slots)[old(next) := []]
    {
      hide Encode, Clean, Covers, Compact;
      slots := slots[next := []];
      headers := headers[g := Header(next, 0, None)];
      next := next + 1;
    }

    /** A struct copy of a header: same slice, same index object. */
    method Share(h: nat, g: nat)
      requires Valid(Now()) && h in headers && g !in headers
      modifies this`headers
      ensures Valid(Now()) && headers == old(headers)[g := old(headers[h])]
    {
      hide Encode, Clean, Covers, Compact, CleanEntries;
      headers := headers[g := headers[h]];
    }

    /** LookupKey: a usable index is trusted; otherwise the map is scanned. */
    method LookupKey(h: nat, key: Value) returns (pos: int)
      requires Shaped(Now()) && h in headers && Clean(key)
      ensures CleanEntries(Entries(Now(), h)) && (Valid(Now()) ==> pos == Find(Entries(Now(), h), key))
      ensures pos == if Encode(key).Some? && Usable(Now(), h) then Answer(indexes[headers[h].index.value], Encode(key).value)
                     else Find(Entries(Now(), h), key)
    {
      hide Encode, Find, FindFrom, SameKeyAs, Clean, Covers, Compact, CleanEntries;
      CleanOf(Now(), h);
      var c := Encode(key);
      if c.Some? && Usable(Now(), h) {
        var x := indexes[headers[h].index.value];
        if Covers(x, Entries(Now(), h)) { IndexFinds(x, Entries(Now(), h), key, c.value); }
        return Answer(x, c.value);
      }
      pos := ScanFor(Entries(Now(), h), key);
    }

    /** buildMapIndex: a fresh, exact index, or none exactly when a key is unhashable or repeated. */
    method BuildMapIndex(h: nat)
      requires Valid(Now()) && h in headers
      modifies this`headers, this`indexes, this`next
      ensures Valid(Now()) && Reindexed(old(Now()), Now(), h)
      ensures headers[h].index.Some? <==> Indexable(Entries(Now(), h))
      ensures headers[h].index.Some? ==> Usable(Now(), h)
    {
      hide Encode, Clean, Covers, Compact, CleanEntries, Indexable;
      var x, ok := IndexOf(Entries(Now(), h));
      if ok {
        indexes := indexes[next := x];
        headers := headers[h := headers[h].(index := Some(next))];
        next := next + 1;
      } else {
        headers := headers[h := headers[h].(index := None)];
      }
    }

    method SetValue(h: nat, pos: nat, val: Value)
      requires h in headers && SliceOk(Now(), headers[h]) && pos < headers[h].len
      modifies this`slots
      ensures Now() == Set(old(Now()), h, pos, val)
    {
      var b := headers[h].backing;
      slots := slots[b := slots[b][pos := Entry(slots[b][pos].key, val)]];
    }

    method Append(h: nat, e: Entry, spare: nat)
      requires h in headers && SliceOk(Now(), headers[h])
      modifies this`slots, this`headers, this`next
      ensures Now() == Appended(old(Now()), h, e, spare) && h in headers && headers[h].index.None?
    {
      var hd := headers[h];
      if hd.len < |slots[hd.backing]| {
        slots := slots[hd.backing := slots[hd.backing][hd.len := e]];
        headers := headers[h := Header(hd.backing, hd.len + 1, None)];
      } else {
        slots := slots[next := slots[hd.backing][..hd.len] + [e] + seq(spare, _ => e)];
        headers := headers[h := Header(next, hd.len + 1, None)];
        next := next + 1;
      }
    }

    method UpsertByIndex(h: nat, key: Value, val: Value, spare: nat)
      requires Valid(Now()) && h in headers && Clean(key) && Clean(val) && CleanEntries(Entries(Now(), h))
      requires Usable(Now(), h) && Encode(key).Some?
      modifies this
      ensures Upserting(old(Now()), Now(), h, key, val, spare)
      ensures Usable(Now(), h) && headers[h].index == old(headers[h].index)
    {
      hide Encode, Find, FindFrom, Clean, Covers, Compact, CleanEntries, Upserting, Appended;
      var i := headers[h].index.value;
      var c := Encode(key).value;
      IndexFinds(indexes[i], Entries(Now(), h), key, c);
      if c in indexes[i] {
        SetUpserts(Now(), h, key, val, spare);
        SetValue(h, indexes[i][c], val);
      } else {
        EnterUpserts(Now(), h, key, val, spare, c);
        Append(h, Entry(key, val), spare);
        indexes := indexes[i := indexes[i][c := headers[h].len - 1]];
        headers := headers[h := headers[h].(index := Some(i))];
      }
    }

    method UpsertByScan(h: nat, key: Value, val: Value, spare: nat)
      requires Valid(Now()) && h in headers && Clean(key) && Clean(val) && CleanEntries(Entries(Now(), h))
      modifies this
      ensures Upserting(old(Now()), Now(), h, key, val, spare)
      ensures headers[h].index == old(headers[h].index) || headers[h].index.None?
    {
      hide Encode, Find, FindFrom, Clean, Covers, Compact, CleanEntries, Upserting, Appended;
      var pos := ScanFor(Entries(Now(), h), key);
      if pos >= 0 {
        SetUpserts(Now(), h, key, val, spare);
        SetValue(h, pos, val);
      } else {
        AppendUpserts(Now(), h, key, val, spare);
        Append(h, Entry(key, val), spare);
      }
    }

    /**
     UpsertKey. The map it is called on always ends right; the whole store does exactly when the
     key was there, or the append lands past every header of the array, or rewrites the same key.
     */
    method UpsertKey(h: nat, key: Value, val: Value, spare: nat)
      requires Valid(Now()) && h in headers && Clean(key) && Clean(val) && CleanEntries(Entries(Now(), h))
      modifies this
      ensures OwnMapRight(old(Now()), Now(), h, key, val)
      ensures Upserts(old(Now()), Now(), h, key, val) <==>
                old(|| Find(Entries(Now(), h), key) >= 0 || AtFrontier(Now(), h)
                    || slots[headers[h].backing][headers[h].len].key == key)
      ensures Find(old(Entries(Now(), h)), key) < 0 ==> Placed(old(Now()), Now(), h, spare)
      ensures Encode(key).Some? && Indexable(old(Entries(Now(), h))) ==> Usable(Now(), h)
      ensures Encode(key).Some? && old(Usable(Now(), h)) ==> headers[h].index == old(headers[h].index)
      ensures Encode(key).Some? && old(!Usable(Now(), h)) && headers[h].index.Some? ==> headers[h].index.value !in old(indexes)
    {
      hide Encode, Find, FindFrom, Clean, Covers, Compact, CleanEntries, Indexable, OthersKept, Upserted, AtFrontier, Placed, Indexed, Shaped, OwnMapRight, Entries, Upserting, Upserts;
      ghost var s := Now();
      CleanOf(Now(), h);
      if Encode(key).Some? && !Usable(Now(), h) {
        BuildMapIndex(h);
        SameFrontier(s, Now(), h, key);
      }
      ghost var t := Now();
      CleanOf(Now(), h);
      if Encode(key).Some? && Usable(Now(), h) {
        UpsertByIndex(h, key, val, spare);
      } else {
        UpsertByScan(h, key, val, spare);
      }
      if t != s { ReindexedUpserts(s, t, Now(), h, key, val, spare); }
      UpsertingMeans(s, Now(), h, key, val, spare);
    }
  }

  // ----- a run that goes wrong -----

  predicate StringKeys(es: seq<Entry>, keys: seq<string>) {
    && |es| == |keys| && (forall k :: 0 <= k < |es| ==> es[k] == Entry(Str(keys[k]), Null))
    && forall j, k :: 0 <= j < k < |keys| ==> keys[j] != keys[k]
  }

  lemma StringsFind(es: seq<Entry>, keys: seq<string>, s: string)
    requires StringKeys(es, keys) && s !in keys
    ensures CleanEntries(es) && Find(es, Str(s)) < 0 && Indexable(es)
    ensures Upserted(es, Str(s), Null) == es + [Entry(Str(s), Null)] && StringKeys(es + [Entry(Str(s), Null)], keys + [s])
  {
    hide Find, FindFrom;
    assert forall k :: 0 <= k < |es| ==> CleanEntry(es[k]);
    FindIs(es, Str(s), -1);
  }

  /** Header 0 holds a and b and trusts an index; header 1 holds a in the same array and trusts none. */
  ghost predicate Forked(m: MapStore)
    reads m
  {
    && Valid(m.Now()) && m.headers.Keys == {0, 1} && m.headers[0].backing == m.headers[1].backing
    && m.headers[0].len == 2 && m.headers[1].len == 1
    && StringKeys(Entries(m.Now(), 0), ["a", "b"]) && Usable(m.Now(), 0) && !Usable(m.Now(), 1)
  }

  /** A new map with one key, in an array with spare slots. */
  method One(spare: nat) returns (m: MapStore)
    ensures fresh(m) && Valid(m.Now()) && m.headers.Keys == {0} && m.headers[0].len == 1
    ensures StringKeys(Entries(m.Now(), 0), ["a"]) && Usable(m.Now(), 0) && |m.slots[m.headers[0].backing]| == 1 + spare
  {
    hide Encode, Find, FindFrom, Clean, Covers, Compact, CleanEntries, Upserted, StringKeys, Indexable, OthersKept;
    m := new MapStore();
    m.NewMap(0);
    NoKeys();
    StringsFind(Entries(m.Now(), 0), [], "a");
    StringsAreClean("a");
    m.UpsertKey(0, Str("a"), Null, spare);
    assert [] + ["a"] == ["a"];
  }

  /** One map, a copy of its header, and an append through the original. */
  method Fork(spare: nat) returns (m: MapStore)
    requires spare > 0
    ensures fresh(m) && Forked(m)
  {
    hide Encode, Find, FindFrom, Clean, Covers, Compact, CleanEntries, Upserted, StringKeys, Indexable, OthersKept;
    m := One(spare);
    m.Share(0, 1);
    StringsFind(Entries(m.Now(), 0), ["a"], "b");
    StringsAreClean("b");
    m.UpsertKey(0, Str("b"), Null, spare);
    assert ["a"] + ["b"] == ["a", "b"];
  }

  lemma NoKeys()
    ensures StringKeys([], [])
  {
  }

  lemma StringsAreClean(s: string)
    ensures Clean(Str(s)) && Clean(Null) && Encode(Str(s)) == Some(OfString(s))
  {
  }

  /** The copy appends a key of its own: the original still trusts its index, which answers for a key that is gone. */
  method SharedIndexMisleads(spare: nat) returns (trusted: int, scanned: int)
    requires spare > 0
    ensures trusted == 1 && scanned == -1
  {
    hide Encode, Find, FindFrom, Clean, Covers, Compact, CleanEntries, Upserted, StringKeys, Indexable;
    var m := Fork(spare);
    ghost var es := Entries(m.Now(), 0);
    assert Entries(m.Now(), 1) == es[..1];
    FirstKey(es);
    StringsFind(Entries(m.Now(), 1), ["a"], "c");
    StringsAreClean("c");
    m.UpsertKey(1, Str("c"), Null, spare);
    assert Entries(m.Now(), 0) == Entries(m.Now(), 1);
    assert ["a"] + ["c"] == ["a", "c"];
    StringsFind(Entries(m.Now(), 0), ["a", "c"], "b");
    StringsAreClean("b");
    trusted := m.LookupKey(0, Str("b"));
    scanned := ScanFor(Entries(m.Now(), 0), Str("b"));
  }

  lemma FirstKey(es: seq<Entry>)
    requires StringKeys(es, ["a", "b"])
    ensures StringKeys(es[..1], ["a"])
    ensures forall x :: Covers(x, es) ==> Answer(x, OfString("b")) == 1
  {
    assert es[1].key == Str(["a", "b"][1]);
    assert Encode(es[1].key) == Some(OfString("b"));
  }

  /** The fallback loop over Value.Equal. */
  method ScanFor(es: seq<Entry>, key: Value) returns (pos: int)
    requires CleanEntries(es) && Clean(key)
    ensures pos == Find(es, key)
  {
    hide Find, FindFrom;
    for i := 0 to |es|
      invariant forall k :: 0 <= k < i ==> !SameKeyAs(es[k], key)
    {
      assert CleanEntry(es[i]);
      var e := EqualLoop.Equal(es[i].key, key);
      if e {
        assert SameKeyAs(es[i], key);
        hide SameKeyAs;
        FindIs(es, key, i);
        return i;
      }
    }
    hide SameKeyAs;
    FindIs(es, key, -1);
    return -1;
  }

  /** The loop of buildMapIndex; a repeated key shows as a missing entry at the end. */
  method IndexOf(es: seq<Entry>) returns (x: map<Code, nat>, ok: bool)
    ensures ok <==> Indexable(es)
    ensures ok ==> |x| == |es| && Covers(x, es) && Compact(x)
  {
    hide Encode, Covers, Compact;
    x := map[];
    NothingCovers();
    for i := 0 to |es|
      invariant |x| <= i && (forall c :: c in x ==> x[c] < i) && (forall k :: 0 <= k < i ==> Encode(es[k].key).Some?)
      invariant |x| == i ==> Covers(x, es[..i]) && Compact(x)
      invariant |x| == i <==> Indexable(es[..i])
    {
      var c := Encode(es[i].key);
      if c.None? { return x, false; }
      IndexGrows(x, es[..i], es[i], c.value);
      assert es[..i + 1] == es[..i] + [es[i]];
      if |x| == i { IndexableNext(x, es[..i], es[i], c.value); }
      if Indexable(es[..i + 1]) { IndexablePrefix(es, i); }
      x := x[c.value := i];
    }
    assert es[..|es|] == es;
    ok := |x| == |es|;
  }

  lemma NothingCovers()
    ensures Covers(map[], []) && Compact(map[])
  {
  }

  lemma IndexablePrefix(es: seq<Entry>, i: nat)
    requires i < |es| && Indexable(es[..i + 1])
    ensures Indexable(es[..i])
  {
    hide Encode;
    assert forall k :: 0 <= k < i ==> es[..i][k] == es[..i + 1][k];
  }

  /** A key is new to an exact index exactly when no entry has its code. */
  lemma IndexableNext(x: map<Code, nat>, es: seq<Entry>, e: Entry, c: Code)
    requires Covers(x, es) && Compact(x) && |x| == |es| && Indexable(es) && Encode(e.key) == Some(c)
    ensures c !in x <==> Indexable(es + [e])
    ensures |x[c := |es|]| == |es| + (if c in x then 0 else 1)
  {
    hide Encode, Compact;
    var gs := es + [e];
    if c in x {
      UsableIsExact(x, es, c);
      assert x[c] < |es| by { CompactBound(x, c); }
      assert Encode(gs[x[c]].key) == Encode(gs[|es|].key);
      assert x[c := |es|].Keys == x.Keys;
      KeysCard(x[c := |es|], x);
    } else {
      NewKeyCard(x, c, |es|);
      forall j, k | 0 <= j < k < |gs| ensures Encode(gs[j].key) != Encode(gs[k].key) {
        if k < |es| { assert Encode(es[j].key) != Encode(es[k].key); }
      }
    }
  }

  lemma CompactBound(x: map<Code, nat>, c: Code)
    requires Compact(x) && c in x
    ensures x[c] < |x|
  {
  }

  lemma IndexGrows(x: map<Code, nat>, es: seq<Entry>, e: Entry, c: Code)
    requires |x| <= |es| && (forall d :: d in x ==> x[d] < |es|) && Encode(e.key) == Some(c)
    requires |x| == |es| ==> Covers(x, es) && Compact(x)
    ensures var y := x[c := |es|];
            |y| <= |es| + 1 && (|y| == |es| + 1 ==> c !in x && |x| == |es| && Covers(y, es + [e]) && Compact(y))
  {
    hide Encode, Covers, Compact;
    if c in x {
      assert x[c := |es|].Keys == x.Keys;
      KeysCard(x[c := |es|], x);
    } else {
      NewKeyCard(x, c, |es|);
      if |x| == |es| { CoversAppend(x, es, e, c); CompactAppend(x, c, |es|); }
    }
  }

  lemma CoversAppend(x: map<Code, nat>, es: seq<Entry>, e: Entry, c: Code)
    requires Covers(x, es) && Encode(e.key) == Some(c) && c !in x
    ensures Covers(x[c := |es|], es + [e])
  {
    hide Encode;
    CoversMore(x, es, c, |es|);
  }

  lemma CompactAppend(x: map<Code, nat>, c: Code, n: nat)
    requires Compact(x) && |x| == n && c !in x
    ensures Compact(x[c := n])
  {
    NewKeyCard(x, c, n);
  }

  lemma KeysCard(a: map<Code, nat>, b: map<Code, nat>)
    requires a.Keys == b.Keys
    ensures |a| == |b|
  {
    assert |a| == |a.Keys| && |b| == |b.Keys|;
  }

  lemma NewKeyCard(x: map<Code, nat>, c: Code, n: nat)
    requires c !in x
    ensures |x[c := n]| == |x| + 1
  {
  }

  lemma PrefixKept(a: seq<Entry>, n: nat, e: Entry)
    requires n < |a|
    ensures a[n := e][..n + 1] == a[..n] + [e]
    ensures forall m :: 0 <= m <= n ==> a[n := e][..m] == a[..m]
  {
    forall m | 0 <= m <= n ensures a[n := e][..m] == a[..m] {}
  }

  /** A prefix of an array sees an overwritten slot by its key exactly when it reaches the slot. */
  lemma SlotRead(a: seq<Entry>, a': seq<Entry>, len: nat, n: nat, e: Entry)
    requires len <= |a| && (a' == a || (n < |a| && a' == a[n := e]))
    ensures a' == a ==> Keys(a'[..len]) == Keys(a[..len])
    ensures a' != a ==> (Keys(a'[..len]) == Keys(a[..len]) <==> len <= n || e.key == a[n].key)
  {
    if a' != a && n < len { assert Keys(a'[..len])[n] == e.key && Keys(a[..len])[n] == a[n].key; }
  }

  lemma KeysCover(es: seq<Entry>, gs: seq<Entry>, x: map<Code, nat>)
    requires Keys(es) == Keys(gs)
    ensures Covers(x, es) ==> Covers(x, gs)
  {
    assert |es| == |Keys(es)| && |gs| == |Keys(gs)|;
    forall k | 0 <= k < |es| ensures es[k].key == gs[k].key { assert Keys(es)[k] == Keys(gs)[k]; }
    SameKeysCover(es, gs, x);
  }

  function Keys(es: seq<Entry>): seq<Value> { seq(|es|, i requires 0 <= i < |es| => es[i].key) }

  lemma SameKeysCover(es: seq<Entry>, gs: seq<Entry>, x: map<Code, nat>)
    requires |es| == |gs| && forall k :: 0 <= k < |es| ==> es[k].key == gs[k].key
    ensures Keys(es) == Keys(gs) && (Covers(x, es) ==> Covers(x, gs))
  {
    hide Encode;
  }

  lemma CoversMore(x: map<Code, nat>, es: seq<Entry>, c: Code, n: nat)
    requires Covers(x, es) && c !in x
    ensures Covers(x[c := n], es)
  {
    hide Encode;
  }

  lemma CleanValue(es: seq<Entry>, pos: nat, val: Value)
    requires CleanEntries(es) && pos < |es| && Clean(val)
    ensures CleanEntries(es[pos := Entry(es[pos].key, val)])
  {
    assert CleanEntry(es[pos]);
    hide Clean;
  }

  lemma CleanPair(key: Value, val: Value)
    requires Clean(key) && Clean(val)
    ensures CleanEntry(Entry(key, val))
  {
  }

  // ----- behind the frontier -----

  /**
   Any longer header over the same array that trusts its index is misled by an append of another
   key: the index goes on answering for the key that was overwritten, which no scan finds.
   */
  lemma AppendBehindMisleads(s: Store, h: nat, e: Entry, g: nat)
    requires Valid(s) && h in s.headers && g in s.headers && CleanEntry(e) && s.headers[g].backing == s.headers[h].backing
    requires s.headers[h].len < s.headers[g].len && Usable(s, g)
    requires Encode(e.key) != Encode(s.slots[s.headers[h].backing][s.headers[h].len].key)
    ensures Shaped(Overwrite(s, h, e)) && Usable(Overwrite(s, h, e), g)
    ensures var s', n := Overwrite(s, h, e), s.headers[h].len;
            var key := s.slots[s.headers[h].backing][n].key;
            && Encode(key).Some? && Answer(s'.indexes[s'.headers[g].index.value], Encode(key).value) == n
            && Clean(key) && CleanEntries(Entries(s', g)) && Find(Entries(s', g), key) == -1
  {
    hide Encode, Find, FindFrom, Clean, Compact;
    OverwriteShaped(s, h, e);
    var s', n := Overwrite(s, h, e), s.headers[h].len;
    var x, es := s.indexes[s.headers[g].index.value], Entries(s, g);
    CleanOf(s, g);
    CleanOf(s', g);
    assert Entries(s', g) == es[n := e] && es[n] == s.slots[s.headers[h].backing][n] && CleanEntry(es[n]);
    hide SliceOk, Shaped;
    LostKey(x, es, n, e);
  }

  lemma LostKey(x: map<Code, nat>, es: seq<Entry>, n: nat, e: Entry)
    requires CleanEntries(es) && CleanEntry(e) && n < |es| && Covers(x, es) && Encode(e.key) != Encode(es[n].key)
    ensures Encode(es[n].key).Some? && Answer(x, Encode(es[n].key).value) == n
    ensures Clean(es[n].key) && CleanEntries(es[n := e]) && Find(es[n := e], es[n].key) == -1
  {
    hide Encode, Find, FindFrom, Clean, Same;
    var key := es[n].key;
    assert CleanEntry(es[n]);
    var gs := es[n := e];
    forall k | 0 <= k < |es| ensures !SameKeyAs(gs[k], key) {
      assert CleanEntry(es[k]);
      EncodeIsEquality(key, gs[k].key);
      if k != n { assert x[Encode(es[k].key).value] == k && x[Encode(key).value] == n; }
      KeySym(gs[k], key);
    }
    hide SameKeyAs;
    FindIs(gs, key, -1);
  }

  lemma KeySym(e: Entry, key: Value)
    requires CleanEntry(e) && Clean(key)
    ensures SameKeyAs(e, key) <==> Same(key, e.key)
  {
    hide Same;
    if Same(e.key, key) { SameSym(e.key, key); }
    if Same(key, e.key) { SameSym(key, e.key); }
  }
}
