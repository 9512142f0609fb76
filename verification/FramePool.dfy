/**
 The pool of recycled frames. A frame taken from the pool cannot be told from a newly
 built one, whatever it held before, and releasing a frame returns its memory.
 */
module FramePool {
  import opened Options

  datatype Binding = Binding(name: string, value: int, isConst: bool)

  /** A zeroed slot. No identifier is empty, so no lookup finds it. */
  const Unused := Binding("", 0, false)

  function Zeroed(n: nat): (s: seq<Binding>)
    ensures |s| == n && forall i :: 0 <= i < n ==> s[i] == Unused
  {
    seq(n, i => Unused)
  }

  /** A counter shared by the frames of one call chain. */
  class Counter {
    var n: int
    constructor ()
      ensures n == 0
    {
      n := 0;
    }
  }

  /** inheritDepth, inheritChainBytes: the parent's counter, or a new one. */
  method Inherited(c: Counter?) returns (r: Counter)
    ensures if c != null then r == c else fresh(r) && r.n == 0
  {
    if c != null { return c; }
    r := new Counter();
  }

  // ----- what a frame's own operations compute -----

  /** The bindings of one frame, as every operation on it sees them. */
  datatype Table = Table(slots: seq<Binding>, vars: map<string, Binding>)

  /** A slot write grows the frame with zeroed slots where it must. */
  function Placed(s: seq<Binding>, slot: nat, b: Binding): seq<Binding> {
    if slot < |s| then s[slot := b] else s + Zeroed(slot - |s|) + [b]
  }

  function FirstNamed(s: seq<Binding>, name: string, from: nat): (i: nat)
    requires from <= |s|
    ensures from <= i <= |s|
    ensures i < |s| ==> s[i].name == name
    ensures forall k :: from <= k < i ==> s[k].name != name
    decreases |s| - from
  {
    if from == |s| || s[from].name == name then from else FirstNamed(s, name, from + 1)
  }

  /** Slots come before the name map. */
  function Lookup(t: Table, name: string): Option<Binding> {
    var i := FirstNamed(t.slots, name, 0);
    if i < |t.slots| then Some(t.slots[i]) else if name in t.vars then Some(t.vars[name]) else None
  }

  lemma FirstNamedIs(s: seq<Binding>, name: string, i: nat)
    requires i <= |s| && (i < |s| ==> s[i].name == name) && forall k :: 0 <= k < i ==> s[k].name != name
    ensures FirstNamed(s, name, 0) == i
  {
  }

  /** Unused slots are never found: an identifier is not empty. */
  lemma UnusedIsInvisible(t: Table, name: string, k: nat)
    requires name != ""
    ensures Lookup(t.(slots := t.slots + Zeroed(k)), name) == Lookup(t, name)
  {
    var s := t.slots + Zeroed(k);
    var i := FirstNamed(t.slots, name, 0);
    forall m | 0 <= m < |s| && (m < i || m >= |t.slots|) ensures s[m].name != name {
      assert s[m] == if m < |t.slots| then t.slots[m] else Unused;
    }
    FirstNamedIs(s, name, if i < |t.slots| then i else |s|);
  }

  /** Assign within the frame; a constant or a missing name leaves it unchanged. */
  function Assigned(t: Table, name: string, value: int): Table {
    var i := FirstNamed(t.slots, name, 0);
    if i < |t.slots| then (if t.slots[i].isConst then t else t.(slots := t.slots[i := t.slots[i].(value := value)]))
    else if name !in t.vars || t.vars[name].isConst then t
    else t.(vars := t.vars[name := t.vars[name].(value := value)])
  }

  datatype Op = DefineSlot(slot: nat, b: Binding) | DefineName(b: Binding) | AssignTo(name: string, value: int) | Read(name: string)

  function After(t: Table, op: Op): Table {
    match op
    case DefineSlot(slot, b) => t.(slots := Placed(t.slots, slot, b))
    case DefineName(b) => t.(vars := t.vars[b.name := b])
    case AssignTo(name, value) => Assigned(t, name, value)
    case Read(_) => t
  }

  function Answers(t: Table, ops: seq<Op>): seq<Option<Binding>>
    decreases |ops|
  {
    if ops == [] then []
    else Answer(t, ops[0]) + Answers(After(t, ops[0]), ops[1..])
  }

  /** Only a read answers. */
  function Answer(t: Table, op: Op): seq<Option<Binding>> { if op.Read? then [Lookup(t, op.name)] else [] }

  // ----- frames -----

  class Environment {
    var parent: Environment?
    var root: Environment?
    var depth: Counter?
    var chain: Counter?
    var cancel: Option<nat>
    var frameBytes: int
    var borrowDefs: bool
    var vars: map<string, Binding>
    var backing: array<Binding>
    var len: nat
    var deferred: seq<nat>

    /** Nothing is ever written beyond the length. */
    ghost predicate Tight()
      reads this, backing
    {
      len <= backing.Length && forall i :: len <= i < backing.Length ==> backing[i] == Unused
    }

    ghost function Contents(): Table
      requires Tight()
      reads this, backing
    {
      Table(backing[..len], vars)
    }

    /** As the pool keeps it. */
    ghost predicate Clean()
      reads this, backing
    {
      && Tight() && len == 0 && vars == map[] && deferred == [] && frameBytes == 0 && cancel.None? && !borrowDefs
      && parent == null && root == null && depth == null && chain == null
    }

    /** Links inherited from `p`; the frame is its own root and has its own counters when there is no parent. */
    ghost predicate LinkedTo(p: Environment?)
      reads this, p
    {
      && parent == p && root == (if p == null then this else if p.root != null then p.root else p)
      && depth != null && chain != null && borrowDefs == (p != null && p.borrowDefs)
      && (p != null && p.depth != null ==> depth == p.depth) && (p != null && p.chain != null ==> chain == p.chain)
    }

    /** What a new frame under `p` is: linked to it, with empty tables. */
    ghost predicate NewUnder(p: Environment?, slots: nat)
      reads this, backing, p
    {
      && LinkedTo(p) && Tight() && Contents() == Table(Zeroed(slots), map[])
      && deferred == [] && frameBytes == 0 && cancel.None?
    }

    /** NewEnvironmentSized */
    constructor Sized(p: Environment?, slots: nat)
      ensures NewUnder(p, slots) && fresh(backing)
      ensures (p == null || p.depth == null ==> fresh(depth) && depth.n == 0)
      ensures (p == null || p.chain == null ==> fresh(chain) && chain.n == 0)
    {
      parent, vars, cancel, frameBytes, deferred := p, map[], None, 0, [];
      borrowDefs := p != null && p.borrowDefs;
      backing := new Binding[slots](i => Unused);
      len := slots;
      new;
      root := if p == null then this else if p.root != null then p.root else p;
      depth := Inherited(if p == null then null else p.depth);
      chain := Inherited(if p == null then null else p.chain);
    }

    /** What the pool makes when it has nothing to hand out. */
    constructor Blank()
      ensures Clean() && fresh(backing)
    {
      parent, root, depth, chain, vars, cancel, frameBytes, deferred := null, null, null, null, map[], None, 0, [];
      borrowDefs, len := false, 0;
      backing := new Binding[0];
    }

    method Link(p: Environment?)
      requires p != this
      modifies this`parent, this`root, this`depth, this`chain, this`borrowDefs
      ensures LinkedTo(p)
      ensures (p == null || p.depth == null ==> fresh(depth) && depth.n == 0)
      ensures (p == null || p.chain == null ==> fresh(chain) && chain.n == 0)
    {
      parent := p;
      root := if p == null then this else if p.root != null then p.root else p;
      depth := Inherited(if p == null then null else p.depth);
      chain := Inherited(if p == null then null else p.chain);
      borrowDefs := p != null && p.borrowDefs;
    }

    /** Gives an emptied frame zeroed slots, keeping its storage when that is long enough. */
    method Resize(slots: nat)
      requires Tight() && len == 0
      modifies this`backing, this`len
      ensures Tight() && backing[..len] == Zeroed(slots) && (backing == old(backing) || fresh(backing))
    {
      if backing.Length < slots { backing := new Binding[slots](i => Unused); }
      len := slots;
    }

    /** Zeroes every used slot and drops every link. */
    method Wipe()
      requires Tight()
      modifies this, backing
      ensures Clean() && backing == old(backing)
    {
      vars := map[];
      for i := 0 to len
        invariant backing == old(backing) && len == old(len) && vars == map[] && len <= backing.Length
        invariant forall j :: 0 <= j < i || len <= j < backing.Length ==> backing[j] == Unused
      {
        backing[i] := Unused;
      }
      parent, root, depth, chain, cancel := null, null, null, null, None;
      frameBytes, borrowDefs, len, deferred := 0, false, 0, [];
    }

    method DefineAt(slot: nat, b: Binding)
      requires Tight()
      modifies this`backing, this`len, backing
      ensures Tight() && (backing == old(backing) || fresh(backing))
      ensures Contents() == After(old(Contents()), DefineSlot(slot, b))
    {
      if slot >= len {
        var grown := new Binding[slot + 1](i => Unused);
        for i := 0 to len
          invariant backing == old(backing) && len == old(len) && len <= slot && backing[..] == old(backing[..])
          invariant forall j :: 0 <= j < i ==> grown[j] == backing[j]
          invariant forall j :: i <= j < grown.Length ==> grown[j] == Unused
        {
          grown[i] := backing[i];
        }
        backing, len := grown, slot + 1;
      }
      backing[slot] := b;
      assert backing[..len] == Placed(old(backing[..len]), slot, b);
    }

    method FindSlot(name: string) returns (i: nat)
      requires Tight()
      ensures i == FirstNamed(backing[..len], name, 0)
    {
      i := 0;
      while i < len && backing[i].name != name
        invariant i <= len && FirstNamed(backing[..len], name, 0) == FirstNamed(backing[..len], name, i)
      {
        i := i + 1;
      }
    }

    method LookupLocal(name: string) returns (r: Option<Binding>)
      requires Tight()
      ensures r == Lookup(Contents(), name)
    {
      var i := FindSlot(name);
      if i < len { return Some(backing[i]); }
      r := if name in vars then Some(vars[name]) else None;
    }

    method AssignLocal(name: string, value: int)
      requires Tight()
      modifies this`vars, backing
      ensures Tight() && Contents() == After(old(Contents()), AssignTo(name, value))
    {
      var i := FindSlot(name);
      if i < len {
        if !backing[i].isConst { backing[i] := backing[i].(value := value); }
      } else if name in vars && !vars[name].isConst {
        vars := vars[name := vars[name].(value := value)];
      }
    }

    method Perform(op: Op) returns (answer: seq<Option<Binding>>)
      requires Tight()
      modifies this`vars, this`backing, this`len, backing
      ensures Tight() && (backing == old(backing) || fresh(backing))
      ensures Contents() == After(old(Contents()), op) && answer == Answer(old(Contents()), op)
    {
      answer := [];
      match op {
        case DefineSlot(slot, b) => DefineAt(slot, b);
        case DefineName(b) => vars := vars[b.name := b];
        case AssignTo(name, value) => AssignLocal(name, value);
        case Read(name) =>
          var r := LookupLocal(name);
          answer := [r];
      }
    }

    /** Any sequence of operations sees the frame only through its table. */
    method Drive(ops: seq<Op>) returns (answers: seq<Option<Binding>>)
      requires Tight()
      modifies this`vars, this`backing, this`len, backing
      ensures Tight() && (backing == old(backing) || fresh(backing))
      ensures answers == Answers(old(Contents()), ops)
    {
      hide After, Answer;
      answers := [];
      assert ops[0..] == ops;
      for i := 0 to |ops|
        invariant Tight() && (backing == old(backing) || fresh(backing))
        invariant answers + Answers(Contents(), ops[i..]) == Answers(old(Contents()), ops)
      {
        AnswersStep(Contents(), ops, i, answers);
        var r := Perform(ops[i]);
        answers := answers + r;
      }
    }
  }

  lemma AnswersStep(t: Table, ops: seq<Op>, i: nat, before: seq<Option<Binding>>)
    requires i < |ops|
    ensures before + Answers(t, ops[i..]) ==
            before + Answer(t, ops[i]) + Answers(After(t, ops[i]), ops[i + 1..])
  {
    assert ops[i..][1..] == ops[i + 1..];
  }

  // ----- the pool -----

  class Pool {
    var free: seq<Environment>

    /** Pooled frames are clean, and no two share storage. */
    ghost predicate Valid()
      reads this, free, set e | e in free :: e.backing
    {
      && (forall e :: e in free ==> e.Clean())
      && (forall i, j :: 0 <= i < j < |free| ==> free[i] != free[j] && free[i].backing != free[j].backing)
    }

    /** A frame in use: not in the pool, and sharing no storage with it. */
    ghost predicate InUse(e: Environment)
      reads this, free, e
    {
      e !in free && forall f :: f in free ==> f.backing != e.backing
    }

    constructor ()
      ensures Valid() && free == []
    {
      free := [];
    }

    /** The runtime may hand out any pooled frame, or make a new one. */
    method Get(pick: nat) returns (e: Environment)
      requires Valid()
      modifies this
      ensures Valid() && InUse(e) && e.Clean() && (e in old(free) || (fresh(e) && fresh(e.backing)))
      ensures forall f :: f in free ==> f in old(free)
    {
      if pick < |free| {
        e := free[pick];
        free := free[..pick] + free[pick + 1..];
      } else {
        e := new Environment.Blank();
      }
    }

    /** borrowBlockEnv: the contract is that of a newly built frame. */
    method Borrow(p: Environment?, slots: nat, pick: nat) returns (e: Environment)
      requires Valid() && (p != null ==> InUse(p))
      modifies this, free
      ensures Valid() && InUse(e) && e != p && e.NewUnder(p, slots)
      ensures (p == null || p.depth == null ==> fresh(e.depth) && e.depth.n == 0)
      ensures (p == null || p.chain == null ==> fresh(e.chain) && e.chain.n == 0)
      ensures forall f :: f in free ==> f in old(free)
      ensures fresh(e.backing) || (e in old(free) && e.backing == old(e.backing))
    {
      e := Get(pick);
      e.Link(p);
      e.Resize(slots);
    }

    /** releaseBlockEnv */
    method Release(e: Environment)
      requires Valid() && InUse(e) && e.Tight()
      modifies this, e, e.backing, e.chain
      ensures Valid() && free == old(free) + [e]
      ensures old(e.chain) != null ==> old(e.chain).n == old(e.chain.n) - old(e.frameBytes)
    {
      if e.chain != null && e.frameBytes != 0 { e.chain.n := e.chain.n - e.frameBytes; }
      e.Wipe();
      free := free + [e];
    }

    /** No sequence of operations tells a recycled frame from a new one. */
    method Compare(p: Environment?, slots: nat, pick: nat, ops: seq<Op>) returns (recycled: seq<Option<Binding>>, built: seq<Option<Binding>>)
      requires Valid() && (p != null ==> InUse(p))
      modifies this, free, set e | e in free :: e.backing
      ensures recycled == built
    {
      var a := Borrow(p, slots, pick);
      var b := new Environment.Sized(p, slots);
      assert a.Contents() == b.Contents();
      built := b.Drive(ops);
      recycled := a.Drive(ops);
    }
  }
}
