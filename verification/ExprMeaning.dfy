/**
 What the evaluator of `FastPath` computes, said in integers, truth values and positions
 rather than through its own operators: with or without the fast path, exact arithmetic or
 an error, the order of the integers, short-circuit logic, elements by position, and
 assignments that the next read sees and nothing else does.
 */
module ExprMeaning {
  import opened Options
  import opened Numbers
  import opened Arithmetic
  import opened FastPath

  /** With the fast path or without it, evaluating e gives v. */
  ghost predicate Gives(sem: Sem, e: Expr, env: Env, v: Val, env': Env) {
    forall fast: bool :: Eval(sem, fast, e, env) == R(Ok(v), env')
  }

  ghost predicate Fails(sem: Sem, e: Expr, env: Env, env': Env) {
    forall fast: bool :: Eval(sem, fast, e, env) == R(Err, env')
  }

  ghost predicate GivesOrFails(sem: Sem, e: Expr, env: Env, n: int, env': Env) {
    if Fits(n) then Gives(sem, e, env, I(n), env') else Fails(sem, e, env, env')
  }

  lemma GivesPlainly(sem: Sem, e: Expr, env: Env, r: R)
    requires Eval(sem, false, e, env) == r
    ensures r.out.Ok? ==> Gives(sem, e, env, r.out.v, r.env)
    ensures r.out.Err? ==> Fails(sem, e, env, r.env)
  {
    FastIsPlain(sem, e, env);
    hide Eval;
  }

  /** Both operands evaluate to ints, left first. */
  ghost predicate Operands(sem: Sem, l: Expr, r: Expr, env: Env, a: Int64, b: Int64, env': Env) {
    exists mid: Env :: Gives(sem, l, env, I(a), mid) && Gives(sem, r, mid, I(b), env')
  }

  lemma PlainArith(sem: Sem, op: Op, l: Expr, r: Expr, env: Env, a: Int64, b: Int64, env': Env)
    requires Operands(sem, l, r, env, a, b, env') && (op.Add? || op.Sub? || op.Mul? || op.FloorDiv? || op.Mod?)
    ensures var n := IntArith(op, a, b); var e := Binary(op, l, r, None);
            if n.Some? then Gives(sem, e, env, I(n.value), env') else Fails(sem, e, env, env')
  {
    hide IntArith, Eval;
    var mid: Env :| Gives(sem, l, env, I(a), mid) && Gives(sem, r, mid, I(b), env');
    assert Eval(sem, false, l, env) == R(Ok(I(a)), mid) && Eval(sem, false, r, mid) == R(Ok(I(b)), env');
    EvalArith(sem, op, l, r, env, a, b, mid, env');
    GivesPlainly(sem, Binary(op, l, r, None), env, Eval(sem, false, Binary(op, l, r, None), env));
  }

  lemma EvalArith(sem: Sem, op: Op, l: Expr, r: Expr, env: Env, a: Int64, b: Int64, mid: Env, env': Env)
    requires Eval(sem, false, l, env) == R(Ok(I(a)), mid) && Eval(sem, false, r, mid) == R(Ok(I(b)), env')
    requires op.Add? || op.Sub? || op.Mul? || op.FloorDiv? || op.Mod?
    ensures Eval(sem, false, Binary(op, l, r, None), env) == R(match IntArith(op, a, b) { case None => Err case Some(n) => Ok(I(n)) }, env')
  {
    hide IntArith, IntOperand, FastCondition, EvalLogical, IndexInto, Lookup;
  }

  /** `+`, `-` and `*` give the mathematical result if it is an int64, and an error otherwise. */
  lemma ArithmeticIsExact(sem: Sem, l: Expr, r: Expr, env: Env, a: Int64, b: Int64, env': Env)
    requires Operands(sem, l, r, env, a, b, env')
    ensures GivesOrFails(sem, Binary(Add, l, r, None), env, a + b, env')
    ensures GivesOrFails(sem, Binary(Sub, l, r, None), env, a - b, env')
    ensures GivesOrFails(sem, Binary(Mul, l, r, None), env, a * b, env')
  {
    hide Gives, Fails, Operands, Wrap;
    PlainArith(sem, Add, l, r, env, a, b, env');
    PlainArith(sem, Sub, l, r, env, a, b, env');
    PlainArith(sem, Mul, l, r, env, a, b, env');
    AddIsExact(a, b);
    SubIsExact(a, b);
    MulIsExact(a, b);
    hide AddOverflow, SubOverflow, MulOverflow;
  }

  /** A remainder of a division by b: smaller than b and on its side of zero. */
  predicate OnSide(r: int, b: int) { if b > 0 then 0 <= r < b else b < r <= 0 }

  lemma OneQuotient(a: int, b: int, q: int, p: int)
    requires b != 0 && OnSide(a - q * b, b) && OnSide(a - p * b, b)
    ensures q == p
  {
    if q > p { Apart(a, b, q, p); }
    if p > q { Apart(a, b, p, q); }
  }

  lemma Apart(a: int, b: int, q: int, p: int)
    requires b != 0 && q > p
    ensures !(OnSide(a - q * b, b) && OnSide(a - p * b, b))
  {
    assert (q - p) * b == (a - p * b) - (a - q * b);
    MulMono(1, q - p, if b > 0 then b else -b);
  }

  /**
   `//` and `%` fail for a zero divisor. Otherwise there is one quotient q that leaves a remainder
   on b's side: `//` gives q if it is an int64 and fails otherwise, `%` gives the remainder.
   */
  lemma DivisionIsFloored(sem: Sem, l: Expr, r: Expr, env: Env, a: Int64, b: Int64, env': Env)
    requires Operands(sem, l, r, env, a, b, env')
    ensures b == 0 ==> Fails(sem, Binary(FloorDiv, l, r, None), env, env') && Fails(sem, Binary(Mod, l, r, None), env, env')
    ensures b != 0 ==> exists q: int :: OnSide(a - q * b, b)
    ensures b != 0 ==> forall q: int :: OnSide(a - q * b, b) ==>
              && GivesOrFails(sem, Binary(FloorDiv, l, r, None), env, q, env')
              && GivesOrFails(sem, Binary(Mod, l, r, None), env, a - q * b, env')
  {
    hide Gives, Fails, Operands, FlooredDiv, FlooredMod;
    PlainArith(sem, FloorDiv, l, r, env, a, b, env');
    PlainArith(sem, Mod, l, r, env, a, b, env');
    if b != 0 {
      var q := FlooredDiv(a, b);
      FlooredIdentity(a, b);
      assert a - q * b == FlooredMod(a, b) && OnSide(a - q * b, b);
      if a == -TWO63 && b == -1 { OnlyOverflow(); } else { FlooredFits(a, b); }
      ModFits(a, b);
      forall p: int | OnSide(a - p * b, b) ensures p == q { OneQuotient(a, b, p, q); }
    }
  }

  lemma PlainCompare(sem: Sem, op: Op, l: Expr, r: Expr, env: Env, a: Int64, b: Int64, env': Env)
    requires Comparison(op) && Operands(sem, l, r, env, a, b, env')
    ensures Gives(sem, Binary(op, l, r, None), env, B(IntCompare(op, a, b)), env')
  {
    hide IntCompare, Eval;
    var mid: Env :| Gives(sem, l, env, I(a), mid) && Gives(sem, r, mid, I(b), env');
    assert Eval(sem, false, l, env) == R(Ok(I(a)), mid) && Eval(sem, false, r, mid) == R(Ok(I(b)), env');
    EvalCompare(sem, op, l, r, env, a, b, mid, env');
    GivesPlainly(sem, Binary(op, l, r, None), env, R(Ok(B(IntCompare(op, a, b))), env'));
  }

  lemma EvalCompare(sem: Sem, op: Op, l: Expr, r: Expr, env: Env, a: Int64, b: Int64, mid: Env, env': Env)
    requires Eval(sem, false, l, env) == R(Ok(I(a)), mid) && Eval(sem, false, r, mid) == R(Ok(I(b)), env') && Comparison(op)
    ensures Eval(sem, false, Binary(op, l, r, None), env) == R(Ok(B(IntCompare(op, a, b))), env')
  {
    hide IntCompare, IntOperand, FastCondition, EvalLogical, IndexInto, Lookup;
  }

  /** The six comparisons are the order of the integers. */
  lemma ComparisonIsOrder(sem: Sem, l: Expr, r: Expr, env: Env, a: Int64, b: Int64, env': Env)
    requires Operands(sem, l, r, env, a, b, env')
    ensures Gives(sem, Binary(Lt, l, r, None), env, B(a < b), env') && Gives(sem, Binary(Ge, l, r, None), env, B(a >= b), env')
    ensures Gives(sem, Binary(Gt, l, r, None), env, B(a > b), env') && Gives(sem, Binary(Le, l, r, None), env, B(a <= b), env')
    ensures Gives(sem, Binary(Eq, l, r, None), env, B(a == b), env') && Gives(sem, Binary(Neq, l, r, None), env, B(a != b), env')
  {
    hide Gives, Operands;
    PlainCompare(sem, Lt, l, r, env, a, b, env');
    PlainCompare(sem, Gt, l, r, env, a, b, env');
    PlainCompare(sem, Le, l, r, env, a, b, env');
    PlainCompare(sem, Ge, l, r, env, a, b, env');
    PlainCompare(sem, Eq, l, r, env, a, b, env');
    PlainCompare(sem, Neq, l, r, env, a, b, env');
  }

  /** A false left side decides `and` and a true one `or`, leaving the right side alone; otherwise the right side decides. */
  lemma LogicShortCircuits(sem: Sem, l: Expr, r: Expr, env: Env, a: bool, mid: Env)
    requires Gives(sem, l, env, B(a), mid)
    ensures !a ==> Gives(sem, Binary(And, l, r, None), env, B(false), mid)
    ensures a ==> Gives(sem, Binary(Or, l, r, None), env, B(true), mid)
    ensures forall b: bool, env': Env :: Gives(sem, r, mid, B(b), env') ==>
              && (a ==> Gives(sem, Binary(And, l, r, None), env, B(b), env'))
              && (!a ==> Gives(sem, Binary(Or, l, r, None), env, B(b), env'))
    ensures Gives(sem, Unary(Not, l, None), env, B(!a), mid)
  {
    assert Eval(sem, false, l, env) == R(Ok(B(a)), mid);
    var both, either, not := Binary(And, l, r, None), Binary(Or, l, r, None), Unary(Not, l, None);
    GivesPlainly(sem, not, env, R(Ok(B(!a)), mid));
    GivesPlainly(sem, both, env, Eval(sem, false, both, env));
    GivesPlainly(sem, either, env, Eval(sem, false, either, env));
    forall b: bool, env': Env | Gives(sem, r, mid, B(b), env')
      ensures Eval(sem, false, r, mid) == R(Ok(B(b)), env')
    {
    }
    hide Gives;
  }

  /** An index picks the element, or the byte as an int, at that position, and fails outside. */
  lemma IndexPicks(sem: Sem, t: Expr, ix: Expr, env: Env, x: Val, i: Int64, mid: Env, env': Env)
    requires Gives(sem, t, env, x, mid) && Gives(sem, ix, mid, I(i), env')
    ensures x.L? ==> if 0 <= i < |x.elems| then Gives(sem, Index(t, ix), env, x.elems[i], env') else Fails(sem, Index(t, ix), env, env')
    ensures x.Bytes? ==> if 0 <= i < |x.bytes| then Gives(sem, Index(t, ix), env, I(x.bytes[i]), env') else Fails(sem, Index(t, ix), env, env')
  {
    assert Eval(sem, false, t, env) == R(Ok(x), mid) && Eval(sem, false, ix, mid) == R(Ok(I(i)), env');
    GivesPlainly(sem, Index(t, ix), env, Eval(sem, false, Index(t, ix), env));
  }

  // ----- assignment -----

  /** The innermost frame that knows the name. */
  ghost predicate Innermost(env: Env, name: string, d: nat) {
    d < |env| && Local(env[d], name).Some? && forall k :: 0 <= k < d ==> Local(env[k], name).None?
  }

  /** A name is read from the innermost frame that knows it, and from none if none does. */
  lemma {:induction false} NamesAreInnermost(env: Env, name: string)
    ensures forall d: nat :: Innermost(env, name, d) ==> ByName(env, name) == Local(env[d], name)
    ensures ByName(env, name).None? <==> forall d: nat :: d < |env| ==> Local(env[d], name).None?
    decreases |env|
  {
    hide Local;
    if env != [] && Local(env[0], name).None? {
      var inner := env[1..];
      NamesAreInnermost(inner, name);
      forall d: nat | Innermost(env, name, d) ensures ByName(env, name) == Local(env[d], name) {
        assert Innermost(inner, name, d - 1);
      }
      if ByName(env, name).None? {
        forall d: nat | d < |env| ensures Local(env[d], name).None? {
          if d > 0 { assert Local(inner[d - 1], name).None?; }
        }
      }
      if forall d: nat :: d < |env| ==> Local(env[d], name).None? {
        forall d: nat | d < |inner| ensures Local(inner[d], name).None? { assert env[d + 1] == inner[d]; }
      }
    }
  }

  /** The same frames with the same names in the same places. */
  ghost predicate SameBindings(f: Frame, g: Frame, name: string) {
    && |f.slots| == |g.slots| && (forall i :: 0 <= i < |f.slots| && f.slots[i].name != name ==> g.slots[i] == f.slots[i])
    && forall n :: n != name ==> (n in f.vars <==> n in g.vars) && (n in f.vars ==> g.vars[n] == f.vars[n])
  }

  /** After a successful assignment by name: the innermost frame that knows the name holds the value there, all else is as it was. */
  lemma {:induction false} AssignsByName(sem: Sem, env: Env, name: string, v: Val)
    requires AssignByName(sem, env, name, v).ok
    ensures var env' := AssignByName(sem, env, name, v).env;
            && |env'| == |env| && ByName(env', name).Some? && ByName(env', name).value.value == v
            && (forall d: nat :: d < |env| && !Innermost(env, name, d) ==> env'[d] == env[d])
            && (forall d: nat :: d < |env| ==> SameBindings(env[d], env'[d], name))
    decreases |env|
  {
    var env' := AssignByName(sem, env, name, v).env;
    if Local(env[0], name).Some? {
      WritesLocal(sem, env, name, v);
      hide NamedSlot, Local;
      assert Innermost(env, name, 0);
    } else {
      hide Local, SameBindings;
      AssignsByName(sem, env[1..], name, v);
      var rest := AssignByName(sem, env[1..], name, v).env;
      assert env' == [env[0]] + rest && env'[1..] == rest;
      forall d: nat | d < |env| && !Innermost(env, name, d) ensures env'[d] == env[d] {
        if d > 0 && Innermost(env[1..], name, d - 1) { InnerFrame(env, name, d); }
      }
      SameAsItself(env[0], name);
      forall d: nat | d < |env| ensures SameBindings(env[d], env'[d], name) {
        if d > 0 { assert SameBindings(env[1..][d - 1], rest[d - 1], name); }
      }
    }
  }

  lemma InnerFrame(env: Env, name: string, d: nat)
    requires 0 < d <= |env| && Local(env[0], name).None? && Innermost(env[1..], name, d - 1)
    ensures Innermost(env, name, d)
  {
    hide Local;
    forall k | 0 <= k < d ensures Local(env[k], name).None? {
      if k > 0 { assert env[k] == env[1..][k - 1]; }
    }
  }

  lemma SameAsItself(f: Frame, name: string)
    ensures SameBindings(f, f, name)
  {
  }

  lemma WritesLocal(sem: Sem, env: Env, name: string, v: Val)
    requires AssignByName(sem, env, name, v).ok && Local(env[0], name).Some?
    ensures var env' := AssignByName(sem, env, name, v).env;
            && |env'| == |env| && env'[1..] == env[1..] && SameBindings(env[0], env'[0], name)
            && Local(env'[0], name).Some? && Local(env'[0], name).value.value == v
  {
    var env' := AssignByName(sem, env, name, v).env;
    var i := NamedSlot(env[0].slots, name);
    var j := NamedSlot(env'[0].slots, name);
    if i < |env[0].slots| {
      assert env'[0].slots[i].name == name;
      assert j <= i;
    } else {
      assert env'[0].slots == env[0].slots;
    }
  }

  /**
   A successful assignment: when its address is a slot, that slot and nothing else changes, and only
   in its value; otherwise a read by name gives the value, and all other names read as before.
   */
  lemma AssignThenRead(sem: Sem, st: Assign, env: Env)
    requires ExecAssign(sem, st, env).ok
    ensures var r, env' := Eval(sem, false, st.value, env), ExecAssign(sem, st, env).env;
            && r.out.Ok? && |env'| == |r.env|
            && (if st.slot >= 0 && SlotAt(r.env, st.depth, st.slot).Some? then
                  && (forall d: nat, k: int :: SlotAt(env', d, k) ==
                       if d == st.depth && k == st.slot then Some(SlotAt(r.env, d, k).value.(value := r.out.v)) else SlotAt(r.env, d, k))
                  && (forall d: nat :: d < |env'| ==> env'[d].vars == r.env[d].vars)
                else
                  && ByName(env', st.name).Some? && ByName(env', st.name).value.value == r.out.v
                  && (forall d: nat :: d < |env'| && !Innermost(r.env, st.name, d) ==> env'[d] == r.env[d])
                  && (forall d: nat :: d < |env'| ==> SameBindings(r.env[d], env'[d], st.name)))
  {
    hide Eval, ByName, Local, SameBindings, AssignByName, NamedSlot;
    var r := Eval(sem, false, st.value, env);
    if !(st.slot >= 0 && SlotAt(r.env, st.depth, st.slot).Some?) { AssignsByName(sem, r.env, st.name, r.out.v); }
  }

  /** A constant, a value of another type, and a name nobody knows are refused, and nothing is written. */
  lemma AssignRefuses(sem: Sem, st: Assign, env: Env)
    ensures var r, d := Eval(sem, false, st.value, env), ExecAssign(sem, st, env);
            && (!d.ok ==> d.env == r.env)
            && (r.out.Ok? && st.slot >= 0 && SlotAt(r.env, st.depth, st.slot).Some? ==>
                  var b := SlotAt(r.env, st.depth, st.slot).value; (d.ok <==> !b.isConst && sem.matches(r.out.v, b.decl)))
            && (r.out.Ok? && st.slot < 0 ==>
                  (d.ok <==> exists k: nat :: && Innermost(r.env, st.name, k) && !Local(r.env[k], st.name).value.isConst
                                              && sem.matches(r.out.v, Local(r.env[k], st.name).value.decl)))
  {
    hide Eval, Local, NamedSlot;
    var r := Eval(sem, false, st.value, env);
    if r.out.Ok? {
      NamesAreInnermost(r.env, st.name);
      RefusesByName(sem, r.env, st.name, r.out.v);
    }
    hide AssignByName, ByName;
  }

  lemma {:induction false} RefusesByName(sem: Sem, env: Env, name: string, v: Val)
    ensures var d := AssignByName(sem, env, name, v);
            && (!d.ok ==> d.env == env)
            && (d.ok <==> exists k: nat :: Innermost(env, name, k) && !Local(env[k], name).value.isConst && sem.matches(v, Local(env[k], name).value.decl))
    decreases |env|
  {
    hide Local, NamedSlot;
    if env != [] {
      if Local(env[0], name).Some? {
        assert Innermost(env, name, 0);
        forall k: nat | Innermost(env, name, k) ensures k == 0 {}
      } else {
        var inner := env[1..];
        RefusesByName(sem, inner, name, v);
        assert env == [env[0]] + inner;
        forall k: nat | Innermost(env, name, k) ensures k > 0 && Innermost(inner, name, k - 1) && inner[k - 1] == env[k] {}
        forall k: nat | Innermost(inner, name, k) ensures Innermost(env, name, k + 1) && env[k + 1] == inner[k] { InnerFrame(env, name, k + 1); }
      }
    }
  }
}
