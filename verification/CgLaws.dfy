/** What the values of expressions are, and what the code for a comparison computes, in terms of
    the values that the program sees. */
module CgLaws {
  import opened CgMachine
  import opened CgExpr
  import opened CgFuncState

  // ------------------------------------------------------------- expressions

  /** Equality and both orders of two variables are what the machine is told. */
  lemma VarsCompared(a: Reg, b: Reg, r: Regs, ord: Order)
    ensures Eval(Rel(OpEq, Var(a), Var(b)), r, ord) == Bool(ord(EQ, r[a], r[b]))
    ensures Eval(Rel(OpLt, Var(a), Var(b)), r, ord) == Bool(ord(LT, r[a], r[b]))
    ensures Eval(Rel(OpLe, Var(a), Var(b)), r, ord) == Bool(ord(LE, r[a], r[b]))
  {
  }

  /** The three other comparisons are said by these. */
  lemma Comparisons(x: Expr, y: Expr, r: Regs, ord: Order)
    ensures Eval(Rel(OpNe, x, y), r, ord) == Eval(Neg(Rel(OpEq, x, y)), r, ord)
    ensures Eval(Rel(OpGt, x, y), r, ord) == Eval(Rel(OpLt, y, x), r, ord)
    ensures Eval(Rel(OpGe, x, y), r, ord) == Eval(Rel(OpLe, y, x), r, ord)
  {
  }

  /** Section 2.5.3: `and` gives its first operand if that is nil or false, `or` if it is neither;
      otherwise they give the second one. `not` gives a boolean. */
  lemma Connectives(x: Expr, y: Expr, r: Regs, ord: Order)
    ensures var v := Eval(x, r, ord);
      if v in {Nil, Bool(false)} then
        Eval(And(x, y), r, ord) == v && Eval(Or(x, y), r, ord) == Eval(y, r, ord) && Eval(Neg(x), r, ord) == Bool(true)
      else
        Eval(And(x, y), r, ord) == Eval(y, r, ord) && Eval(Or(x, y), r, ord) == v && Eval(Neg(x), r, ord) == Bool(false)
    ensures Eval(Paren(x), r, ord) == Eval(x, r, ord)
  {
  }

  // ------------------------------------------------------------- the code

  /** Two pieces of code, each run from its beginning to its end on the same registers, leave the
      same value in `v` and the other registers below `keep` as they were. */
  ghost predicate Agree(v: Reg, keep: nat, c: seq<Instr>, at: nat, end: nat, c': seq<Instr>, at': nat, end': nat, ord: Order, r: Regs) {
    exists n: nat, n': nat, r1: Regs, r2: Regs ::
      && Steps(c, ord, At(at, r), n) == At(end, r1) && Steps(c', ord, At(at', r), n') == At(end', r2)
      && r1[v] == r2[v] && forall i: Reg :: i < keep && i != v ==> r1[i] == r2[i] == r[i]
  }

  /** Expressions that always have the same value compile to code that leaves the same value. */
  lemma SameValue(x: Expr, y: Expr, v: Reg, c0: seq<Instr>, j0: seq<nat>, keep: nat, c: seq<Instr>, j: seq<nat>,
      d0: seq<Instr>, k0: seq<nat>, d: seq<Instr>, k: seq<nat>, rest: seq<Instr>, rest': seq<Instr>, ord: Order, r: Regs)
    requires Eval(x, r, ord) == Eval(y, r, ord)
    requires Works(x, v, c0, j0, keep, c, j) && Works(y, v, d0, k0, keep, d, k)
    ensures Agree(v, keep, Discharged(c, j) + rest, |c0|, |c|, Discharged(d, k) + rest', |d0|, |d|, ord, r)
  {
    hide Eval, Discharged, Steps;
    var code, code' := Discharged(c, j) + rest, Discharged(d, k) + rest';
    assert Executes(x, v, |c0|, j0, keep, code, |c|, ord, r);
    assert Executes(y, v, |d0|, k0, keep, code', |d|, ord, r);
    var n: nat, r1: Regs :| Steps(code, ord, At(|c0|, r), n) == At(|c|, r1)
      && r1[v] == Eval(x, r, ord) && forall i: Reg :: i < keep && i != v ==> r1[i] == r[i];
    var n': nat, r2: Regs :| Steps(code', ord, At(|d0|, r), n') == At(|d|, r2)
      && r2[v] == Eval(y, r, ord) && forall i: Reg :: i < keep && i != v ==> r2[i] == r[i];
  }

  /** `v = x ~= y` and `v = not (x == y)` leave the same value, wherever they are compiled;
      and so do `x > y` and `y < x`, and `x >= y` and `y <= x`. */
  lemma ComparisonsRun(x: Expr, y: Expr, v: Reg, c0: seq<Instr>, j0: seq<nat>, keep: nat, c: seq<Instr>, j: seq<nat>,
      d0: seq<Instr>, k0: seq<nat>, d: seq<Instr>, k: seq<nat>, rest: seq<Instr>, rest': seq<Instr>, ord: Order, r: Regs)
    requires
      || (Works(Rel(OpNe, x, y), v, c0, j0, keep, c, j) && Works(Neg(Paren(Rel(OpEq, x, y))), v, d0, k0, keep, d, k))
      || (Works(Rel(OpGt, x, y), v, c0, j0, keep, c, j) && Works(Rel(OpLt, y, x), v, d0, k0, keep, d, k))
      || (Works(Rel(OpGe, x, y), v, c0, j0, keep, c, j) && Works(Rel(OpLe, y, x), v, d0, k0, keep, d, k))
    ensures Agree(v, keep, Discharged(c, j) + rest, |c0|, |c|, Discharged(d, k) + rest', |d0|, |d|, ord, r)
  {
    hide Works, Agree, Discharged;
    Comparisons(x, y, r, ord);
    if Works(Rel(OpNe, x, y), v, c0, j0, keep, c, j) && Works(Neg(Paren(Rel(OpEq, x, y))), v, d0, k0, keep, d, k) {
      SameValue(Rel(OpNe, x, y), Neg(Paren(Rel(OpEq, x, y))), v, c0, j0, keep, c, j, d0, k0, d, k, rest, rest', ord, r);
    } else if Works(Rel(OpGt, x, y), v, c0, j0, keep, c, j) && Works(Rel(OpLt, y, x), v, d0, k0, keep, d, k) {
      SameValue(Rel(OpGt, x, y), Rel(OpLt, y, x), v, c0, j0, keep, c, j, d0, k0, d, k, rest, rest', ord, r);
    } else {
      SameValue(Rel(OpGe, x, y), Rel(OpLe, y, x), v, c0, j0, keep, c, j, d0, k0, d, k, rest, rest', ord, r);
    }
  }

  /** The code for `v = a op b` puts into `v` whether the values of the two variables compare so. */
  lemma VarsRun(op: RelOp, a: Reg, b: Reg, v: Reg, c0: seq<Instr>, j0: seq<nat>, keep: nat, c: seq<Instr>, j: seq<nat>,
      rest: seq<Instr>, ord: Order, r: Regs) returns (n: nat, r1: Regs)
    requires Works(Rel(op, Var(a), Var(b)), v, c0, j0, keep, c, j)
    ensures Steps(Discharged(c, j) + rest, ord, At(|c0|, r), n) == At(|c|, r1)
    ensures op == OpEq ==> r1[v] == Bool(ord(EQ, r[a], r[b]))
    ensures op == OpNe ==> r1[v] == Bool(!ord(EQ, r[a], r[b]))
    ensures op == OpLt ==> r1[v] == Bool(ord(LT, r[a], r[b]))
    ensures op == OpLe ==> r1[v] == Bool(ord(LE, r[a], r[b]))
    ensures op == OpGt ==> r1[v] == Bool(ord(LT, r[b], r[a]))
    ensures op == OpGe ==> r1[v] == Bool(ord(LE, r[b], r[a]))
  {
    hide Discharged, Steps;
    var code := Discharged(c, j) + rest;
    var x := Rel(op, Var(a), Var(b));
    assert Eval(Var(a), r, ord) == r[a] && Eval(Var(b), r, ord) == r[b];
    assert Executes(x, v, |c0|, j0, keep, code, |c|, ord, r);
    n, r1 :| Steps(code, ord, At(|c0|, r), n) == At(|c|, r1)
      && r1[v] == Eval(x, r, ord) && forall i: Reg :: i < keep && i != v ==> r1[i] == r[i];
  }

  // ------------------------------------------------------------- the machine

  /** A test takes the jump behind it, or skips it; only TESTSET moves a value, if it jumps. */
  lemma TestSteps(code: seq<Instr>, ord: Order, pc: nat, r: Regs)
    requires pc + 1 < |code| && code[pc + 1].Jmp? && IsTest(code[pc])
    ensures var s, to := Step(code, ord, At(pc, r)), pc + 2 + code[pc + 1].sbx;
      match code[pc]
      case Comp(op, cond, b, c) => s == if ord(op, r[b], r[c]) == cond then At(to, r) else At(pc + 2, r)
      case Test(a, on) => s == if (r[a] in {Nil, Bool(false)}) != on then At(to, r) else At(pc + 2, r)
      case TestSet(a, b, on) => s == if (r[b] in {Nil, Bool(false)}) != on then At(to, r[a := r[b]]) else At(pc + 2, r)
      case _ => false
  {
  }
}
