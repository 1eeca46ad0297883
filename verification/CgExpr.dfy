/** Boolean expressions over local variables, their values, and what it means for a piece
    of code with pending jump lists to compute one. */
module CgExpr {
  import opened Common
  import opened CgMachine

  datatype RelOp = OpEq | OpNe | OpLt | OpLe | OpGt | OpGe

  datatype Expr =
    | Var(i: Reg)
    | Paren(x: Expr)
    | Rel(op: RelOp, x: Expr, y: Expr)
    | Neg(x: Expr)
    | And(x: Expr, y: Expr)
    | Or(x: Expr, y: Expr)

  /** Sections 2.5.2 and 2.5.3 of the Lua 5.1 Reference Manual. */
  function Eval(x: Expr, r: Regs, ord: Order): Value {
    match x
    case Var(i) => r[i]
    case Paren(x) => Eval(x, r, ord)
    case Rel(op, x, y) => Bool(Related(op, Eval(x, r, ord), Eval(y, r, ord), ord))
    case Neg(x) => Bool(IsFalse(Eval(x, r, ord)))
    case And(x, y) => if IsFalse(Eval(x, r, ord)) then Eval(x, r, ord) else Eval(y, r, ord)
    case Or(x, y) => if IsFalse(Eval(x, r, ord)) then Eval(y, r, ord) else Eval(x, r, ord)
  }

  /** a > b is b < a and a >= b is b <= a. */
  predicate Related(op: RelOp, v: Value, w: Value, ord: Order) {
    match op
    case OpEq => ord(EQ, v, w)
    case OpNe => !ord(EQ, v, w)
    case OpLt => ord(LT, v, w)
    case OpLe => ord(LE, v, w)
    case OpGt => ord(LT, w, v)
    case OpGe => ord(LE, w, v)
  }

  /** Every variable of the expression is one of the first `n` registers. */
  predicate Uses(x: Expr, n: nat) {
    match x
    case Var(i) => i < n
    case Paren(x) => Uses(x, n)
    case Neg(x) => Uses(x, n)
    case Rel(_, x, y) => Uses(x, n) && Uses(y, n)
    case And(x, y) => Uses(x, n) && Uses(y, n)
    case Or(x, y) => Uses(x, n) && Uses(y, n)
  }

  lemma {:induction false} UsesMore(x: Expr, n: nat, m: nat)
    requires Uses(x, n) && n <= m
    ensures Uses(x, m)
  {
    match x
    case Var(i) =>
    case Paren(y) => UsesMore(y, n, m);
    case Neg(y) => UsesMore(y, n, m);
    case Rel(_, y, z) => UsesMore(y, n, m); UsesMore(z, n, m);
    case And(y, z) => UsesMore(y, n, m); UsesMore(z, n, m);
    case Or(y, z) => UsesMore(y, n, m); UsesMore(z, n, m);
  }

  lemma UsesOver(x: Expr, y: Expr, n: nat, op: RelOp)
    requires Uses(x, n) && Uses(y, n)
    ensures Uses(Neg(x), n) && Uses(Paren(x), n) && Uses(Rel(op, x, y), n) && Uses(And(x, y), n) && Uses(Or(x, y), n)
  {
  }

  /** The first `keep` registers are as they were, except perhaps register `hole`. */
  ghost predicate Keeps(r: Regs, r1: Regs, keep: nat, hole: int) {
    forall i: Reg :: i < keep && i != hole ==> r1[i] == r[i]
  }

  lemma {:induction false} EvalKept(x: Expr, r: Regs, r1: Regs, ord: Order, keep: nat)
    requires Uses(x, keep) && Keeps(r, r1, keep, -1)
    ensures Eval(x, r1, ord) == Eval(x, r, ord)
  {
    match x
    case Var(i) =>
    case Paren(y) => EvalKept(y, r, r1, ord, keep);
    case Neg(y) => EvalKept(y, r, r1, ord, keep);
    case Rel(_, y, z) => EvalKept(y, r, r1, ord, keep); EvalKept(z, r, r1, ord, keep);
    case And(y, z) => EvalKept(y, r, r1, ord, keep); EvalKept(z, r, r1, ord, keep);
    case Or(y, z) => EvalKept(y, r, r1, ord, keep); EvalKept(z, r, r1, ord, keep);
  }

  // -------------------------------------------------------------- jump lists

  /** The jumps taken when the expression is true, when it is false, and those waiting
      for the next instruction. */
  datatype Lists = Lists(t: seq<nat>, f: seq<nat>, j: seq<nat>)

  ghost function Elems(l: seq<nat>): set<nat> {
    set i | i in l
  }

  ghost function Pend(p: Lists): set<nat> {
    Elems(p.t) + Elems(p.f) + Elems(p.j)
  }

  ghost predicate Apart(a: seq<nat>, b: seq<nat>) {
    forall i :: i in a ==> i !in b
  }

  ghost predicate OnJumps(l: seq<nat>, c: seq<Instr>) {
    NoDup(l) && forall i :: i in l ==> i < |c| && c[i].Jmp?
  }

  /** Three disjoint lists of distinct jumps. */
  ghost predicate Listed(p: Lists, c: seq<Instr>) {
    && OnJumps(p.t, c) && OnJumps(p.f, c) && OnJumps(p.j, c)
    && Apart(p.t, p.f) && Apart(p.t, p.j) && Apart(p.f, p.j)
  }

  // ------------------------------------------------------ what code computes

  /** Where the value is when no pending jump has been taken: in a register, the negation
      of a register, the outcome of a comparison, or a constant; or only known to be
      true or false. */
  datatype Main =
    | InReg(r: Reg)
    | Negated(r: Reg)
    | Cond(op: Compare, cond: bool, b: Reg, c: Reg)
    | Known(val: bool)
    | Decided(val: bool)

  predicate Holds(m: Main, r: Regs, ord: Order, v: Value) {
    match m
    case InReg(k) => v == r[k]
    case Negated(k) => v == Bool(IsFalse(r[k]))
    case Cond(op, cond, b, c) => v == Bool(ord(op, r[b], r[c]) == cond)
    case Known(b) => v == Bool(b)
    case Decided(b) => IsFalse(v) != b
  }

  /** The value at a taken jump: what its TESTSET tested, or just true or false. */
  function JumpValue(c: seq<Instr>, at: nat, r: Regs, b: bool): Value {
    if 0 < at <= |c| && c[at - 1].TestSet? then r[c[at - 1].b] else Bool(b)
  }

  /** An execution that started in `r` ends right: with the value in its main place, or at
      a jump of the list that agrees with the value. */
  ghost predicate Outcome(x: Expr, m: Main, c: seq<Instr>, p: Lists, keep: nat, hole: int, ord: Order, r: Regs, out: Out) {
    match out
    case End(r1) => Keeps(r, r1, keep, hole) && Holds(m, r1, ord, Eval(x, r, ord))
    case Jump(at, r1) =>
      && Keeps(r, r1, keep, hole) && (at in p.t || at in p.f || at in p.j)
      && (at in p.j ==> Holds(m, r1, ord, Eval(x, r, ord)))
      && (at in p.t ==> !IsFalse(Eval(x, r, ord)) && JumpValue(c, at, r1, true) == Eval(x, r, ord))
      && (at in p.f ==> IsFalse(Eval(x, r, ord)) && JumpValue(c, at, r1, false) == Eval(x, r, ord))
    case Stuck => false
  }

  ghost predicate Denotes(x: Expr, m: Main, c: seq<Instr>, p: Lists, s: nat, keep: nat, hole: int) {
    forall ord: Order, r: Regs :: Outcome(x, m, c, p, keep, hole, ord, r, Exec(c, ord, Pend(p), s, r))
  }

  /** Every test has its jump behind it. */
  ghost predicate Sound(c: seq<Instr>) {
    forall i :: 0 <= i < |c| && IsTest(c[i]) ==> i + 1 < |c| && c[i + 1].Jmp?
  }

  /** The jump leads to `to` and moves no value. */
  ghost predicate Resolved(c: seq<Instr>, at: nat, to: nat) {
    at < |c| && c[at] == Jmp(to - at - 1) && (at > 0 ==> !c[at - 1].TestSet?)
  }

  /** The jumps `j0` that waited at the end of `c0` still wait there, nothing having been
      emitted, or they lead there and every list is newer. */
  ghost predicate Entered(c0: seq<Instr>, j0: seq<nat>, c: seq<Instr>, p: Lists) {
    || (c == c0 && p == Lists([], [], j0))
    || ((forall at :: at in j0 ==> Resolved(c, at, |c0|)) && (forall i :: i in Pend(p) ==> i >= |c0|))
  }

  /** The code `c` continues `c0`, where the jumps `j0` were waiting, by a computation of `x`
      that leaves the first `keep` registers alone. */
  ghost predicate Built(x: Expr, m: Main, c: seq<Instr>, p: Lists, c0: seq<Instr>, j0: seq<nat>, keep: nat, hole: int) {
    && Sound(c0) && OnJumps(j0, c0) && Sound(c) && Listed(p, c)
    && Kept(c0, Elems(j0), c) && Entered(c0, j0, c, p)
    && Denotes(x, m, c, p, |c0|, keep, hole)
  }

  // ------------------------------------------------------------- the patches

  /** `patchtestreg`: gives a TESTSET its register, or drops its value. */
  function PatchTest(i: Instr, reg: Reg): Instr
    requires i.TestSet?
  {
    if reg != NO_REG && reg != i.b then TestSet(reg, i.b, i.on) else Test(i.b, i.on)
  }

  /** The jump at `at` moves a value. */
  predicate Moves(c: seq<Instr>, at: nat) {
    0 < at <= |c| && c[at - 1].TestSet?
  }

  function PatchedAt(c: seq<Instr>, l: seq<nat>, vtarget: int, reg: Reg, dtarget: int, i: nat): Instr
    requires i < |c|
  {
    if i in l then Jmp((if Moves(c, i) then vtarget else dtarget) - (i + 1))
    else if c[i].TestSet? && i + 1 in l then PatchTest(c[i], reg)
    else c[i]
  }

  /** `patchlistaux`: value-moving jumps of the list go to `vtarget`, the others to `dtarget`. */
  function Patched(c: seq<Instr>, l: seq<nat>, vtarget: int, reg: Reg, dtarget: int): (r: seq<Instr>)
    ensures |r| == |c|
  {
    seq(|c|, i requires 0 <= i < |c| => PatchedAt(c, l, vtarget, reg, dtarget, i))
  }

  /** `dischargejpc`: the waiting jumps lead to the next instruction. */
  function Discharged(c: seq<Instr>, j: seq<nat>): (r: seq<Instr>)
    ensures |r| == |c|
  {
    Patched(c, j, |c|, NO_REG, |c|)
  }

  /** `removevalues`. */
  function Stripped(c: seq<Instr>, l: seq<nat>): (r: seq<Instr>)
    ensures |r| == |c|
  {
    seq(|c|, i requires 0 <= i < |c| => if c[i].TestSet? && i + 1 in l then PatchTest(c[i], NO_REG) else c[i])
  }
}
