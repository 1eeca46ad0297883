/** The instructions that conditional expressions compile to, the virtual machine
    that runs them, and execution of code in which some jumps are still pending. */
module CgMachine {

  const NO_JUMP := -1
  const NO_REG: Reg := 255
  const MAXARG_SBX := 131071
  const MAXSTACK: nat := 250
  const REGISTERS: nat := 256

  /** Every value but nil and false counts as true. */
  datatype Value = Nil | Bool(b: bool) | Other(n: int)

  predicate IsFalse(v: Value) {
    v == Nil || v == Bool(false)
  }

  datatype Compare = EQ | LT | LE

  /** What the comparison instructions answer; the program's metamethods decide. */
  type Order = (Compare, Value, Value) -> bool

  /** A register number, as an instruction's A field holds it. */
  type Reg = n: nat | n < REGISTERS witness 0

  datatype Instr =
    | Move(a: Reg, b: Reg)
    | LoadBool(a: Reg, val: bool, skip: bool)
    | Not(a: Reg, b: Reg)
    | Jmp(sbx: int)
    | Comp(op: Compare, cond: bool, b: Reg, c: Reg)
    | Test(a: Reg, on: bool)
    | TestSet(a: Reg, b: Reg, on: bool)
    | Return

  /** Every jump is near enough for its field. */
  ghost predicate Fits(c: seq<Instr>) {
    forall i {:trigger c[i]} :: 0 <= i < |c| && c[i].Jmp? ==> InField(c[i].sbx)
  }

  predicate InField(sbx: int) {
    -MAXARG_SBX <= sbx <= MAXARG_SBX
  }

  lemma FitsSet(c: seq<Instr>, i: nat, x: Instr)
    requires Fits(c) && i < |c| && (x.Jmp? ==> InField(x.sbx))
    ensures Fits(c[i := x])
  {
  }

  lemma FitsAdd(c: seq<Instr>, x: Instr)
    requires Fits(c) && (x.Jmp? ==> InField(x.sbx))
    ensures Fits(c + [x])
  {
  }

  lemma FitsCut(c: seq<Instr>)
    requires Fits(c) && c != []
    ensures Fits(c[..|c| - 1])
  {
  }

  /** `testTMode`: the instructions that decide whether the jump behind them is taken. */
  predicate IsTest(i: Instr) {
    i.Comp? || i.Test? || i.TestSet?
  }

  /** A stack frame. */
  type Regs = r: seq<Value> | |r| == REGISTERS witness seq(REGISTERS, _ => Nil)

  predicate Taken(i: Instr, r: Regs, ord: Order)
    requires IsTest(i)
  {
    match i
    case Comp(op, cond, b, c) => ord(op, r[b], r[c]) == cond
    case Test(a, on) => IsFalse(r[a]) != on
    case TestSet(_, b, on) => IsFalse(r[b]) != on
  }

  /** The effect of a test whose jump is taken. */
  function Effect(i: Instr, r: Regs): Regs {
    if i.TestSet? then r[i.a := r[i.b]] else r
  }

  // ------------------------------------------------------------ the machine

  datatype State = At(pc: int, regs: Regs) | Halted

  /** One turn of `luaV_execute`; a test reads the jump behind it. */
  function Step(code: seq<Instr>, ord: Order, s: State): State {
    if s.Halted? || !(0 <= s.pc < |code|) then Halted
    else
      var pc, r := s.pc, s.regs;
      var i := code[pc];
      match i
      case Move(a, b) => At(pc + 1, r[a := r[b]])
      case LoadBool(a, v, skip) => At(if skip then pc + 2 else pc + 1, r[a := Bool(v)])
      case Not(a, b) => At(pc + 1, r[a := Bool(IsFalse(r[b]))])
      case Jmp(sbx) => At(pc + 1 + sbx, r)
      case Return => Halted
      case _ =>
        if pc + 1 >= |code| || !code[pc + 1].Jmp? then Halted
        else if Taken(i, r, ord) then At(pc + 2 + code[pc + 1].sbx, Effect(i, r))
        else At(pc + 2, r)
  }

  function Steps(code: seq<Instr>, ord: Order, s: State, n: nat): State
    decreases n
  {
    if n == 0 then s else Steps(code, ord, Step(code, ord, s), n - 1)
  }

  // -------------------------------------------- execution with pending jumps

  /** Execution reaches the end of the code, is about to take a pending jump (whose test,
      if it has one, succeeded), or is not the forward execution of whole tests. */
  datatype Out = End(regs: Regs) | Jump(at: nat, regs: Regs) | Stuck

  function Exec(code: seq<Instr>, ord: Order, pend: set<nat>, pc: nat, r: Regs): Out
    decreases |code| - pc
  {
    if pc >= |code| then (if pc == |code| then End(r) else Stuck)
    else
      var i := code[pc];
      match i
      case Move(a, b) => Exec(code, ord, pend, pc + 1, r[a := r[b]])
      case LoadBool(a, v, skip) => Exec(code, ord, pend, if skip then pc + 2 else pc + 1, r[a := Bool(v)])
      case Not(a, b) => Exec(code, ord, pend, pc + 1, r[a := Bool(IsFalse(r[b]))])
      case Jmp(_) => if pc > 0 && IsTest(code[pc - 1]) then Stuck else Land(code, ord, pend, pc, r)
      case Return => Stuck
      case _ =>
        if pc + 1 >= |code| || !code[pc + 1].Jmp? then Stuck
        else if Taken(i, r, ord) then Land(code, ord, pend, pc + 1, r)
        else Exec(code, ord, pend, pc + 2, r)
  }

  /** Takes the jump at `at`, unless it is pending. */
  function Land(code: seq<Instr>, ord: Order, pend: set<nat>, at: nat, r: Regs): Out
    requires at < |code| && code[at].Jmp?
    decreases |code| - at, 0
  {
    if at in pend then Jump(at, r)
    else
      var to := at + 1 + code[at].sbx;
      if to <= at then Stuck
      else Exec(code, ord, pend, to, if at > 0 then Effect(code[at - 1], r) else r)
  }

  /** Without pending jumps, an execution that reaches the end is a run of the machine,
      whatever follows the code. */
  lemma {:induction false} ExecIsRun(code: seq<Instr>, rest: seq<Instr>, ord: Order, pc: nat, r: Regs)
    requires Exec(code, ord, {}, pc, r).End?
    ensures exists n: nat :: Steps(code + rest, ord, At(pc, r), n) == At(|code|, Exec(code, ord, {}, pc, r).regs)
    decreases |code| - pc
  {
    if pc == |code| {
      assert Steps(code + rest, ord, At(pc, r), 0) == At(|code|, r);
    } else {
      var s := Step(code + rest, ord, At(pc, r));
      assert s.At? && s.pc > pc && Exec(code, ord, {}, pc, r) == Exec(code, ord, {}, s.pc, s.regs);
      ExecIsRun(code, rest, ord, s.pc, s.regs);
      var n: nat :| Steps(code + rest, ord, s, n) == At(|code|, Exec(code, ord, {}, pc, r).regs);
      assert Steps(code + rest, ord, At(pc, r), n + 1) == Steps(code + rest, ord, s, n);
    }
  }

  // ------------------------------------------------------------- refinement

  /** The same decision; a TESTSET may have got its destination or become a TEST. */
  predicate SameTest(i: Instr, j: Instr) {
    || i == j
    || (i.TestSet? && j.TestSet? && i.b == j.b && i.on == j.on)
    || (i.TestSet? && j.Test? && i.b == j.a && i.on == j.on)
  }

  /** `new` continues `old`: it only adds code, resolves jumps that were pending (`open`)
      and settles the tests in front of them. */
  ghost predicate Kept(old_: seq<Instr>, open: set<nat>, new_: seq<Instr>) {
    && |old_| <= |new_|
    && (forall i {:trigger old_[i]} {:trigger new_[i]} :: 0 <= i < |old_| ==>
      && (i in open ==> old_[i].Jmp? && new_[i].Jmp?)
      && (IsTest(old_[i]) && i + 1 in open ==> SameTest(old_[i], new_[i]))
      && (i !in open && !(IsTest(old_[i]) && i + 1 in open) ==> new_[i] == old_[i]))
  }

  lemma KeptTrans(c0: seq<Instr>, p0: set<nat>, c1: seq<Instr>, p1: set<nat>, c2: seq<Instr>)
    requires Kept(c0, p0, c1) && Kept(c1, p1, c2)
    requires forall i :: i in p1 && i < |c0| ==> i in p0
    requires |c0| > 0 ==> !IsTest(c0[|c0| - 1])
    ensures Kept(c0, p0, c2)
  {
    forall i | 0 <= i < |c0|
      ensures i in p0 ==> c0[i].Jmp? && c2[i].Jmp?
      ensures IsTest(c0[i]) && i + 1 in p0 ==> SameTest(c0[i], c2[i])
      ensures i !in p0 && !(IsTest(c0[i]) && i + 1 in p0) ==> c2[i] == c0[i]
    {
      assert c1[i] == c1[i];
    }
  }

  /** What `Refine` says about one execution `out` of the old code and its continuation
      `out2` in the new code. */
  ghost predicate Follows(c1: seq<Instr>, p1: set<nat>, c2: seq<Instr>, p2: set<nat>, ord: Order, lo: nat, out: Out, out2: Out) {
    match out
    case End(r) => out2 == Exec(c2, ord, p2, |c1|, r)
    case Jump(at, r) => lo <= at < |c1| <= |c2| && at in p1 && c2[at].Jmp? && out2 == Land(c2, ord, p2, at, r)
    case Stuck => true
  }

  /** Execution of the continued code follows that of the old code and then goes on from
      its end, or from the target that its pending jump has got. */
  lemma {:induction false} Refine(c1: seq<Instr>, p1: set<nat>, c2: seq<Instr>, p2: set<nat>,
                                  ord: Order, lo: nat, pc: nat, r: Regs)
    requires lo <= pc && Kept(c1, p1, c2)
    requires forall i :: i in p2 && lo <= i < |c1| ==> i in p1
    ensures Follows(c1, p1, c2, p2, ord, lo, Exec(c1, ord, p1, pc, r), Exec(c2, ord, p2, pc, r))
    decreases |c1| - pc
  {
    if pc < |c1| {
      assert c1[pc] == c1[pc];
      match c1[pc] {
        case Move(a, b) => Refine(c1, p1, c2, p2, ord, lo, pc + 1, r[a := r[b]]);
        case LoadBool(a, v, skip) => Refine(c1, p1, c2, p2, ord, lo, if skip then pc + 2 else pc + 1, r[a := Bool(v)]);
        case Not(a, b) => Refine(c1, p1, c2, p2, ord, lo, pc + 1, r[a := Bool(IsFalse(r[b]))]);
        case Return =>
        case Jmp(_) =>
          if pc == 0 || !IsTest(c1[pc - 1]) {
            if pc > 0 { KeptTest(c1, p1, c2, pc - 1); }
            RefineLand(c1, p1, c2, p2, ord, lo, pc, r);
          }
        case _ =>
          if pc + 1 < |c1| && c1[pc + 1].Jmp? {
            KeptTest(c1, p1, c2, pc);
            assert Taken(c2[pc], r, ord) == Taken(c1[pc], r, ord);
            if Taken(c1[pc], r, ord) {
              RefineLand(c1, p1, c2, p2, ord, lo, pc + 1, r);
            } else {
              Refine(c1, p1, c2, p2, ord, lo, pc + 2, r);
            }
          }
      }
    }
  }

  lemma KeptTest(c1: seq<Instr>, p1: set<nat>, c2: seq<Instr>, i: nat)
    requires Kept(c1, p1, c2) && i < |c1|
    ensures IsTest(c1[i]) ==> SameTest(c1[i], c2[i])
    ensures IsTest(c1[i]) == IsTest(c2[i])
  {
  }

  lemma {:induction false} RefineLand(c1: seq<Instr>, p1: set<nat>, c2: seq<Instr>, p2: set<nat>,
                                      ord: Order, lo: nat, at: nat, r: Regs)
    requires lo <= at < |c1| && Kept(c1, p1, c2) && c1[at].Jmp?
    requires forall i :: i in p2 && lo <= i < |c1| ==> i in p1
    ensures c2[at].Jmp?
    ensures Follows(c1, p1, c2, p2, ord, lo, Land(c1, ord, p1, at, r), Land(c2, ord, p2, at, r))
    decreases |c1| - at, 0
  {
    assert c2[at].Jmp? by { assert c1[at] == c1[at]; }
    if at !in p1 {
      assert c2[at] == c1[at];
      if at > 0 { assert Effect(c1[at - 1], r) == Effect(c2[at - 1], r) by { assert c1[at - 1] == c1[at - 1]; } }
      if c1[at].sbx >= 0 {
        Refine(c1, p1, c2, p2, ord, lo, at + 1 + c1[at].sbx, if at > 0 then Effect(c1[at - 1], r) else r);
      }
    }
  }
}
