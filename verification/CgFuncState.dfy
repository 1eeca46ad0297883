/** The state of the code generator and its operations on instructions, jump lists and
    registers. */
module CgFuncState {
  import opened Common
  import opened CgMachine
  import opened CgExpr
  import opened CgProof
  import opened CgSequence
  import opened CgFinish
  import opened CgCode

  datatype Error = TooLong | TooComplex | Overflow

  datatype Status = Pass | Fail(error: Error) {
    predicate IsFailure() { Fail? }
    function PropagateFailure(): Status { this }
  }

  datatype BinOpr = OprAnd | OprOr | OprRel(rel: RelOp)

  function Combined(op: BinOpr, x: Expr, y: Expr): Expr {
    match op
    case OprAnd => And(x, y)
    case OprOr => Or(x, y)
    case OprRel(rel) => Rel(rel, x, y)
  }

  /** The instruction and the flag that `luaK_posfix` chooses for a comparison. */
  function OpCode(op: RelOp): Compare {
    match op
    case OpEq => EQ
    case OpNe => EQ
    case OpLt => LT
    case OpGt => LT
    case OpLe => LE
    case OpGe => LE
  }

  predicate Positive(op: RelOp) {
    op in {OpEq, OpLt, OpLe}
  }

  /** The test for an operator, with the register of the first operand. */
  predicate Tests(op: RelOp, i: Instr, o1: int) {
    i.Comp? &&
    match op
    case OpEq => i.op == EQ && i.cond && i.b == o1
    case OpNe => i.op == EQ && !i.cond && i.b == o1
    case OpLt => i.op == LT && i.cond && i.b == o1
    case OpLe => i.op == LE && i.cond && i.b == o1
    case OpGt => i.op == LT && i.cond && i.c == o1
    case OpGe => i.op == LE && i.cond && i.c == o1
  }

  lemma TestOf(op: RelOp, a: Reg, b: Reg, test: Instr)
    requires test == if !Positive(op) && OpCode(op) != EQ then Comp(OpCode(op), true, b, a) else Comp(OpCode(op), Positive(op), a, b)
    ensures test.Comp? && Tests(op, test, a) && CompOf(op, a, b) == Cond(test.op, test.cond, test.b, test.c)
  {
  }

  /** A bound on the instructions that compiling an expression takes. */
  function Size(x: Expr): nat {
    match x
    case Var(_) => 0
    case Paren(y) => Size(y)
    case Neg(y) => Size(y) + 2
    case And(y, z) => Size(y) + Size(z) + 10
    case Or(y, z) => Size(y) + Size(z) + 10
    case Rel(_, y, z) => Size(y) + Size(z) + 10
  }

  /** Where the compiled expression is, and whether jumps are pending. */
  function KindOf(x: Expr): ExpKind {
    match x
    case Var(_) => VLOCAL
    case Paren(y) => InRegister(KindOf(y))
    case Neg(y) => if KindOf(y) == VJMP then VJMP else VRELOCABLE
    case And(_, z) => InRegister(KindOf(z))
    case Or(_, z) => InRegister(KindOf(z))
    case Rel(_, _, _) => VJMP
  }

  function InRegister(k: ExpKind): ExpKind {
    if k == VLOCAL then VNONRELOC else k
  }

  predicate Jumping(x: Expr) {
    match x
    case Var(_) => false
    case Paren(y) => Jumping(y)
    case Neg(y) => Jumping(y)
    case And(_, _) => true
    case Or(_, _) => true
    case Rel(_, _, _) => false
  }

  /** The register that an operand of a comparison takes, unless it is a plain local variable. */
  function Held(x: Expr): nat {
    if (KindOf(x) == VLOCAL || KindOf(x) == VNONRELOC) && !Jumping(x) then 0 else 1
  }

  /** The number of registers that compiling an expression takes. */
  function Temps(x: Expr): nat {
    match x
    case Var(_) => 0
    case Paren(y) => Temps(y)
    case Neg(y) => Max(Temps(y), if KindOf(y) == VRELOCABLE then 1 else 0)
    case And(y, z) => Max(Temps(y), Temps(z))
    case Or(y, z) => Max(Temps(y), Temps(z))
    case Rel(_, y, z) => Max(Temps(y), Held(y) + Max(Temps(z), Held(z)))
  }

  function Max(a: nat, b: nat): nat {
    if a < b then b else a
  }

  /** The machine runs over `code` from position `start`, where all jumps `j0` lead, to position
      `end`; it leaves the value of `x` in `v`, and the other registers below `keep` as they were. */
  ghost predicate Executes(x: Expr, v: Reg, start: nat, j0: seq<nat>, keep: nat, code: seq<Instr>, end: nat, ord: Order, r: Regs) {
    && (forall at :: at in j0 ==> at < |code| && code[at] == Jmp(start - at - 1))
    && exists n: nat, r1: Regs :: Steps(code, ord, At(start, r), n) == At(end, r1)
         && r1[v] == Eval(x, r, ord) && forall i: Reg :: i < keep && i != v ==> r1[i] == r[i]
  }

  /** The code `c` continues `c0` by `v = x`: once the next instruction has been emitted, it
      executes so whatever follows, for all registers and outcomes of comparisons. */
  ghost predicate Works(x: Expr, v: Reg, c0: seq<Instr>, j0: seq<nat>, keep: nat, c: seq<Instr>, j: seq<nat>) {
    forall rest: seq<Instr>, ord: Order, r: Regs {:trigger Executes(x, v, |c0|, j0, keep, Discharged(c, j) + rest, |c|, ord, r)} ::
      Executes(x, v, |c0|, j0, keep, Discharged(c, j) + rest, |c|, ord, r)
  }

  lemma AssignWorks(x: Expr, v: Reg, c0: seq<Instr>, j0: seq<nat>, keep: nat, c: seq<Instr>, j: seq<nat>)
    requires Reached(Goal(x, c0, j0, keep), InReg(v), c, Lists([], [], j), v)
    ensures Works(x, v, c0, j0, keep, c, j)
  {
    hide Reached, Executes;
    forall rest: seq<Instr>, ord: Order, r: Regs ensures Executes(x, v, |c0|, j0, keep, Discharged(c, j) + rest, |c|, ord, r) {
      AssignRuns(x, v, c0, j0, keep, c, j, rest, ord, r);
    }
  }

  /** Code that computes `x` into `v` runs so. */
  lemma AssignRuns(x: Expr, v: Reg, c0: seq<Instr>, j0: seq<nat>, keep: nat, c: seq<Instr>, j: seq<nat>, rest: seq<Instr>, ord: Order, r: Regs)
    requires Reached(Goal(x, c0, j0, keep), InReg(v), c, Lists([], [], j), v)
    ensures Executes(x, v, |c0|, j0, keep, Discharged(c, j) + rest, |c|, ord, r)
  {
    var c1 := Discharged(c, j);
    Settle(x, InReg(v), c, Lists([], [], j), c0, j0, keep, v);
    assert Pend(Lists([], [], [])) == {};
    var out := Exec(c1, ord, {}, |c0|, r);
    assert Outcome(x, InReg(v), c1, Lists([], [], []), keep, v, ord, r, out);
    ExecIsRun(c1, rest, ord, |c0|, r);
    var n: nat :| Steps(c1 + rest, ord, At(|c0|, r), n) == At(|c1|, out.regs);
    forall at | at in j0 ensures at < |c1| && c1[at] == Jmp(|c0| - at - 1) {
      if c1 == c0 && j0 == [] { } else { assert Resolved(c1, at, |c0|); }
    }
  }

  lemma BinaryCosts(op: BinOpr, x: Expr, y: Expr)
    ensures var z := Combined(op, x, y);
      && Size(z) == Size(x) + Size(y) + 10
      && Temps(z) == (if op.OprRel? then Max(Temps(x), Held(x) + Max(Temps(y), Held(y))) else Max(Temps(x), Temps(y)))
      && KindOf(z) == (if op.OprRel? then VJMP else InRegister(KindOf(y))) && Jumping(z) == !op.OprRel?
  {
    hide Max, Held, InRegister;
    match op {
      case OprAnd => assert Combined(op, x, y) == And(x, y);
      case OprOr => assert Combined(op, x, y) == Or(x, y);
      case OprRel(rel) => assert Combined(op, x, y) == Rel(rel, x, y);
    }
  }

  class FuncState {
    var code: seq<Instr>
    var jpc: int
    var lasttarget: int
    var freereg: nat
    var nactvar: nat
    var maxstacksize: nat
    /** The jumps of list `jpc`. */
    ghost var j: seq<nat>

    ghost predicate Valid()
      reads this
    {
      && Sound(code) && OnJumps(j, code) && IsList(code, jpc, j)
      && nactvar <= freereg <= maxstacksize < MAXSTACK
    }

    /** Compilation fails for want of jump distance or memory only when the code is that long;
        when it passes, jumps still fit into their fields. */
    twostate predicate Excused(st: Status)
      reads this
    {
      match st
      case Pass => Fits(old(code)) ==> Fits(code)
      case Fail(TooLong) => |code| > MAXARG_SBX
      case Fail(Overflow) => |code| >= MAX_INT
      case Fail(TooComplex) => true
    }

    // ------------------------------------------------------------ jump lists

    method FixJump(pc: nat, dest: int) returns (st: Status)
      requires pc < |code| && code[pc].Jmp? && 0 <= dest <= |code|
      modifies `code
      ensures st.Fail? <==> dest - (pc + 1) > MAXARG_SBX || (pc + 1) - dest > MAXARG_SBX
      ensures st.Fail? ==> st.error == TooLong && code == old(code)
      ensures st.Pass? ==> code == old(code)[pc := Jmp(dest - (pc + 1))]
      ensures |code| == |old(code)| && Excused(st)
    {
      var offset := dest - (pc + 1);
      if (if offset < 0 then -offset else offset) > MAXARG_SBX { return Fail(TooLong); }
      if Fits(code) { FitsSet(code, pc, Jmp(offset)); }
      code := code[pc := Jmp(offset)];
      return Pass;
    }

    method GetLabel() returns (pc: nat)
      modifies `lasttarget
      ensures pc == |code| == lasttarget
    {
      lasttarget := |code|;
      pc := |code|;
    }

    /** `getjumpcontrol`: the index of the test of a jump, or of the jump itself. */
    function JumpControl(pc: nat): (i: nat)
      requires pc < |code|
      reads this
    {
      if pc >= 1 && IsTest(code[pc - 1]) then pc - 1 else pc
    }

    method NeedValue(head: int, ghost l: seq<nat>) returns (need: bool)
      requires IsList(code, head, l)
      ensures need <==> NeedsValue(code, l)
    {
      var list := head;
      ghost var k := 0;
      while list != NO_JUMP
        invariant 0 <= k <= |l| && list == Link(l, k)
        invariant forall i :: 0 <= i < k ==> Moves(code, l[i])
        decreases |l| - k
      {
        assert Threaded(code, l, k);
        if !code[JumpControl(list)].TestSet? { assert l[k] in l; return true; }
        list, k := GetJump(code, list), k + 1;
      }
      return false;
    }

    method PatchTestReg(node: nat, reg: Reg) returns (done: bool)
      requires node < |code| && code[node].Jmp?
      modifies `code
      ensures done == Moves(old(code), node)
      ensures code == if done then old(code)[node - 1 := PatchTest(old(code)[node - 1], reg)] else old(code)
      ensures Excused(Pass)
    {
      var i := JumpControl(node);
      if !code[i].TestSet? { return false; }
      if Fits(code) {
        FitsSet(code, i, TestSet(reg, code[i].b, code[i].on));
        FitsSet(code, i, Test(code[i].b, code[i].on));
      }
      if reg != NO_REG && reg != code[i].b {
        code := code[i := TestSet(reg, code[i].b, code[i].on)];
      } else {
        code := code[i := Test(code[i].b, code[i].on)];
      }
      return true;
    }

    method RemoveValues(head: int, ghost l: seq<nat>)
      requires IsList(code, head, l) && OnJumps(l, code)
      modifies `code
      ensures code == Stripped(old(code), l) && Excused(Pass)
    {
      hide Stripped, NoDup, Sound, Fits;
      var list := head;
      ghost var k := 0;
      PatchedNone(code, 0, 0, 0);
      while list != NO_JUMP
        invariant 0 <= k <= |l| && list == Link(l, k)
        invariant code == Stripped(old(code), l[..k]) && Excused(Pass)
        decreases |l| - k
      {
        StrippedNext(old(code), l, k);
        assert Threaded(old(code), l, k);
        var _ := PatchTestReg(list, NO_REG);
        assert code[list] == old(code)[l[k]];
        list, k := GetJump(code, list), k + 1;
      }
      assert l[..k] == l;
    }

    method PatchListAux(head: int, vtarget: int, reg: Reg, dtarget: int, ghost l: seq<nat>) returns (st: Status)
      requires IsList(code, head, l) && OnJumps(l, code)
      requires 0 <= vtarget <= |code|
      requires 0 <= dtarget <= |code| || !NeedsValue(code, l)
      modifies `code
      ensures st.Pass? ==> code == Patched(old(code), l, vtarget, reg, dtarget)
      ensures |code| == |old(code)| && Excused(st) && st != Fail(TooComplex)
    {
      hide Patched, OnJumps, PatchStep, Fits;
      var list := head;
      ghost var k := 0;
      PatchedNone(code, vtarget, reg, dtarget);
      while list != NO_JUMP
        invariant 0 <= k <= |l| && list == Link(l, k)
        invariant code == Patched(old(code), l[..k], vtarget, reg, dtarget) && |code| == |old(code)| && Excused(Pass)
        decreases |l| - k
      {
        PatchedNext(old(code), l, k, vtarget, reg, dtarget, code);
        assert Threaded(old(code), l, k) && l[k] in l;
        ghost var before := code;
        var next := GetJump(code, list);
        var moved := PatchTestReg(list, reg);
        assert !moved ==> NeedsValue(old(code), l);
        :- FixJump(list, if moved then vtarget else dtarget);
        StepDone(before, code, list, vtarget, reg, dtarget);
        list, k := next, k + 1;
      }
      assert l[..k] == l;
      return Pass;
    }

    method Concat(l1: int, l2: int, ghost a: seq<nat>, ghost b: seq<nat>) returns (st: Status, head: int)
      requires IsList(code, l1, a) && IsList(code, l2, b) && OnJumps(a, code) && OnJumps(b, code) && Apart(a, b)
      modifies `code
      ensures st.Pass? ==> code == Linked(old(code), a, b) && IsList(code, head, a + b)
      ensures |code| == |old(code)| && Excused(st) && st != Fail(TooComplex)
    {
      if l2 == NO_JUMP {
        assert b == [] && a + b == a;
        return Pass, l1;
      } else if l1 == NO_JUMP {
        assert a == [] && a + b == b;
        return Pass, l2;
      }
      assert Threaded(code, a, 0);
      var list, next := l1, GetJump(code, l1);
      ghost var k := 0;
      while next != NO_JUMP
        invariant 0 <= k < |a| && list == a[k] && next == Link(a, k + 1)
        decreases |a| - k
      {
        list, k := next, k + 1;
        assert Threaded(code, a, k);
        next := GetJump(code, list);
      }
      assert Threaded(code, a, k) && b[0] in b;
      assert Threaded(code, b, 0);
      ListJoined(code, a, b, l1, l2);
      head := l1;
      :- FixJump(list, l2);
      return Pass, l1;
    }

    /** The waiting jumps now include those of the list. */
    method PatchToHere(list: int, ghost l: seq<nat>) returns (st: Status)
      requires IsList(code, jpc, j) && IsList(code, list, l) && OnJumps(j, code) && OnJumps(l, code) && Apart(j, l)
      modifies `code, `jpc, `lasttarget, `j
      ensures st.Pass? ==> code == Linked(old(code), old(j), l) && j == old(j) + l && IsList(code, jpc, j)
      ensures |code| == |old(code)| && Excused(st) && st != Fail(TooComplex)
    {
      var _ := GetLabel();
      var head;
      head :- Concat(jpc, list, j, l);
      jpc, j := head, j + l;
      return Pass;
    }

    // ------------------------------------------------------------ instructions

    method DischargeJpc() returns (st: Status)
      requires IsList(code, jpc, j) && OnJumps(j, code)
      modifies `code, `jpc, `j
      ensures st.Pass? ==> code == Discharged(old(code), old(j)) && jpc == NO_JUMP && j == []
      ensures |code| == |old(code)| && Excused(st) && st != Fail(TooComplex)
    {
      st := PatchListAux(jpc, |code|, NO_REG, |code|, j);
      if st.Pass? { jpc, j := NO_JUMP, []; }
    }

    /** `luaK_code`. */
    method Emit(i: Instr) returns (st: Status, pc: nat)
      requires IsList(code, jpc, j) && OnJumps(j, code) && (i.Jmp? ==> i.sbx == NO_JUMP)
      modifies `code, `jpc, `j
      ensures st.Pass? ==> code == Discharged(old(code), old(j)) + [i] && jpc == NO_JUMP && j == [] && pc == |old(code)|
      ensures |old(code)| <= |code| <= |old(code)| + 1 && Excused(st) && st != Fail(TooComplex)
      ensures |old(code)| >= MAX_INT ==> st.Fail?
    {
      pc := |code|;
      :- DischargeJpc();
      if |code| >= MAX_INT { return Fail(Overflow), pc; }
      if Fits(code) { FitsAdd(code, i); }
      code := code + [i];
      return Pass, |code| - 1;
    }

    /** `luaK_jump`: a jump that heads the list of the waiting ones. */
    method EmitJump() returns (st: Status, at: nat)
      requires IsList(code, jpc, j) && OnJumps(j, code)
      modifies `code, `jpc, `j
      ensures st.Pass? ==> at == |old(code)| && code == old(code) + [Jmp(if old(j) == [] then NO_JUMP else (old(j)[0] as int) - (at + 1))]
      ensures st.Pass? ==> IsList(code, at, [at] + old(j)) && jpc == NO_JUMP && j == []
      ensures |old(code)| <= |code| <= |old(code)| + 1 && Excused(st) && st != Fail(TooComplex)
    {
      var waiting := jpc;
      ghost var l := j;
      jpc, j := NO_JUMP, [];
      PatchedNone(code, |code|, NO_REG, |code|);
      at :- Emit(Jmp(NO_JUMP));
      ListKept(old(code), code, waiting, l);
      var head;
      head :- Concat(at, waiting, [at], l);
      return Pass, head;
    }

    method CodeLabel(a: Reg, val: bool, skip: bool) returns (st: Status, pc: nat)
      requires IsList(code, jpc, j) && OnJumps(j, code)
      modifies `code, `jpc, `j, `lasttarget
      ensures st.Pass? ==> code == Discharged(old(code), old(j)) + [LoadBool(a, val, skip)] && jpc == NO_JUMP && j == [] && pc == |old(code)|
      ensures |old(code)| <= |code| <= |old(code)| + 1 && Excused(st) && st != Fail(TooComplex)
    {
      var _ := GetLabel();
      st, pc := Emit(LoadBool(a, val, skip));
    }

    method CondJump(test: Instr) returns (st: Status, at: nat)
      requires IsList(code, jpc, j) && OnJumps(j, code) && !test.Jmp?
      modifies `code, `jpc, `j
      ensures st.Pass? ==> code == Discharged(old(code), old(j)) + [test, Jmp(NO_JUMP)] && jpc == NO_JUMP && j == [] && at == |code| - 1
      ensures |old(code)| <= |code| <= |old(code)| + 2 && Excused(st) && st != Fail(TooComplex)
    {
      at := 0;
      var _ :- Emit(test);
      at :- EmitJump();
      return Pass, at;
    }

    // --------------------------------------------------------------- registers

    method CheckStack(n: nat) returns (st: Status)
      requires freereg <= maxstacksize < MAXSTACK
      modifies `maxstacksize
      ensures st == if freereg + n >= MAXSTACK then Fail(TooComplex) else Pass
      ensures st.Pass? ==> freereg + n <= maxstacksize < MAXSTACK
      ensures st.Fail? ==> maxstacksize == old(maxstacksize)
    {
      var newstack := freereg + n;
      if newstack > maxstacksize {
        if newstack >= MAXSTACK { return Fail(TooComplex); }
        maxstacksize := newstack;
      }
      return Pass;
    }

    method ReserveRegs(n: nat) returns (st: Status)
      requires freereg <= maxstacksize < MAXSTACK
      modifies `maxstacksize, `freereg
      ensures st == if old(freereg) + n >= MAXSTACK then Fail(TooComplex) else Pass
      ensures st.Pass? ==> freereg == old(freereg) + n <= maxstacksize < MAXSTACK
      ensures st.Fail? ==> freereg == old(freereg)
    {
      st := CheckStack(n);
      if st.Pass? { freereg := freereg + n; }
    }

    /** Registers are freed in the reverse order of their reservation. */
    method FreeReg(reg: nat)
      requires reg >= nactvar ==> reg + 1 == freereg
      modifies `freereg
      ensures freereg == if reg >= nactvar then reg else old(freereg)
    {
      if reg >= nactvar {
        freereg := freereg - 1;
      }
    }

    method FreeExp(e: ExpDesc)
      requires e.k == VNONRELOC && e.info >= nactvar ==> e.info + 1 == freereg
      modifies `freereg
      ensures freereg == if e.k == VNONRELOC && e.info >= nactvar then e.info else old(freereg)
    {
      if e.k == VNONRELOC { FreeReg(e.info); }
    }

    // ------------------------------------------------------------- expressions

    /** The code computes the goal's expression as the descriptor says, with true list `t`
        and false list `f`. */
    ghost predicate Computes(g: Goal, e: ExpDesc, t: seq<nat>, f: seq<nat>)
      reads this
    {
      && Valid() && Shape(code, e, j) && IsList(code, e.t, t) && IsList(code, e.f, f)
      && Reached(g, MainOf(code, e, j), Base(code, e, j), Lists(t, f, j), -1)
      && nactvar <= g.keep <= freereg && Uses(g.x, nactvar)
    }

    /** The expression occupies at most the one register behind those in use. */
    ghost predicate Holding(g: Goal, e: ExpDesc)
      reads this
    {
      if e.k == VNONRELOC && e.info >= nactvar then e.info == g.keep && freereg == g.keep + 1
      else freereg == g.keep && (e.k == VLOCAL ==> e.info < nactvar)
    }

    /** The first operand of a comparison stays in its register while the second is compiled. */
    ghost predicate FirstOperand(g: Goal, e: ExpDesc, g2: Goal)
      reads this
    {
      && e.info < MAXSTACK && Reached(g, InReg(e.info), g2.c0, Lists([], [], g2.j0), -1)
      && (if e.info >= nactvar then e.info == g.keep && g2.keep == g.keep + 1 else g2.keep == g.keep)
    }

    /** To be in a register of its own or a local variable's, the expression needs a new one. */
    predicate NeedsReg(e: ExpDesc)
      reads `nactvar
    {
      e.k == VRELOCABLE || e.k == VJMP || (HasJumps(e) && e.info < nactvar)
    }

    method DischargeVars(e: ExpDesc) returns (e': ExpDesc)
      ensures e' == if e.k == VLOCAL then e.(k := VNONRELOC) else e
    {
      e' := if e.k == VLOCAL then e.(k := VNONRELOC) else e;
    }

    method Discharge2Reg(e: ExpDesc, reg: Reg, ghost g: Goal, ghost t: seq<nat>, ghost f: seq<nat>) returns (st: Status, e': ExpDesc)
      requires Computes(g, e, t, f) && reg < MAXSTACK
      modifies `code, `jpc, `j
      ensures st.Pass? && e.k == VJMP ==> e' == e && code == old(code) && j == old(j) && jpc == old(jpc)
      ensures st.Pass? && e.k != VJMP ==>
        && Valid() && e' == ExpDesc(VNONRELOC, reg, e.t, e.f)
        && IsList(code, e.t, t) && IsList(code, e.f, f) && Reached(g, InReg(reg), code, Lists(t, f, j), reg)
      ensures |old(code)| <= |code| <= |old(code)| + 1 && Excused(st) && st != Fail(TooComplex)
    {
      assert j == [] ==> jpc == NO_JUMP;
      hide Reached, Uses, Discharged, Patched, Stripped, IsList, OnJumps, Sound, Fits;
      e' := DischargeVars(e);
      match e'.k {
        case VRELOCABLE =>
          RelocDischarged(g, code, e, t, f, reg);
          if Fits(code) { FitsSet(code, e'.info, Not(reg, code[e'.info].b)); }
          code := code[e'.info := Not(reg, code[e'.info].b)];
          EmptyList(code);
        case VNONRELOC =>
          if reg != e'.info {
            MoveDischarged(g, code, e, j, t, f, reg);
            var _ :- Emit(Move(reg, e'.info));
            EmptyList(code);
          } else {
            AnyHole(g, InReg(reg), code, Lists(t, f, j), reg);
          }
        case _ =>
          return Pass, e';
      }
      e' := e'.(info := reg, k := VNONRELOC);
      return Pass, e';
    }

    /** The loads of false and true; other code than a comparison's jumps over them. */
    method CodeLoads(reg: Reg, jumped: bool) returns (st: Status, p_f: int, p_t: int)
      requires IsList(code, jpc, j) && OnJumps(j, code) && (jumped ==> j == [])
      modifies `code, `jpc, `j, `lasttarget
      ensures st.Pass? ==> p_f == |code| - 2 && p_t == |code| - 1 && IsList(code, jpc, j) && OnJumps(j, code)
      ensures st.Pass? && jumped ==> code == old(code) + Loads(reg) && j == []
      ensures st.Pass? && !jumped ==>
        exists i: Instr :: i.Jmp? && code == old(code) + [i] + Loads(reg) && j == [|old(code)|] + old(j)
      ensures |old(code)| <= |code| <= |old(code)| + 3 && Excused(st) && st != Fail(TooComplex)
    {
      hide IsList, OnJumps, Discharged, Linked, Fits;
      p_f, p_t := NO_JUMP, NO_JUMP;
      ghost var c, waiting := code, j;
      var fj := NO_JUMP;
      if !jumped {
        fj :- EmitJump();
        HeadNew(c, waiting, fj, code);
      }
      ghost var c1 := code;
      ghost var l := if jumped then [] else [fj] + waiting;
      Nothing(code);
      p_f :- CodeLabel(reg, false, true);
      Nothing(code);
      p_t :- CodeLabel(reg, true, false);
      Nothing(code);
      assert code == c1 + Loads(reg);
      if !jumped { Appended(c1, Loads(reg), fj, l); }
      :- PatchToHere(fj, l);
      LinkedNone(c1 + Loads(reg), l);
      Nothing(code);
      assert [] + l == l;
      assert !jumped ==> code == c + [c1[|c|]] + Loads(reg);
      return Pass, p_f, p_t;
    }

    /** Emits the loads of false and true if some jump of the lists needs them. */
    method LoadsNeeded(e: ExpDesc, reg: Reg, ghost m: Main, ghost t: seq<nat>, ghost f: seq<nat>)
      returns (st: Status, p_f: int, p_t: int, ghost loads: seq<Instr>)
      requires IsList(code, jpc, j) && OnJumps(j, code) && IsList(code, e.t, t) && IsList(code, e.f, f)
      requires if e.k == VJMP then m == Known(false) && j == [] && NeedsValue(code, t) else m == InReg(reg)
      modifies `code, `jpc, `j, `lasttarget
      ensures st.Pass? ==> code == old(code) + loads && Completes(m, old(code), Lists(t, f, old(j)), loads, reg, j)
      ensures st.Pass? && loads != [] ==> 0 <= p_f == |code| - 2 && p_t == |code| - 1
      ensures st.Pass? ==> IsList(code, jpc, j) && OnJumps(j, code)
      ensures st.Pass? ==> loads != [] || (!NeedsValue(code, t) && !NeedsValue(code, f))
      ensures |old(code)| <= |code| <= |old(code)| + 3 && Excused(st) && st != Fail(TooComplex)
    {
      hide IsList, OnJumps, NeedsValue, Fits;
      p_f, p_t, loads := NO_JUMP, NO_JUMP, [];
      var need := NeedValue(e.t, t);
      if !need { need := NeedValue(e.f, f); }
      if need {
        p_f, p_t :- CodeLoads(reg, e.k == VJMP);
        loads := code[|old(code)|..];
      }
      return Pass, p_f, p_t, loads;
    }

    /** Gives both lists their targets; the list that waits stays. */
    method PatchBoth(e: ExpDesc, final: nat, reg: Reg, p_f: int, p_t: int, ghost t: seq<nat>, ghost f: seq<nat>) returns (st: Status)
      requires IsList(code, e.t, t) && IsList(code, e.f, f) && OnJumps(t, code) && OnJumps(f, code) && Apart(t, f)
      requires IsList(code, jpc, j) && OnJumps(j, code) && Apart(j, t) && Apart(j, f) && final <= |code|
      requires (0 <= p_f <= |code| && 0 <= p_t <= |code|) || (!NeedsValue(code, t) && !NeedsValue(code, f))
      modifies `code
      ensures st.Pass? ==> code == Patched(Patched(old(code), f, final, reg, p_f), t, final, reg, p_t)
      ensures st.Pass? ==> IsList(code, jpc, j) && OnJumps(j, code)
      ensures |code| == |old(code)| && Excused(st) && st != Fail(TooComplex)
    {
      hide IsList, OnJumps, NeedsValue, Patched, Fits;
      ghost var all := code;
      :- PatchListAux(e.f, final, reg, p_f, f);
      PatchedKeeps(all, f, final, reg, p_f, e.t, t);
      PatchedKeeps(all, f, final, reg, p_f, jpc, j);
      ghost var half := code;
      :- PatchListAux(e.t, final, reg, p_t, t);
      PatchedKeeps(half, t, final, reg, p_t, jpc, j);
      return Pass;
    }

    /** The second half of `exp2reg`: the loads, if needed, and the targets of both lists. */
    method PatchValues(e: ExpDesc, reg: Reg, ghost g: Goal, ghost m: Main, ghost t: seq<nat>, ghost f: seq<nat>) returns (st: Status)
      requires Valid() && reg < MAXSTACK && IsList(code, e.t, t) && IsList(code, e.f, f) && t + f != []
      requires Reached(g, m, code, Lists(t, f, j), if m == Known(false) then -1 else reg)
      requires if e.k == VJMP then m == Known(false) && j == [] && NeedsValue(code, t) else m == InReg(reg)
      modifies `code, `jpc, `j, `lasttarget
      ensures st.Pass? ==> Valid() && Reached(g, InReg(reg), code, Lists([], [], j), reg)
      ensures |old(code)| <= |code| <= |old(code)| + 3 && Excused(st) && st != Fail(TooComplex)
    {
      hide Reached, IsList, OnJumps, Sound, Listed, NeedsValue, Completes, Patched, Apart, Fits;
      ghost var c, p := code, Lists(t, f, j);
      ListedReached(g, m, code, p, if m == Known(false) then -1 else reg);
      var p_f, p_t;
      ghost var loads;
      p_f, p_t, loads :- LoadsNeeded(e, reg, m, t, f);
      ListsApart(m, c, p, loads, reg, j, e.t, e.f);
      var final := GetLabel();
      :- PatchBoth(e, final, reg, p_f, p_t, t, f);
      IsCompleted(m, c, p, loads, reg, j, p_f, p_t);
      FinishReached(g, m, c, p, loads, reg, j, if m == Known(false) then -1 else reg);
      return Pass;
    }

    /** A comparison's jump joins the true list; the code falls through when it is false. */
    method JoinJump(e: ExpDesc, ghost g: Goal, ghost t: seq<nat>, ghost f: seq<nat>) returns (st: Status, e': ExpDesc)
      requires Computes(g, e, t, f) && e.k == VJMP
      modifies `code
      ensures st.Pass? ==> Valid() && e' == e.(t := e'.t) && IsList(code, e'.t, t + [e.info]) && IsList(code, e'.f, f)
      ensures st.Pass? ==> Reached(g, Known(false), code, Lists(t + [e.info], f, []), -1) && NeedsValue(code, t + [e.info])
      ensures |code| == |old(code)| && Excused(st) && st != Fail(TooComplex)
    {
      assert j == [] && jpc == NO_JUMP;
      hide Reached, IsList, OnJumps, Sound, Linked, Shape, MainOf, Base, NeedsValue, Apart, Listed, Uses, Fits;
      e' := e;
      FallReg(g, code, e, t, f);
      var head;
      head :- Concat(e.t, e.info, t, [e.info]);
      ListedReached(g, Known(false), code, Lists(t + [e.info], f, []), -1);
      Nothing(code);
      return Pass, e.(t := head);
    }

    /** The first half of `exp2reg`: the value goes to the register, or a comparison's jump
        joins the true list. */
    method Settle2Reg(e: ExpDesc, reg: Reg, ghost g: Goal, ghost t: seq<nat>, ghost f: seq<nat>)
      returns (st: Status, e': ExpDesc, ghost m: Main, ghost t': seq<nat>)
      requires Computes(g, e, t, f) && reg < MAXSTACK
      modifies `code, `jpc, `j
      ensures st.Pass? ==> Valid() && IsList(code, e'.t, t') && IsList(code, e'.f, f)
      ensures st.Pass? ==> Reached(g, m, code, Lists(t', f, j), if m == Known(false) then -1 else reg)
      ensures st.Pass? ==> if e'.k == VJMP then m == Known(false) && j == [] && NeedsValue(code, t') else m == InReg(reg)
      ensures |old(code)| <= |code| <= |old(code)| + 1 && Excused(st) && st != Fail(TooComplex)
    {
      assert e.k == VJMP ==> j == [];
      hide Reached, IsList, OnJumps, Sound, Linked, MainOf, Base, NeedsValue, Apart, Listed, Uses, Fits;
      e', m, t' := e, InReg(reg), t;
      e' :- Discharge2Reg(e, reg, g, t, f);
      if e'.k == VJMP {
        e' :- JoinJump(e', g, t, f);
        m, t' := Known(false), t + [e.info];
      }
      return Pass, e', m, t';
    }

    /** `exp2reg`: the value ends up in the register, whatever jumps decide it. */
    method Exp2Reg(e: ExpDesc, reg: Reg, ghost g: Goal, ghost t: seq<nat>, ghost f: seq<nat>) returns (st: Status, e': ExpDesc)
      requires Computes(g, e, t, f) && reg < MAXSTACK
      modifies `code, `jpc, `j, `lasttarget
      ensures st.Pass? ==> Valid() && e' == ExpDesc(VNONRELOC, reg, NO_JUMP, NO_JUMP)
      ensures st.Pass? ==> Reached(g, InReg(reg), code, Lists([], [], j), reg)
      ensures |old(code)| <= |code| <= |old(code)| + 4 && Excused(st) && st != Fail(TooComplex)
    {
      hide Reached, Uses, Discharged, Patched, Stripped, IsList, OnJumps, Sound, Shape, MainOf, Base, NeedsValue, Apart, Fits;
      e' := e;
      ghost var m, t';
      e', m, t' :- Settle2Reg(e, reg, g, t, f);
      ListedReached(g, m, code, Lists(t', f, j), if m == Known(false) then -1 else reg);
      JumpsOf(code, e', t', f);
      if HasJumps(e') {
        :- PatchValues(e', reg, g, m, t', f);
      } else {
        assert t' == [] && f == [];
        NeedsNone(code, t');
      }
      return Pass, ExpDesc(VNONRELOC, reg, NO_JUMP, NO_JUMP);
    }

    method Discharge2AnyReg(e: ExpDesc, ghost g: Goal, ghost t: seq<nat>, ghost f: seq<nat>) returns (st: Status, e': ExpDesc)
      requires Computes(g, e, t, f) && Holding(g, e) && (e.k == VRELOCABLE || e.k == VNONRELOC)
      modifies `code, `jpc, `j, `freereg, `maxstacksize
      ensures st.Pass? ==> Computes(g, e', t, f) && Holding(g, e') && e'.k == VNONRELOC && e'.t == e.t && e'.f == e.f
      ensures |old(code)| <= |code| <= |old(code)| + 1 && Excused(st)
      ensures st == Fail(TooComplex) ==> e.k == VRELOCABLE && g.keep + 1 >= MAXSTACK
      ensures st.Pass? && e.k == VRELOCABLE ==> g.keep + 1 < MAXSTACK
    {
      hide Reached, Uses, Discharged, Patched, Stripped, IsList, OnJumps, Sound, Fits;
      e' := e;
      if e.k != VNONRELOC {
        :- ReserveRegs(1);
        e' :- Discharge2Reg(e, freereg - 1, g, t, f);
        FreeHole(g, InReg(freereg - 1), code, Lists(t, f, j), freereg - 1);
      }
      return Pass, e';
    }

    method Exp2NextReg(e: ExpDesc, ghost g: Goal, ghost t: seq<nat>, ghost f: seq<nat>) returns (st: Status, e': ExpDesc)
      requires Computes(g, e, t, f) && Holding(g, e)
      modifies `code, `jpc, `j, `lasttarget, `freereg, `maxstacksize
      ensures st.Pass? ==> Computes(g, e', [], []) && Holding(g, e') && e' == ExpDesc(VNONRELOC, g.keep, NO_JUMP, NO_JUMP)
      ensures st.Pass? ==> freereg == g.keep + 1
      ensures |old(code)| <= |code| <= |old(code)| + 4 && Excused(st)
      ensures st == Fail(TooComplex) ==> g.keep + 1 >= MAXSTACK
      ensures st.Pass? ==> g.keep + 1 < MAXSTACK
    {
      hide Reached, Uses, Discharged, Patched, Stripped, OnJumps, Sound, Fits;
      e' := DischargeVars(e);
      FreeExp(e');
      :- ReserveRegs(1);
      e' :- Exp2Reg(e', freereg - 1, g, t, f);
      FreeHole(g, InReg(g.keep), code, Lists([], [], j), g.keep);
      return Pass, e';
    }

    method Exp2AnyReg(e: ExpDesc, ghost g: Goal, ghost t: seq<nat>, ghost f: seq<nat>) returns (st: Status, e': ExpDesc)
      requires (e.k == VNONRELOC && !HasJumps(e)) || (Computes(g, e, t, f) && Holding(g, e))
      modifies `code, `jpc, `j, `lasttarget, `freereg, `maxstacksize
      ensures e.k == VNONRELOC && !HasJumps(e) ==>
        st.Pass? && e' == e && code == old(code) && jpc == old(jpc) && j == old(j) && freereg == old(freereg) && maxstacksize == old(maxstacksize)
      ensures st.Pass? && old(Computes(g, e, t, f) && Holding(g, e)) ==>
        Computes(g, e', [], []) && Holding(g, e') && e'.k == VNONRELOC && !HasJumps(e')
      ensures |old(code)| <= |code| <= |old(code)| + 4 && Excused(st)
      ensures st == Fail(TooComplex) ==> NeedsReg(e) && g.keep + 1 >= MAXSTACK
      ensures st.Pass? && NeedsReg(e) ==> g.keep + 1 < MAXSTACK
      ensures st.Pass? ==> if NeedsReg(e) then e'.info >= nactvar else e'.info == e.info
    {
      e' := DischargeVars(e);
      if e'.k == VNONRELOC {
        if !HasJumps(e') {
          if Computes(g, e, t, f) { NoLists(g, code, e', Lists(t, f, j)); }
          return Pass, e';
        }
        if e'.info >= nactvar {
          e' :- Exp2Reg(e', e'.info, g, t, f);
          FreeHole(g, InReg(g.keep), code, Lists([], [], j), g.keep);
          return Pass, e';
        }
      }
      e' :- Exp2NextReg(e', g, t, f);
      return Pass, e';
    }

    method Exp2Val(e: ExpDesc, ghost g: Goal, ghost t: seq<nat>, ghost f: seq<nat>) returns (st: Status, e': ExpDesc)
      requires (e.k == VNONRELOC && !HasJumps(e)) || (Computes(g, e, t, f) && Holding(g, e))
      modifies `code, `jpc, `j, `lasttarget, `freereg, `maxstacksize
      ensures st.Pass? && !HasJumps(e) ==> e' == if e.k == VLOCAL then e.(k := VNONRELOC) else e
      ensures !HasJumps(e) ==>
        st.Pass? && code == old(code) && jpc == old(jpc) && j == old(j) && freereg == old(freereg) && maxstacksize == old(maxstacksize)
      ensures st.Pass? && HasJumps(e) ==> Computes(g, e', [], []) && Holding(g, e') && e'.k == VNONRELOC && !HasJumps(e')
      ensures |old(code)| <= |code| <= |old(code)| + 4 && Excused(st)
      ensures st == Fail(TooComplex) ==> HasJumps(e) && NeedsReg(e) && g.keep + 1 >= MAXSTACK
      ensures st.Pass? && HasJumps(e) && NeedsReg(e) ==> g.keep + 1 < MAXSTACK
      ensures st.Pass? ==> if HasJumps(e) && NeedsReg(e) then e'.info >= nactvar else e'.info == e.info
    {
      if HasJumps(e) {
        st, e' := Exp2AnyReg(e, g, t, f);
      } else {
        e' := DischargeVars(e);
        return Pass, e';
      }
    }

    /** `luaK_exp2RK` for expressions that are not constants. */
    method Exp2RK(e: ExpDesc, ghost g: Goal, ghost t: seq<nat>, ghost f: seq<nat>) returns (st: Status, e': ExpDesc)
      requires (e.k == VNONRELOC && !HasJumps(e)) || (Computes(g, e, t, f) && Holding(g, e))
      modifies `code, `jpc, `j, `lasttarget, `freereg, `maxstacksize
      ensures e.k == VNONRELOC && !HasJumps(e) ==>
        st.Pass? && e' == e && code == old(code) && jpc == old(jpc) && j == old(j) && freereg == old(freereg) && maxstacksize == old(maxstacksize)
      ensures st.Pass? && old(Computes(g, e, t, f) && Holding(g, e)) ==>
        Computes(g, e', [], []) && Holding(g, e') && e'.k == VNONRELOC && !HasJumps(e')
      ensures |old(code)| <= |code| <= |old(code)| + 4 && Excused(st)
      ensures st == Fail(TooComplex) ==> NeedsReg(e) && g.keep + 1 >= MAXSTACK
      ensures st.Pass? && NeedsReg(e) ==> g.keep + 1 < MAXSTACK
      ensures st.Pass? ==> if NeedsReg(e) then e'.info >= nactvar else e'.info == e.info
    {
      hide Reached, Uses, Discharged, Patched, Stripped, OnJumps, Sound, IsList, Fits;
      e' :- Exp2Val(e, g, t, f);
      if HasJumps(e) {
        st, e' := Exp2AnyReg(e', g, [], []);
      } else {
        st, e' := Exp2AnyReg(e', g, t, f);
      }
    }

    method InvertJump(e: ExpDesc)
      requires e.k == VJMP && Shape(code, e, [])
      modifies `code
      ensures var i := old(code)[|old(code)| - 2];
        code == old(code)[|old(code)| - 2 := Comp(i.op, !i.cond, i.b, i.c)]
      ensures Excused(Pass)
    {
      var pc := JumpControl(e.info);
      var i := code[pc];
      if Fits(code) { FitsSet(code, pc, Comp(i.op, !i.cond, i.b, i.c)); }
      code := code[pc := Comp(i.op, !i.cond, i.b, i.c)];
    }

    /** The code jumps from `at` when the value's truth is `want`, and goes on, or to the
        waiting jumps of the other list, when it is not. */
    ghost predicate Guards(g: Goal, p: Lists, want: bool, at: nat)
      reads this
    {
      && j == [] && jpc == NO_JUMP && at < |code| && code[at] == Jmp(NO_JUMP) && |code| > |g.c0|
      && Reached(g, Decided(!want), code, BranchLists(p, at, want), -1) && p.j == []
      && nactvar <= g.keep == freereg <= maxstacksize < MAXSTACK && Uses(g.x, nactvar)
    }

    method JumpOnCond(e: ExpDesc, cond: bool, ghost g: Goal, ghost t: seq<nat>, ghost f: seq<nat>) returns (st: Status, at: nat)
      requires Computes(g, e, t, f) && Holding(g, e) && (e.k == VRELOCABLE || e.k == VNONRELOC)
      modifies `code, `jpc, `j, `freereg, `maxstacksize
      ensures st.Pass? ==> Guards(g, Lists(t, f, []), cond, at) && IsList(code, e.t, t) && IsList(code, e.f, f)
      ensures |code| <= |old(code)| + 3 && Excused(st) && st != Fail(TooComplex)
    {
      hide Reached, Uses, Discharged, Patched, Stripped, OnJumps, IsList, Built, Fits;
      at := 0;
      if e.k == VRELOCABLE {
        var ie := code[e.info];
        if ie.Not? {
          GuardNot(g, code, e, t, f, cond);
          Nothing(code[..|code| - 1]);
          NoneWaiting(code, jpc, j);
          if Fits(code) { FitsCut(code); }
          code := code[..|code| - 1];
          at :- CondJump(Test(ie.b, !cond));
          return Pass, at;
        }
      }
      var e' :- Discharge2AnyReg(e, g, t, f);
      FreeExp(e');
      GuardReg(g, code, e', j, t, f, cond);
      at :- CondJump(TestSet(NO_REG, e'.info, cond));
      return Pass, at;
    }

    /** A decided condition: control goes on, or waits to go on, when the truth of the value
        is not `want`, and leaves by the jumps of `l` when it is. */
    ghost predicate Branches(g: Goal, want: bool, head: int, l: seq<nat>)
      reads this
    {
      && Valid() && IsList(code, head, l) && |code| > |g.c0|
      && Reached(g, Decided(!want), code, if want then Lists(l, [], j) else Lists([], l, j), -1)
      && nactvar <= g.keep == freereg && Uses(g.x, nactvar)
    }

    /** The jump out joins its list and the other list waits for the next instruction. */
    method CloseGuard(e: ExpDesc, want: bool, at: nat, ghost g: Goal, ghost t: seq<nat>, ghost f: seq<nat>) returns (st: Status, e': ExpDesc)
      requires Guards(g, Lists(t, f, []), want, at) && IsList(code, e.t, t) && IsList(code, e.f, f)
      modifies `code, `jpc, `j, `lasttarget
      ensures st.Pass? && want ==> e' == e.(t := e'.t, f := NO_JUMP) && Branches(g, want, e'.t, t + [at])
      ensures st.Pass? && !want ==> e' == e.(t := NO_JUMP, f := e'.f) && Branches(g, want, e'.f, f + [at])
      ensures |code| == |old(code)| && Excused(st) && st != Fail(TooComplex)
    {
      hide Reached, Uses, Discharged, Patched, Stripped, OnJumps, IsList, Sound, Linked, Fits;
      e' := e;
      GuardLinked(g, code, Lists(t, f, []), want, at, e.t, e.f);
      ListedReached(g, Decided(!want), Linked(code, if want then t else f, [at]), BranchLists(Lists(t, f, []), at, want), -1);
      var head;
      head :- Concat(if want then e.t else e.f, at, if want then t else f, [at]);
      Nothing(code);
      LinkedNone(code, if want then f else t);
      if want {
        e' := e'.(t := head);
        :- PatchToHere(e'.f, f);
        assert [] + f == f;
        return Pass, e'.(f := NO_JUMP);
      } else {
        e' := e'.(f := head);
        :- PatchToHere(e'.t, t);
        assert [] + t == t;
        return Pass, e'.(t := NO_JUMP);
      }
    }

    /** Jumps on false, by the jumps of the new false list `f'`; goes on when the value is true. */
    method GoIfTrue(e: ExpDesc, ghost g: Goal, ghost t: seq<nat>, ghost f: seq<nat>) returns (st: Status, e': ExpDesc, ghost f': seq<nat>)
      requires Computes(g, e, t, f) && Holding(g, e)
      modifies `code, `jpc, `j, `lasttarget, `freereg, `maxstacksize
      ensures st.Pass? ==> Branches(g, false, e'.f, f') && e'.t == NO_JUMP && f' != []
      ensures |code| <= |old(code)| + 3 && Excused(st) && st != Fail(TooComplex)
    {
      hide Reached, Uses, Discharged, Patched, Stripped, OnJumps, IsList, Sound, Fits;
      e' := DischargeVars(e);
      f' := f;
      var pc := e'.info;
      if e'.k == VJMP {
        GuardJump(g, code, e', t, f, false);
        NoneWaiting(code, jpc, j);
        InvertJump(e');
      } else {
        pc :- JumpOnCond(e', false, g, t, f);
      }
      f' := f + [pc];
      st, e' := CloseGuard(e', false, pc, g, t, f);
    }

    /** Jumps on true; goes on when the value is false. */
    method GoIfFalse(e: ExpDesc, ghost g: Goal, ghost t: seq<nat>, ghost f: seq<nat>) returns (st: Status, e': ExpDesc, ghost t': seq<nat>)
      requires Computes(g, e, t, f) && Holding(g, e)
      modifies `code, `jpc, `j, `lasttarget, `freereg, `maxstacksize
      ensures st.Pass? ==> Branches(g, true, e'.t, t') && e'.f == NO_JUMP && t' != []
      ensures |code| <= |old(code)| + 3 && Excused(st) && st != Fail(TooComplex)
    {
      hide Reached, Uses, Discharged, Patched, Stripped, OnJumps, IsList, Sound, Fits;
      e' := DischargeVars(e);
      t' := t;
      var pc := e'.info;
      if e'.k == VJMP {
        GuardJump(g, code, e', t, f, true);
        NoneWaiting(code, jpc, j);
      } else {
        pc :- JumpOnCond(e', true, g, t, f);
      }
      t' := t + [pc];
      st, e' := CloseGuard(e', true, pc, g, t, f);
    }

    /** `codenot`: the lists change places; an OP_NOT is emitted only for a plain register. */
    method CodeNot(e: ExpDesc, ghost g: Goal, ghost t: seq<nat>, ghost f: seq<nat>) returns (st: Status, e': ExpDesc)
      requires Computes(g, e, t, f) && Holding(g, e)
      modifies `code, `jpc, `j, `freereg, `maxstacksize
      ensures st.Pass? ==> Computes(g.(x := Neg(g.x)), e', f, t) && freereg == g.keep
      ensures st.Pass? ==> e'.k == (if e.k == VJMP then VJMP else VRELOCABLE) && HasJumps(e') == HasJumps(e)
      ensures |old(code)| <= |code| <= |old(code)| + 2 && Excused(st)
      ensures st == Fail(TooComplex) ==> e.k == VRELOCABLE && g.keep + 1 >= MAXSTACK
      ensures st.Pass? && e.k == VRELOCABLE ==> g.keep + 1 < MAXSTACK
    {
      hide Reached, Uses, Discharged, Patched, Stripped, OnJumps, IsList, Sound, Fits;
      e' := DischargeVars(e);
      if e'.k == VJMP {
        NoneWaiting(code, jpc, j);
        NotJump(g, code, e', t, f);
        InvertJump(e');
      } else {
        e' :- Discharge2AnyReg(e', g, t, f);
        FreeExp(e');
        NotReg(g, code, e', j, t, f);
        var pc :- Emit(Not(0, e'.info));
        e' := e'.(info := pc, k := VRELOCABLE);
      }
      e' := e'.(t := e'.f, f := e'.t);
      RemoveValues(e'.f, t);
      RemoveValues(e'.t, f);
      Nothing(code);
      UsesOver(g.x, g.x, nactvar, OpEq);
      return Pass, e';
    }

    // ------------------------------------------------------------- operators

    method CodeComp(op: RelOp, e1: ExpDesc, e2: ExpDesc, ghost g: Goal, ghost g2: Goal, ghost t: seq<nat>, ghost f: seq<nat>)
      returns (st: Status, e': ExpDesc)
      requires e1.k == VNONRELOC && e1.t == e1.f == NO_JUMP && FirstOperand(g, e1, g2)
      requires Computes(g2, e2, t, f) && Holding(g2, e2) && Uses(g2.x, nactvar) && Uses(g.x, nactvar) && nactvar <= g.keep
      modifies `code, `jpc, `j, `lasttarget, `freereg, `maxstacksize
      ensures st.Pass? ==> Computes(g.(x := Rel(op, g.x, g2.x)), e', [], []) && e'.k == VJMP && !HasJumps(e') && freereg == g.keep
      ensures st.Pass? ==> |code| >= 2 && code[|code| - 1] == Jmp(NO_JUMP) && Tests(op, code[|code| - 2], e1.info)
      ensures |code| <= |old(code)| + 6 && Excused(st)
      ensures st == Fail(TooComplex) ==> NeedsReg(e2) && g2.keep + 1 >= MAXSTACK
      ensures st.Pass? && NeedsReg(e2) ==> g2.keep + 1 < MAXSTACK
    {
      hide Reached, Uses, Discharged, Patched, Stripped, OnJumps, IsList, Sound, Shape, Base, MainOf, Fits, Tests, CompOf, OpCode, Positive;
      e' := e1;
      var e1' :- Exp2RK(e1, g, [], []);
      var e2' :- Exp2RK(e2, g2, t, f);
      InPlace(g2, code, e2', Lists([], [], j));
      FreeExp(e2');
      FreeExp(e1');
      var o1, o2, cmp, cond := e1'.info, e2'.info, OpCode(op), Positive(op);
      if !cond && cmp != EQ {
        o1, o2 := o2, o1;
        cond := true;
      }
      var test := Comp(cmp, cond, o1, o2);
      TestOf(op, e1.info, e2'.info, test);
      UsesMore(g2.x, nactvar, g.keep);
      UsesOver(g.x, g2.x, nactvar, op);
      CompareReg(op, g, e1.info, g2.c0, g2.j0, g2.x, g2.keep, e2'.info, code, j, test);
      var at :- CondJump(test);
      Nothing(code);
      e' := e1.(info := at, k := VJMP);
      return Pass, e';
    }

    /** `luaK_infix`, before the second operand is read. */
    method Infix(op: BinOpr, e: ExpDesc, ghost g: Goal, ghost t: seq<nat>, ghost f: seq<nat>)
      returns (st: Status, e': ExpDesc, ghost l: seq<nat>)
      requires Computes(g, e, t, f) && Holding(g, e)
      modifies `code, `jpc, `j, `lasttarget, `freereg, `maxstacksize
      ensures st.Pass? && op.OprAnd? ==> Branches(g, false, e'.f, l) && e'.t == NO_JUMP && l != []
      ensures st.Pass? && op.OprOr? ==> Branches(g, true, e'.t, l) && e'.f == NO_JUMP && l != []
      ensures st.Pass? && op.OprRel? ==> Computes(g, e', [], []) && Holding(g, e') && e'.k == VNONRELOC && e'.t == e'.f == NO_JUMP
      ensures st.Pass? && op.OprRel? ==> (e'.info >= nactvar <==> NeedsReg(e) || e.info >= nactvar)
      ensures |code| <= |old(code)| + 4 && Excused(st)
      ensures st == Fail(TooComplex) ==> op.OprRel? && NeedsReg(e) && g.keep + 1 >= MAXSTACK
      ensures st.Pass? && op.OprRel? && NeedsReg(e) ==> g.keep + 1 < MAXSTACK
    {
      match op {
        case OprAnd => st, e', l := GoIfTrue(e, g, t, f);
        case OprOr => st, e', l := GoIfFalse(e, g, t, f);
        case OprRel(_) => st, e' := Exp2RK(e, g, t, f); l := [];
      }
    }

    /** What is known of the first operand when the second one has been compiled for `g2`. */
    ghost predicate Pending(op: BinOpr, e: ExpDesc, g: Goal, g2: Goal, l: seq<nat>)
      reads this
    {
      && nactvar <= g.keep && Uses(g.x, nactvar)
      && match op
        case OprAnd => l != [] && g2.keep == g.keep && |g2.c0| > |g.c0| && e.t == NO_JUMP && IsList(g2.c0, e.f, l)
                       && Reached(g, Decided(true), g2.c0, Lists([], l, g2.j0), -1)
        case OprOr => l != [] && g2.keep == g.keep && |g2.c0| > |g.c0| && e.f == NO_JUMP && IsList(g2.c0, e.t, l)
                      && Reached(g, Decided(false), g2.c0, Lists(l, [], g2.j0), -1)
        case OprRel(_) => e.k == VNONRELOC && e.t == e.f == NO_JUMP && FirstOperand(g, e, g2)
    }

    /** `luaK_posfix`, after both operands. */
    method Posfix(op: BinOpr, e1: ExpDesc, e2: ExpDesc, ghost g: Goal, ghost g2: Goal, ghost l: seq<nat>, ghost t: seq<nat>, ghost f: seq<nat>)
      returns (st: Status, e': ExpDesc, ghost t': seq<nat>, ghost f': seq<nat>)
      requires Pending(op, e1, g, g2, l) && Computes(g2, e2, t, f) && Holding(g2, e2)
      modifies `code, `jpc, `j, `lasttarget, `freereg, `maxstacksize
      ensures st.Pass? ==> Computes(g.(x := Combined(op, g.x, g2.x)), e', t', f') && Holding(g, e')
      ensures st.Pass? && old(freereg) == g2.keep ==> freereg == g.keep
      ensures st.Pass? ==> if op.OprRel? then e'.k == VJMP && !HasJumps(e') else e'.k == InRegister(e2.k) && HasJumps(e')
      ensures |code| <= |old(code)| + 6 && Excused(st)
      ensures st == Fail(TooComplex) ==> op.OprRel? && NeedsReg(e2) && g2.keep + 1 >= MAXSTACK
      ensures st.Pass? && op.OprRel? && NeedsReg(e2) ==> g2.keep + 1 < MAXSTACK
    {
      hide Reached, Uses, Discharged, Patched, Stripped, OnJumps, IsList, Sound, Linked, Fits;
      t', f' := t, f;
      match op {
        case OprRel(rel) =>
          st, e' := CodeComp(rel, e1, e2, g, g2, t, f);
          t', f' := [], [];
        case OprAnd =>
          e' := DischargeVars(e2);
          UsesMore(g2.x, nactvar, g.keep);
          Connected(g, g2, false, l, e1.f, code, e', t, f, j, jpc);
          var head;
          head :- Concat(e'.f, e1.f, f, l);
          JumpsOf(code, e'.(f := head), t, f + l);
          UsesOver(g.x, g2.x, nactvar, OpEq);
          return Pass, e'.(f := head), t, f + l;
        case OprOr =>
          e' := DischargeVars(e2);
          UsesMore(g2.x, nactvar, g.keep);
          Connected(g, g2, true, l, e1.t, code, e', t, f, j, jpc);
          var head;
          head :- Concat(e'.t, e1.t, t, l);
          JumpsOf(code, e'.(t := head), t + l, f);
          UsesOver(g.x, g2.x, nactvar, OpEq);
          return Pass, e'.(t := head), t + l, f;
      }
    }

    // ------------------------------------------------------------- whole expressions

    /** `subexpr` on a parsed expression: operands and operators in the parser's order. */
    method Compile(x: Expr) returns (st: Status, e: ExpDesc, ghost t: seq<nat>, ghost f: seq<nat>)
      requires Valid() && Uses(x, nactvar)
      modifies `code, `jpc, `j, `lasttarget, `freereg, `maxstacksize
      ensures st.Pass? ==>
        var g := Goal(x, old(code), old(j), old(freereg));
        Computes(g, e, t, f) && Holding(g, e) && freereg == old(freereg)
      ensures |code| <= |old(code)| + Size(x) && Excused(st)
      ensures st.Pass? ==> e.k == KindOf(x) && HasJumps(e) == Jumping(x)
      ensures st == Fail(TooComplex) ==> old(freereg) + Temps(x) >= MAXSTACK
      ensures st.Pass? ==> old(freereg) + Temps(x) < MAXSTACK
      decreases x, 1
    {
      hide Reached, OnJumps, IsList, Sound, Fits;
      ghost var g := Goal(x, code, j, freereg);
      t, f := [], [];
      match x {
        case Var(i) =>
          e := ExpDesc(VLOCAL, i, NO_JUMP, NO_JUMP);
          Started(i, code, j, freereg);
          Nothing(code);
          return Pass, e, [], [];
        case Paren(y) =>
          e, t, f :- Compile(y);
          InParens(g, y, MainOf(code, e, j), Base(code, e, j), Lists(t, f, j));
          e := DischargeVars(e);
          return Pass, e, t, f;
        case Neg(y) =>
          e, t, f :- Compile(y);
          st, e := CodeNot(e, g.(x := y), t, f);
          t, f := f, t;
        case And(y, z) => st, e, t, f := CompileBinary(OprAnd, y, z);
        case Or(y, z) => st, e, t, f := CompileBinary(OprOr, y, z);
        case Rel(op, y, z) => st, e, t, f := CompileBinary(OprRel(op), y, z);
      }
    }

    /** One turn of the loop of `subexpr`. */
    method CompileBinary(op: BinOpr, x: Expr, y: Expr) returns (st: Status, e: ExpDesc, ghost t: seq<nat>, ghost f: seq<nat>)
      requires Valid() && Uses(x, nactvar) && Uses(y, nactvar)
      modifies `code, `jpc, `j, `lasttarget, `freereg, `maxstacksize
      ensures st.Pass? ==>
        var g := Goal(Combined(op, x, y), old(code), old(j), old(freereg));
        Computes(g, e, t, f) && Holding(g, e) && freereg == old(freereg)
      ensures |code| <= |old(code)| + Size(Combined(op, x, y)) && Excused(st)
      ensures st.Pass? ==> e.k == KindOf(Combined(op, x, y)) && HasJumps(e) == Jumping(Combined(op, x, y))
      ensures st == Fail(TooComplex) ==> old(freereg) + Temps(Combined(op, x, y)) >= MAXSTACK
      ensures st.Pass? ==> old(freereg) + Temps(Combined(op, x, y)) < MAXSTACK
      decreases Combined(op, x, y), 0
    {
      hide Reached, OnJumps, IsList, Sound, Uses, Temps, Size, KindOf, Jumping, Fits;
      BinaryCosts(op, x, y);
      ghost var g := Goal(x, code, j, freereg);
      e, t, f :- Compile(x);
      ghost var l;
      var e1;
      e1, l :- Infix(op, e, g, t, f);
      ghost var g2 := Goal(y, code, j, freereg);
      var e2;
      e2, t, f :- Compile(y);
      st, e, t, f := Posfix(op, e1, e2, g, g2, l, t, f);
    }

    // ------------------------------------------------------------- statements

    /** `luaK_storevar` for a local variable. */
    method StoreVar(v: Reg, ex: ExpDesc, ghost g: Goal, ghost t: seq<nat>, ghost f: seq<nat>) returns (st: Status)
      requires Computes(g, ex, t, f) && Holding(g, ex) && v < nactvar
      modifies `code, `jpc, `j, `lasttarget, `freereg
      ensures st.Pass? ==> Valid() && freereg == g.keep && Reached(g, InReg(v), code, Lists([], [], j), v)
      ensures |old(code)| <= |code| <= |old(code)| + 4 && Excused(st) && st != Fail(TooComplex)
    {
      FreeExp(ex);
      var _ :- Exp2Reg(ex, v, g, t, f);
      return Pass;
    }

    /** The assignment `v = x` to a local variable. It computes the value into the variable,
        with every jump within its field, and fails exactly if too few registers are left; for
        want of jump distance only when the code that has been emitted is longer than a jump
        reaches. */
    method Assign(v: Reg, x: Expr) returns (st: Status)
      requires Valid() && v < nactvar && Uses(x, nactvar)
      modifies `code, `jpc, `j, `lasttarget, `freereg, `maxstacksize
      ensures st.Pass? ==> Valid() && freereg == old(freereg)
      ensures st.Pass? ==> Reached(Goal(x, old(code), old(j), old(freereg)), InReg(v), code, Lists([], [], j), v)
      ensures st.Pass? ==> Works(x, v, old(code), old(j), old(freereg), code, j)
      ensures |code| <= |old(code)| + Size(x) + 4 && Excused(st)
      ensures |code| <= MAXARG_SBX ==> st == if old(freereg) + Temps(x) >= MAXSTACK then Fail(TooComplex) else Pass
      ensures st.Pass? ==> old(freereg) + Temps(x) < MAXSTACK
      ensures st == Fail(TooComplex) ==> old(freereg) + Temps(x) >= MAXSTACK
    {
      hide Reached, IsList, OnJumps, Sound, Uses, Works, Fits;
      ghost var g := Goal(x, code, j, freereg);
      ghost var t, f;
      var ex;
      ex, t, f :- Compile(x);
      st := StoreVar(v, ex, g, t, f);
      if st.Pass? { AssignWorks(x, v, g.c0, g.j0, g.keep, code, j); }
    }
  }
}
