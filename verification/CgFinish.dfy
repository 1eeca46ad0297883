/** Negation, and putting the value of an expression with jumps into a register. */
module CgFinish {
  import opened Common
  import opened CgMachine
  import opened CgExpr
  import opened CgSequence

  // --------------------------------------------------------------- negation

  /** `m2` holds the negation of what `m` holds. */
  predicate Opposite(m: Main, m2: Main) {
    match m
    case InReg(k) => m2 == Negated(k)
    case Cond(op, cond, b, c) => m2 == Cond(op, !cond, b, c)
    case _ => false
  }

  /** The lists change places and no jump moves a value any more. */
  lemma Invert(x: Expr, m: Main, m2: Main, c: seq<Instr>, p: Lists, c0: seq<Instr>, j0: seq<nat>, keep: nat)
    requires Built(x, m, c, p, c0, j0, keep, -1) && Opposite(m, m2)
    ensures Built(Neg(x), m2, Stripped(c, p.t + p.f), Lists(p.f, p.t, p.j), c0, j0, keep, -1)
  {
    var c', p' := Stripped(c, p.t + p.f), Lists(p.f, p.t, p.j);
    StripShape(c, p, c0, j0);
    forall ord: Order, r: Regs ensures Outcome(Neg(x), m2, c', p', keep, -1, ord, r, Exec(c', ord, Pend(p'), |c0|, r)) {
      InvertOutcome(x, m, m2, c, p, c0, j0, keep, ord, r);
    }
  }

  lemma StripShape(c: seq<Instr>, p: Lists, c0: seq<Instr>, j0: seq<nat>)
    requires Sound(c0) && OnJumps(j0, c0) && Sound(c) && Listed(p, c) && Kept(c0, Elems(j0), c) && Entered(c0, j0, c, p)
    ensures var c', p' := Stripped(c, p.t + p.f), Lists(p.f, p.t, p.j);
      && Sound(c') && Listed(p', c') && Pend(p') == Pend(p) && Kept(c, Pend(p), c') && Kept(c0, Elems(j0), c') && Entered(c0, j0, c', p')
  {
    hide Stripped, NoDup, Resolved, IsTest;
    var l := p.t + p.f;
    StripKept(c, p);
    StripListed(c, p);
    if l == [] {
      StripNone(c);
    } else {
      assert l[0] in Pend(p);
      SoundEnd(c0, Elems(j0), c);
      KeptTrans(c0, Elems(j0), c, Elems(l), Stripped(c, l));
      forall at | at in j0 ensures Resolved(Stripped(c, l), at, |c0|) { ResolvedKept(c0, c, l, Stripped(c, l), at); }
    }
  }

  lemma StripNone(c: seq<Instr>)
    ensures Stripped(c, []) == c
  {
  }

  lemma StripKept(c: seq<Instr>, p: Lists)
    requires Sound(c) && Listed(p, c)
    ensures var c' := Stripped(c, p.t + p.f); Kept(c, Pend(p), c') && Kept(c, Elems(p.t + p.f), c') && Sound(c')
  {
    hide NoDup;
  }

  lemma StripListed(c: seq<Instr>, p: Lists)
    requires Listed(p, c)
    ensures Listed(Lists(p.f, p.t, p.j), Stripped(c, p.t + p.f)) && Pend(Lists(p.f, p.t, p.j)) == Pend(p)
  {
    hide NoDup;
  }

  lemma InvertOutcome(x: Expr, m: Main, m2: Main, c: seq<Instr>, p: Lists, c0: seq<Instr>, j0: seq<nat>, keep: nat, ord: Order, r: Regs)
    requires Built(x, m, c, p, c0, j0, keep, -1) && Opposite(m, m2)
    ensures var c', p' := Stripped(c, p.t + p.f), Lists(p.f, p.t, p.j);
      Outcome(Neg(x), m2, c', p', keep, -1, ord, r, Exec(c', ord, Pend(p'), |c0|, r))
  {
    hide NoDup, Kept, Sound, Entered, Keeps;
    var c', p' := Stripped(c, p.t + p.f), Lists(p.f, p.t, p.j);
    StripShape(c, p, c0, j0);
    var out := Exec(c, ord, Pend(p), |c0|, r);
    assert Outcome(x, m, c, p, keep, -1, ord, r, out);
    Refine(c, Pend(p), c', Pend(p'), ord, |c0|, |c0|, r);
    if out.Jump? {
      assert out.at in Pend(p');
      if out.at in p.t || out.at in p.f {
        assert out.at in p.t + p.f;
        assert !Moves(c', out.at);
      }
    }
  }

  // ------------------------------------------------------------ the value's place

  /** `need_value`: some jump of the list moves no value. */
  ghost predicate NeedsValue(c: seq<Instr>, l: seq<nat>) {
    exists i :: i in l && !Moves(c, i)
  }

  /** The loads of true and false that jumps without a value lead to. */
  function Loads(reg: Reg): seq<Instr> {
    [LoadBool(reg, false, true), LoadBool(reg, true, false)]
  }

  /** What `exp2reg` puts behind the code: nothing when every jump moves its value; else the
      loads, which other code jumps over with a jump that waits for the next instruction,
      while a comparison falls into the load of false. `j` is what waits in the end. */
  ghost predicate Completes(m: Main, c: seq<Instr>, p: Lists, loads: seq<Instr>, reg: Reg, j: seq<nat>) {
    || (m == InReg(reg) && loads == [] && !NeedsValue(c, p.t) && !NeedsValue(c, p.f) && j == p.j)
    || (m == InReg(reg) && |loads| == 3 && loads[0].Jmp? && loads[1..] == Loads(reg) && j == [|c|] + p.j)
    || (m == Known(false) && loads == Loads(reg) && j == p.j == [])
  }

  /** The jumps of both lists sent to the loads or, with their values, to the end. */
  function Completed(c: seq<Instr>, p: Lists, loads: seq<Instr>, reg: Reg): seq<Instr> {
    var c1 := c + loads;
    Patched(Patched(c1, p.f, |c1|, reg, |c1| - 2), p.t, |c1|, reg, |c1| - 1)
  }

  /** Where a jump of a completed list leads, and what its test has become. */
  predicate Delivers(c: seq<Instr>, c': seq<Instr>, at: nat, reg: Reg, dtarget: int) {
    && at < |c| && at < |c'|
    && c'[at] == Jmp((if Moves(c, at) then |c'| else dtarget) - (at + 1))
    && (at > 0 ==> if Moves(c, at) then c'[at - 1] == PatchTest(c[at - 1], reg) else !c'[at - 1].TestSet?)
  }

  lemma CompletedAt(c: seq<Instr>, p: Lists, loads: seq<Instr>, reg: Reg)
    requires Sound(c) && Listed(p, c)
    ensures var c' := Completed(c, p, loads, reg);
      && |c'| == |c| + |loads| && (forall i :: |c| <= i < |c'| ==> c'[i] == loads[i - |c|])
      && Kept(c, Pend(p), c') && Kept(c, Elems(p.t + p.f), c')
      && (forall at :: at in p.t ==> Delivers(c, c', at, reg, |c'| - 1))
      && (forall at :: at in p.f ==> Delivers(c, c', at, reg, |c'| - 2))
      && (forall at :: at in p.j ==> at < |c| && c'[at] == c[at])
  {
    hide NoDup;
    var c1 := c + loads;
    var c2 := Patched(c1, p.f, |c1|, reg, |c1| - 2);
    var c' := Patched(c2, p.t, |c1|, reg, |c1| - 1);
    assert forall i :: 0 <= i < |c| ==> c1[i] == c[i];
    forall at | at in p.t ensures Delivers(c, c', at, reg, |c'| - 1) {
      assert at !in p.f;
      assert Moves(c2, at) == Moves(c, at);
    }
    forall at | at in p.f ensures Delivers(c, c', at, reg, |c'| - 2) {
      assert at !in p.t;
    }
    assert Kept(c, Pend(p), c');
  }

  lemma FinishShape(m: Main, c: seq<Instr>, p: Lists, loads: seq<Instr>, reg: Reg, j: seq<nat>, c0: seq<Instr>, j0: seq<nat>)
    requires Sound(c0) && OnJumps(j0, c0) && Sound(c) && Listed(p, c) && Kept(c0, Elems(j0), c) && Entered(c0, j0, c, p)
    requires Completes(m, c, p, loads, reg, j) && p.t + p.f != []
    ensures var c', p' := Completed(c, p, loads, reg), Lists([], [], j);
      && Sound(c') && Listed(p', c') && Kept(c0, Elems(j0), c') && Entered(c0, j0, c', p')
      && (forall i :: i in Pend(p') && i < |c| ==> i in Pend(p))
  {
    hide Sound, Listed, Kept, Entered, Completes, Completed, NoDup;
    FinishSound(m, c, p, loads, reg, j);
    FinishListed(m, c, p, loads, reg, j);
    FinishEntered(m, c, p, loads, reg, j, c0, j0);
  }

  lemma FinishSound(m: Main, c: seq<Instr>, p: Lists, loads: seq<Instr>, reg: Reg, j: seq<nat>)
    requires Sound(c) && Listed(p, c) && Completes(m, c, p, loads, reg, j)
    ensures Sound(Completed(c, p, loads, reg))
  {
    hide Completed, Listed, NeedsValue, Delivers;
    CompletedAt(c, p, loads, reg);
    var c' := Completed(c, p, loads, reg);
    forall i | 0 <= i < |c'| && IsTest(c'[i]) ensures i + 1 < |c'| && c'[i + 1].Jmp? {
      assert i < |c| && IsTest(c[i]);
      assert c[i + 1].Jmp?;
    }
  }

  lemma FinishListed(m: Main, c: seq<Instr>, p: Lists, loads: seq<Instr>, reg: Reg, j: seq<nat>)
    requires Sound(c) && Listed(p, c) && Completes(m, c, p, loads, reg, j)
    ensures Listed(Lists([], [], j), Completed(c, p, loads, reg))
    ensures forall i :: i in Pend(Lists([], [], j)) && i < |c| ==> i in Pend(p)
  {
    hide Completed, NeedsValue, Delivers, Kept, Sound;
    CompletedAt(c, p, loads, reg);
    forall i, k | 0 <= i < k < |j| ensures j[i] != j[k] { if |j| > |p.j| { assert p.j[k - 1] in p.j; } }
  }

  lemma FinishEntered(m: Main, c: seq<Instr>, p: Lists, loads: seq<Instr>, reg: Reg, j: seq<nat>, c0: seq<Instr>, j0: seq<nat>)
    requires Sound(c0) && Sound(c) && Listed(p, c) && Kept(c0, Elems(j0), c) && Entered(c0, j0, c, p)
    requires Completes(m, c, p, loads, reg, j) && p.t + p.f != [] && forall at :: at in j0 ==> at < |c0|
    ensures var c' := Completed(c, p, loads, reg); Kept(c0, Elems(j0), c') && Entered(c0, j0, c', Lists([], [], j))
  {
    hide Completed, NoDup, NeedsValue, Delivers, OnJumps, Apart;
    var c' := Completed(c, p, loads, reg);
    CompletedAt(c, p, loads, reg);
    var l := p.t + p.f;
    assert l[0] in Pend(p);
    assert forall i :: i in l || i in p.j ==> i in Pend(p);
    KeptTrans(c0, Elems(j0), c, Elems(l), c');
    forall at | at in j0 ensures Resolved(c', at, |c0|) {
      assert Resolved(c, at, |c0|);
      assert at !in l;
      assert c[at] == c'[at];
      if at > 0 { assert c[at - 1] == c[at - 1]; }
    }
  }

  /** A jump that has been taken delivers the value to the register. */
  lemma Delivered(c: seq<Instr>, p: Lists, loads: seq<Instr>, reg: Reg, j: seq<nat>, m: Main, ord: Order, at: nat, r: Regs, b: bool)
    requires Sound(c) && Listed(p, c) && Completes(m, c, p, loads, reg, j) && reg != NO_REG
    requires if b then at in p.t else at in p.f
    ensures var c' := Completed(c, p, loads, reg);
      at < |c'| && c'[at].Jmp? && Land(c', ord, Elems(j), at, r) == End(r[reg := JumpValue(c, at, r, b)])
  {
    hide NoDup, Sound, Completed, Kept;
    var c' := Completed(c, p, loads, reg);
    CompletedAt(c, p, loads, reg);
    var d := if b then |c'| - 1 else |c'| - 2;
    assert Delivers(c, c', at, reg, d);
    assert at !in j;
    if Moves(c, at) {
      assert r[reg := r[reg]] == r;
    } else {
      assert NeedsValue(c, if b then p.t else p.f);
      assert c'[|c'| - 1] == LoadBool(reg, true, false) && c'[|c'| - 2] == LoadBool(reg, false, true);
      assert Exec(c', ord, Elems(j), d, r) == End(r[reg := Bool(b)]);
    }
  }

  /** The end of the old code delivers the value, too. */
  lemma DeliveredEnd(c: seq<Instr>, p: Lists, loads: seq<Instr>, reg: Reg, j: seq<nat>, m: Main, ord: Order, r: Regs)
    requires Sound(c) && Listed(p, c) && Completes(m, c, p, loads, reg, j)
    ensures var c' := Completed(c, p, loads, reg);
      Exec(c', ord, Elems(j), |c|, r) ==
        if m == Known(false) then End(r[reg := Bool(false)]) else if loads == [] then End(r) else Jump(|c|, r)
  {
    hide NoDup;
    var c' := Completed(c, p, loads, reg);
    CompletedAt(c, p, loads, reg);
    if m == Known(false) {
      assert c'[|c|] == LoadBool(reg, false, true);
    } else if loads != [] {
      assert c'[|c|].Jmp? && |c| in j;
      if |c| > 0 { KeptTest(c, Pend(p), c', |c| - 1); assert !IsTest(c[|c| - 1]); }
    }
  }

  /** `exp2reg` leaves the value in the register, however it has been decided. */
  lemma Finish(x: Expr, m: Main, c: seq<Instr>, p: Lists, loads: seq<Instr>, reg: Reg, j: seq<nat>,
               c0: seq<Instr>, j0: seq<nat>, keep: nat, hole: int)
    requires Built(x, m, c, p, c0, j0, keep, hole) && (hole == -1 || hole == reg)
    requires Completes(m, c, p, loads, reg, j) && p.t + p.f != [] && reg != NO_REG
    ensures Built(x, InReg(reg), Completed(c, p, loads, reg), Lists([], [], j), c0, j0, keep, reg)
  {
    var c', p' := Completed(c, p, loads, reg), Lists([], [], j);
    FinishShape(m, c, p, loads, reg, j, c0, j0);
    forall ord: Order, r: Regs ensures Outcome(x, InReg(reg), c', p', keep, reg, ord, r, Exec(c', ord, Pend(p'), |c0|, r)) {
      FinishOutcome(x, m, c, p, loads, reg, j, c0, j0, keep, hole, ord, r);
    }
  }

  lemma FinishOutcome(x: Expr, m: Main, c: seq<Instr>, p: Lists, loads: seq<Instr>, reg: Reg, j: seq<nat>,
                      c0: seq<Instr>, j0: seq<nat>, keep: nat, hole: int, ord: Order, r: Regs)
    requires Built(x, m, c, p, c0, j0, keep, hole) && (hole == -1 || hole == reg)
    requires Completes(m, c, p, loads, reg, j) && p.t + p.f != [] && reg != NO_REG
    ensures var c', p' := Completed(c, p, loads, reg), Lists([], [], j);
      Outcome(x, InReg(reg), c', p', keep, reg, ord, r, Exec(c', ord, Pend(p'), |c0|, r))
  {
    hide NoDup, Kept, Sound, Entered, Completed, JumpValue, Eval, Keeps, Completes;
    var c', p' := Completed(c, p, loads, reg), Lists([], [], j);
    FinishShape(m, c, p, loads, reg, j, c0, j0);
    CompletedAt(c, p, loads, reg);
    var out := Exec(c, ord, Pend(p), |c0|, r);
    assert Outcome(x, m, c, p, keep, hole, ord, r, out);
    assert Pend(p') == Elems(j);
    var out' := Exec(c', ord, Pend(p'), |c0|, r);
    var v := Eval(x, r, ord);
    Refine(c, Pend(p), c', Pend(p'), ord, |c0|, |c0|, r);
    if out.End? {
      DeliveredEnd(c, p, loads, reg, j, m, ord, out.regs);
      FinishEnd(x, m, c, p, loads, reg, j, c', keep, hole, ord, r, out.regs, out');
    } else if out.at in p.t {
      Delivered(c, p, loads, reg, j, m, ord, out.at, out.regs, true);
      ValueIn(x, reg, c', p', keep, hole, ord, r, out.regs, out');
    } else if out.at in p.f {
      Delivered(c, p, loads, reg, j, m, ord, out.at, out.regs, false);
      ValueIn(x, reg, c', p', keep, hole, ord, r, out.regs, out');
    } else {
      FinishWaiting(x, m, c, p, loads, reg, j, c', keep, hole, ord, r, out, out');
    }
  }

  lemma ValueIn(x: Expr, reg: Reg, c': seq<Instr>, p': Lists, keep: nat, hole: int, ord: Order, r: Regs, r1: Regs, out': Out)
    requires Keeps(r, r1, keep, hole) && (hole == -1 || hole == reg)
    requires out' == End(r1[reg := Eval(x, r, ord)])
    ensures Outcome(x, InReg(reg), c', p', keep, reg, ord, r, out')
  {
  }

  lemma FinishEnd(x: Expr, m: Main, c: seq<Instr>, p: Lists, loads: seq<Instr>, reg: Reg, j: seq<nat>, c': seq<Instr>,
                  keep: nat, hole: int, ord: Order, r: Regs, r1: Regs, out': Out)
    requires Completes(m, c, p, loads, reg, j)
    requires Keeps(r, r1, keep, hole) && (hole == -1 || hole == reg) && Holds(m, r1, ord, Eval(x, r, ord))
    requires out' == if m == Known(false) then End(r1[reg := Bool(false)]) else if loads == [] then End(r1) else Jump(|c|, r1)
    ensures Outcome(x, InReg(reg), c', Lists([], [], j), keep, reg, ord, r, out')
  {
    hide Eval;
  }

  lemma FinishWaiting(x: Expr, m: Main, c: seq<Instr>, p: Lists, loads: seq<Instr>, reg: Reg, j: seq<nat>, c': seq<Instr>,
                      keep: nat, hole: int, ord: Order, r: Regs, out: Out, out': Out)
    requires Completes(m, c, p, loads, reg, j) && out.Jump? && out.at in p.j
    requires Outcome(x, m, c, p, keep, hole, ord, r, out) && (hole == -1 || hole == reg)
    requires out.at < |c'| && c'[out.at].Jmp? && out' == Land(c', ord, Elems(j), out.at, out.regs)
    ensures Outcome(x, InReg(reg), c', Lists([], [], j), keep, reg, ord, r, out')
  {
    hide Eval;
    assert out.at in j;
  }
}
