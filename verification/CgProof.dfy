/** Each step of the code generator keeps `Built`. */
module CgProof {
  import opened Common
  import opened CgMachine
  import opened CgExpr

  lemma StartBuilt(i: Reg, c0: seq<Instr>, j0: seq<nat>, keep: nat)
    requires Sound(c0) && OnJumps(j0, c0)
    ensures Built(Var(i), InReg(i), c0, Lists([], [], j0), c0, j0, keep, -1)
  {
  }

  /** What a computation promises of one execution. */
  lemma BuiltOutcome(x: Expr, m: Main, c: seq<Instr>, p: Lists, c0: seq<Instr>, j0: seq<nat>, keep: nat, hole: int, ord: Order, r: Regs)
    requires Built(x, m, c, p, c0, j0, keep, hole)
    ensures Outcome(x, m, c, p, keep, hole, ord, r, Exec(c, ord, Pend(p), |c0|, r))
    ensures |c0| <= |c| && Listed(p, c) && Sound(c) && Sound(c0) && OnJumps(j0, c0) && Kept(c0, Elems(j0), c) && Entered(c0, j0, c, p)
  {
    hide Outcome, Listed, Sound, Entered, OnJumps;
  }

  lemma KeptSelf(c: seq<Instr>, l: set<nat>)
    requires forall i :: i in l && i < |c| ==> c[i].Jmp?
    ensures Kept(c, l, c)
  {
  }

  lemma AddJump(l: seq<nat>, at: nat, c: seq<Instr>, c': seq<Instr>)
    requires OnJumps(l, c) && c <= c' && |c| <= at < |c'| && c'[at].Jmp?
    ensures OnJumps(l + [at], c')
  {
    forall i, k | 0 <= i < k < |l| + 1 ensures (l + [at])[i] != (l + [at])[k] {
      assert l[i] in l;
    }
  }

  lemma LandResolved(c: seq<Instr>, ord: Order, pend: set<nat>, at: nat, to: nat, r: Regs)
    requires Resolved(c, at, to) && at !in pend && at < to
    ensures Land(c, ord, pend, at, r) == Exec(c, ord, pend, to, r)
  {
  }

  // --------------------------------------------- the waiting jumps get their target

  /** The waiting jumps are made to lead to the end of the code. */
  lemma Settle(x: Expr, m: Main, c: seq<Instr>, p: Lists, c0: seq<Instr>, j0: seq<nat>, keep: nat, hole: int)
    requires Built(x, m, c, p, c0, j0, keep, hole)
    ensures Built(x, m, Discharged(c, p.j), p.(j := []), c0, j0, keep, hole)
  {
    var c', p' := Discharged(c, p.j), p.(j := []);
    SettleShape(c, p, c0, j0);
    forall ord: Order, r: Regs ensures Outcome(x, m, c', p', keep, hole, ord, r, Exec(c', ord, Pend(p'), |c0|, r)) {
      SettleOutcome(x, m, c, p, c0, j0, keep, hole, ord, r);
    }
  }

  lemma SettleOutcome(x: Expr, m: Main, c: seq<Instr>, p: Lists, c0: seq<Instr>, j0: seq<nat>, keep: nat, hole: int, ord: Order, r: Regs)
    requires Built(x, m, c, p, c0, j0, keep, hole)
    ensures var c', p' := Discharged(c, p.j), p.(j := []);
      Outcome(x, m, c', p', keep, hole, ord, r, Exec(c', ord, Pend(p'), |c0|, r))
  {
    hide Keeps, Holds, NoDup, Kept, Sound, Entered;
    var c', p' := Discharged(c, p.j), p.(j := []);
    SettleShape(c, p, c0, j0);
    var out := Exec(c, ord, Pend(p), |c0|, r);
    assert Outcome(x, m, c, p, keep, hole, ord, r, out);
    Refine(c, Pend(p), c', Pend(p'), ord, |c0|, |c0|, r);
    if out.Jump? {
      if out.at in p.j {
        LandResolved(c', ord, Pend(p'), out.at, |c|, out.regs);
      } else {
        assert out.at in Pend(p');
        assert JumpValue(c', out.at, out.regs, true) == JumpValue(c, out.at, out.regs, true);
        assert JumpValue(c', out.at, out.regs, false) == JumpValue(c, out.at, out.regs, false);
      }
    }
  }

  lemma SettleShape(c: seq<Instr>, p: Lists, c0: seq<Instr>, j0: seq<nat>)
    requires Sound(c0) && OnJumps(j0, c0) && Sound(c) && Listed(p, c) && Kept(c0, Elems(j0), c) && Entered(c0, j0, c, p)
    ensures var c', p' := Discharged(c, p.j), p.(j := []);
      && Sound(c') && Listed(p', c') && Kept(c, Pend(p), c') && Kept(c0, Elems(j0), c') && Entered(c0, j0, c', p')
  {
    var c', p' := Discharged(c, p.j), p.(j := []);
    assert Kept(c, Pend(p), c');
    assert Kept(c, Elems(p.j), c');
    KeptTrans(c0, Elems(j0), c, Elems(p.j), c');
    assert Entered(c0, j0, c', p') by {
      forall at | at in j0 ensures Resolved(c', at, |c0|) {
      }
    }
  }

  // ------------------------------------------- the value is put in a register

  /** `v` is what the instruction writes when `m` holds the value. */
  predicate Writes(i: Instr, m: Main) {
    || (i.Move? && m == InReg(i.b))
    || (i.Not? && m == Negated(i.b))
  }

  /** Longer code with the same lists, or lists of newer jumps. */
  lemma Grown(c: seq<Instr>, p: Lists, c': seq<Instr>, p': Lists, c0: seq<Instr>, j0: seq<nat>)
    requires Sound(c0) && OnJumps(j0, c0) && Sound(c) && Listed(p, c) && Kept(c0, Elems(j0), c) && Entered(c0, j0, c, p)
    requires c <= c' && c != c' && p.j == [] && (forall i :: i in Pend(p') ==> i in Pend(p) || i >= |c|)
    ensures Kept(c, Pend(p), c') && Kept(c0, Elems(j0), c') && Entered(c0, j0, c', p')
  {
    KeptSelf(c, Pend(p));
    assert forall i :: 0 <= i < |c| ==> c'[i] == c[i];
    assert Kept(c, {}, c');
    KeptTrans(c0, Elems(j0), c, {}, c');
  }

  lemma Append(x: Expr, m: Main, c: seq<Instr>, p: Lists, i: Instr, c0: seq<Instr>, j0: seq<nat>, keep: nat)
    requires Built(x, m, c, p, c0, j0, keep, -1) && p.j == [] && Writes(i, m)
    ensures Built(x, InReg(i.a), c + [i], p, c0, j0, keep, i.a)
  {
    var c' := c + [i];
    Grown(c, p, c', p, c0, j0);
    forall ord: Order, r: Regs ensures Outcome(x, InReg(i.a), c', p, keep, i.a, ord, r, Exec(c', ord, Pend(p), |c0|, r)) {
      AppendOutcome(x, m, c, p, i, c0, j0, keep, ord, r);
    }
  }

  lemma AppendOutcome(x: Expr, m: Main, c: seq<Instr>, p: Lists, i: Instr, c0: seq<Instr>, j0: seq<nat>, keep: nat, ord: Order, r: Regs)
    requires Built(x, m, c, p, c0, j0, keep, -1) && p.j == [] && Writes(i, m)
    ensures var c' := c + [i];
      Outcome(x, InReg(i.a), c', p, keep, i.a, ord, r, Exec(c', ord, Pend(p), |c0|, r))
  {
    hide NoDup, Kept, Sound, Entered;
    var c' := c + [i];
    Grown(c, p, c', p, c0, j0);
    var out := Exec(c, ord, Pend(p), |c0|, r);
    assert Outcome(x, m, c, p, keep, -1, ord, r, out);
    Refine(c, Pend(p), c', Pend(p), ord, |c0|, |c0|, r);
    if out.Jump? {
      assert JumpValue(c', out.at, out.regs, true) == JumpValue(c, out.at, out.regs, true);
      assert JumpValue(c', out.at, out.regs, false) == JumpValue(c, out.at, out.regs, false);
    } else {
      assert c'[|c|] == i;
      var r1 := out.regs[i.a := Eval(x, r, ord)];
      assert Exec(c', ord, Pend(p), |c|, out.regs) == Exec(c', ord, Pend(p), |c'|, r1) == End(r1);
      assert Keeps(r, r1, keep, i.a);
    }
  }

  /** A register above those to be kept may be written. */
  lemma Scratch(x: Expr, m: Main, c: seq<Instr>, p: Lists, c0: seq<Instr>, j0: seq<nat>, keep: nat, hole: int)
    requires Built(x, m, c, p, c0, j0, keep, hole) && hole >= keep
    ensures Built(x, m, c, p, c0, j0, keep, -1)
  {
    hide NoDup, Kept, Sound, Entered;
    forall ord: Order, r: Regs ensures Outcome(x, m, c, p, keep, -1, ord, r, Exec(c, ord, Pend(p), |c0|, r)) {
      assert Outcome(x, m, c, p, keep, hole, ord, r, Exec(c, ord, Pend(p), |c0|, r));
    }
  }

  // ------------------------------------------------------------- conditional jumps

  /** The test lets its jump be taken exactly when the value is true (`want`) or false, and
      the value is then the one the jump stands for. */
  predicate Decides(test: Instr, m: Main, want: bool) {
    match test
    case Comp(op, cond, b, c) => m == Cond(op, cond == want, b, c)
    case TestSet(_, b, on) => m == InReg(b) && on == want
    case Test(b, on) => m == Negated(b) && on != want
    case _ => false
  }

  /** The lists after the jump at `at`, taken on `want`, has joined its list and the other
      list waits for the next instruction. */
  function BranchLists(p: Lists, at: nat, want: bool): Lists {
    if want then Lists(p.t + [at], [], p.f) else Lists([], p.f + [at], p.t)
  }

  lemma Branch(x: Expr, m: Main, c: seq<Instr>, p: Lists, test: Instr, want: bool, c0: seq<Instr>, j0: seq<nat>, keep: nat)
    requires Built(x, m, c, p, c0, j0, keep, -1) && p.j == [] && Decides(test, m, want)
    ensures Built(x, Decided(!want), c + [test, Jmp(NO_JUMP)], BranchLists(p, |c| + 1, want), c0, j0, keep, -1)
  {
    var c', p' := c + [test, Jmp(NO_JUMP)], BranchLists(p, |c| + 1, want);
    BranchListed(c, p, test, want);
    Grown(c, p, c', p', c0, j0);
    forall ord: Order, r: Regs ensures Outcome(x, Decided(!want), c', p', keep, -1, ord, r, Exec(c', ord, Pend(p'), |c0|, r)) {
      BranchOutcome(x, m, c, p, test, want, c0, j0, keep, ord, r);
    }
  }

  lemma BranchListed(c: seq<Instr>, p: Lists, test: Instr, want: bool)
    requires Sound(c) && Listed(p, c) && p.j == []
    ensures var c', p' := c + [test, Jmp(NO_JUMP)], BranchLists(p, |c| + 1, want);
      Sound(c') && Listed(p', c') && Pend(p') == Pend(p) + {|c| + 1}
  {
    AddJump(if want then p.t else p.f, |c| + 1, c, c + [test, Jmp(NO_JUMP)]);
  }

  lemma BranchOutcome(x: Expr, m: Main, c: seq<Instr>, p: Lists, test: Instr, want: bool, c0: seq<Instr>, j0: seq<nat>, keep: nat,
                      ord: Order, r: Regs)
    requires Built(x, m, c, p, c0, j0, keep, -1) && p.j == [] && Decides(test, m, want)
    ensures var c', p' := c + [test, Jmp(NO_JUMP)], BranchLists(p, |c| + 1, want);
      Outcome(x, Decided(!want), c', p', keep, -1, ord, r, Exec(c', ord, Pend(p'), |c0|, r))
  {
    hide Built, OnJumps, Kept, Sound, Entered, Outcome;
    var c', p' := c + [test, Jmp(NO_JUMP)], BranchLists(p, |c| + 1, want);
    BuiltOutcome(x, m, c, p, c0, j0, keep, -1, ord, r);
    BranchListed(c, p, test, want);
    Grown(c, p, c', p', c0, j0);
    var out := Exec(c, ord, Pend(p), |c0|, r);
    Refine(c, Pend(p), c', Pend(p'), ord, |c0|, |c0|, r);
    if out.End? { TestRuns(c, test, Pend(p'), ord, out.regs); }
    BranchHolds(x, m, c, p, test, want, keep, ord, r, out);
  }

  /** What the code left behind, with the test and its jump added. */
  lemma BranchHolds(x: Expr, m: Main, c: seq<Instr>, p: Lists, test: Instr, want: bool, keep: nat, ord: Order, r: Regs, out: Out)
    requires Outcome(x, m, c, p, keep, -1, ord, r, out) && p.j == [] && Listed(p, c) && Decides(test, m, want)
    ensures var c', p' := c + [test, Jmp(NO_JUMP)], BranchLists(p, |c| + 1, want);
      var last := if !out.End? then out else if Taken(test, out.regs, ord) then Jump(|c| + 1, out.regs) else out;
      !out.Stuck? && Outcome(x, Decided(!want), c', p', keep, -1, ord, r, last)
  {
    hide Keeps;
    var c' := c + [test, Jmp(NO_JUMP)];
    if out.Jump? {
      assert JumpValue(c', out.at, out.regs, true) == JumpValue(c, out.at, out.regs, true);
      assert JumpValue(c', out.at, out.regs, false) == JumpValue(c, out.at, out.regs, false);
    }
  }

  /** A test at the end of the code, with its pending jump. */
  lemma TestRuns(c: seq<Instr>, test: Instr, p: set<nat>, ord: Order, r: Regs)
    requires IsTest(test) && |c| + 1 in p
    ensures Exec(c + [test, Jmp(NO_JUMP)], ord, p, |c|, r) == if Taken(test, r, ord) then Jump(|c| + 1, r) else End(r)
  {
    var c' := c + [test, Jmp(NO_JUMP)];
    assert c'[|c|] == test && c'[|c| + 1] == Jmp(NO_JUMP);
    assert Exec(c', ord, p, |c| + 2, r) == End(r);
  }

  // ------------------------------------------------------------- relinked lists

  /** The same code up to the links of pending jumps. */
  ghost predicate Relinked(c: seq<Instr>, l: set<nat>, c': seq<Instr>) {
    && |c'| == |c|
    && forall i :: 0 <= i < |c| ==> (if i in l then c[i].Jmp? && c'[i].Jmp? else c'[i] == c[i])
  }

  lemma Relink(x: Expr, m: Main, c: seq<Instr>, p: Lists, c': seq<Instr>, c0: seq<Instr>, j0: seq<nat>, keep: nat, hole: int)
    requires Built(x, m, c, p, c0, j0, keep, hole) && Relinked(c, Pend(p), c')
    requires |c| > |c0|
    ensures Built(x, m, c', p, c0, j0, keep, hole)
  {
    assert Kept(c, Pend(p), c');
    assert Sound(c') by {
      forall i | 0 <= i < |c| && IsTest(c'[i]) ensures i + 1 < |c| && c'[i + 1].Jmp? { assert c[i + 1].Jmp?; }
    }
    forall ord: Order, r: Regs ensures Outcome(x, m, c', p, keep, hole, ord, r, Exec(c', ord, Pend(p), |c0|, r)) {
      var out := Exec(c, ord, Pend(p), |c0|, r);
      assert Outcome(x, m, c, p, keep, hole, ord, r, out);
      Refine(c, Pend(p), c', Pend(p), ord, |c0|, |c0|, r);
      if out.Jump? {
        assert JumpValue(c', out.at, out.regs, true) == JumpValue(c, out.at, out.regs, true);
        assert JumpValue(c', out.at, out.regs, false) == JumpValue(c, out.at, out.regs, false);
      }
    }
  }

  // ---------------------------------------------- a comparison about to give a value

  /** The jump behind a comparison joins the true list; otherwise the value is false. */
  lemma Fall(x: Expr, test: Instr, c: seq<Instr>, p: Lists, c0: seq<Instr>, j0: seq<nat>, keep: nat)
    requires test.Comp? && p.j == []
    requires Built(x, Cond(test.op, test.cond, test.b, test.c), c, p, c0, j0, keep, -1)
    ensures Built(x, Known(false), c + [test, Jmp(NO_JUMP)], p.(t := p.t + [|c| + 1]), c0, j0, keep, -1)
  {
    var c', p' := c + [test, Jmp(NO_JUMP)], p.(t := p.t + [|c| + 1]);
    BranchListed(c, p, test, true);
    Grown(c, p, c', p', c0, j0);
    forall ord: Order, r: Regs ensures Outcome(x, Known(false), c', p', keep, -1, ord, r, Exec(c', ord, Pend(p'), |c0|, r)) {
      FallOutcome(x, test, c, p, c0, j0, keep, ord, r);
    }
  }

  lemma FallOutcome(x: Expr, test: Instr, c: seq<Instr>, p: Lists, c0: seq<Instr>, j0: seq<nat>, keep: nat, ord: Order, r: Regs)
    requires test.Comp? && p.j == []
    requires Built(x, Cond(test.op, test.cond, test.b, test.c), c, p, c0, j0, keep, -1)
    ensures var c', p' := c + [test, Jmp(NO_JUMP)], p.(t := p.t + [|c| + 1]);
      Outcome(x, Known(false), c', p', keep, -1, ord, r, Exec(c', ord, Pend(p'), |c0|, r))
  {
    hide NoDup, Kept, Sound, Entered, Keeps;
    var c', p' := c + [test, Jmp(NO_JUMP)], p.(t := p.t + [|c| + 1]);
    BranchListed(c, p, test, true);
    Grown(c, p, c', p', c0, j0);
    var out := Exec(c, ord, Pend(p), |c0|, r);
    assert Outcome(x, Cond(test.op, test.cond, test.b, test.c), c, p, keep, -1, ord, r, out);
    Refine(c, Pend(p), c', Pend(p'), ord, |c0|, |c0|, r);
    if out.Jump? {
      assert JumpValue(c', out.at, out.regs, true) == JumpValue(c, out.at, out.regs, true);
      assert JumpValue(c', out.at, out.regs, false) == JumpValue(c, out.at, out.regs, false);
    } else {
      assert c'[|c|] == test && c'[|c| + 1] == Jmp(NO_JUMP) && |c| + 1 in Pend(p');
      var r1 := out.regs;
      assert Exec(c', ord, Pend(p'), |c| + 2, r1) == End(r1);
      assert Exec(c', ord, Pend(p'), |c|, r1) == if Taken(test, r1, ord) then Jump(|c| + 1, r1) else End(r1);
    }
  }
}
