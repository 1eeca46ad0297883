/** Two computations in a row: and, or and the comparisons. */
module CgSequence {
  import opened Common
  import opened CgMachine
  import opened CgExpr
  import opened CgProof

  /** `c2` computes something from the end of `c1`, where the jumps `p1.j` waited. */
  ghost predicate Continues(c1: seq<Instr>, p1: Lists, c2: seq<Instr>, p2: Lists) {
    && Sound(c1) && Sound(c2) && Listed(p1, c1) && Listed(p2, c2)
    && Kept(c1, Elems(p1.j), c2) && Entered(c1, p1.j, c2, p2)
  }

  /** An execution of the second half is what follows an execution of the first, except that
      one still waiting jump may stand for the empty second half. */
  ghost predicate Chained(c1: seq<Instr>, p1: Lists, c2: seq<Instr>, p2: Lists, pend: set<nat>, ord: Order, s: nat, r: Regs) {
    var o1 := Exec(c1, ord, Pend(p1), s, r);
    var o := Exec(c2, ord, pend, s, r);
    && (o1.End? || (o1.Jump? && o1.at in p1.j) ==>
         var o2 := Exec(c2, ord, Pend(p2), |c1|, o1.regs);
         o2.Stuck? || o == o2 || (o1.Jump? && o == o1 && o.at in p2.j && o2 == End(o1.regs)))
    && (o1.Jump? ==> o1.at in p1.t + p1.f + p1.j)
    && (o1.Jump? && o1.at in p1.t + p1.f ==> o == o1 && JumpValueKept(c1, c2, o1.at))
  }

  ghost predicate JumpValueKept(c1: seq<Instr>, c2: seq<Instr>, at: nat) {
    at < |c1| && at < |c2| && (at > 0 && (c1[at - 1].TestSet? || c2[at - 1].TestSet?) ==> c1[at - 1] == c2[at - 1])
  }

  lemma Chain(c1: seq<Instr>, p1: Lists, c2: seq<Instr>, p2: Lists, pend: set<nat>, ord: Order, s: nat, r: Regs)
    requires Continues(c1, p1, c2, p2) && s <= |c1|
    requires pend == Elems(p1.t) + Elems(p1.f) + Pend(p2)
    ensures Chained(c1, p1, c2, p2, pend, ord, s, r)
  {
    hide NoDup, Sound;
    assert Kept(c1, Pend(p1), c2);
    assert forall i :: i in Pend(p2) && i < |c1| ==> i in p1.j;
    Refine(c1, Pend(p1), c2, pend, ord, s, s, r);
    var o1 := Exec(c1, ord, Pend(p1), s, r);
    if o1.End? || (o1.Jump? && o1.at in p1.j) {
      Widen(c2, Pend(p2), pend, ord, |c1|, o1.regs);
      if o1.Jump? && !(c1 == c2 && p2 == Lists([], [], p1.j)) {
        LandResolved(c2, ord, pend, o1.at, |c1|, o1.regs);
      }
    }
    if o1.Jump? && o1.at !in p1.j && o1.at > 0 {
      assert c1[o1.at - 1] == c1[o1.at - 1];
    }
  }

  /** Pending jumps before the start of an execution do not matter. */
  lemma Widen(c: seq<Instr>, p: set<nat>, q: set<nat>, ord: Order, s: nat, r: Regs)
    requires forall i :: i in p ==> i < |c| && c[i].Jmp?
    requires p <= q && forall i :: i in q && s <= i ==> i in p
    ensures Exec(c, ord, p, s, r).Stuck? || Exec(c, ord, q, s, r) == Exec(c, ord, p, s, r)
  {
    KeptSelf(c, p);
    Refine(c, p, c, q, ord, s, s, r);
  }

  lemma KeptJump(c1: seq<Instr>, l: set<nat>, c2: seq<Instr>, at: nat)
    requires Kept(c1, l, c2) && at < |c1| && c1[at].Jmp? && at !in l
    ensures c2[at] == c1[at]
    ensures at > 0 && (c1[at - 1].TestSet? || c2[at - 1].TestSet?) ==> c1[at - 1] == c2[at - 1]
  {
    if at > 0 { assert c1[at - 1] == c1[at - 1]; }
  }

  lemma ContinuesBuilt(c1: seq<Instr>, p1: Lists, c2: seq<Instr>, p2: Lists, c0: seq<Instr>, j0: seq<nat>)
    requires Continues(c1, p1, c2, p2)
    requires Sound(c0) && OnJumps(j0, c0) && Kept(c0, Elems(j0), c1) && Entered(c0, j0, c1, p1)
    ensures Kept(c0, Elems(j0), c2)
    ensures c0 == c1 && p1 == Lists([], [], j0) ==> Entered(c0, j0, c2, p2)
    ensures !(c0 == c1 && p1 == Lists([], [], j0)) ==>
      forall p :: (forall i :: i in Pend(p) ==> i in Pend(p2) + Pend(p1)) ==> Entered(c0, j0, c2, p)
  {
    hide NoDup, Kept, Resolved, Sound, Pend;
    if c0 != c1 || p1 != Lists([], [], j0) {
      NewerLists(c0, j0, c1, p1);
      SoundEnd(c0, Elems(j0), c1);
      KeptTrans(c0, Elems(j0), c1, Elems(p1.j), c2);
      forall at | at in j0 ensures Resolved(c2, at, |c0|) { ResolvedKept(c0, c1, p1.j, c2, at); }
      PendNewer(c0, c1, p1, c2, p2);
    }
  }

  /** What is pending after the start of `c1` is newer than `c0`. */
  lemma NewerLists(c0: seq<Instr>, j0: seq<nat>, c1: seq<Instr>, p1: Lists)
    requires Entered(c0, j0, c1, p1) && (c0 != c1 || p1 != Lists([], [], j0))
    ensures forall i :: i in Elems(p1.j) ==> i >= |c0|
    ensures (forall i :: i in Pend(p1) ==> i >= |c0|) && forall at :: at in j0 ==> Resolved(c1, at, |c0|)
  {
    hide Resolved;
    forall i | i in Elems(p1.j) ensures i >= |c0| { assert i in Pend(p1); }
  }

  lemma SoundEnd(c: seq<Instr>, open: set<nat>, c1: seq<Instr>)
    requires Sound(c) && Kept(c, open, c1)
    ensures (|c| > 0 ==> !IsTest(c[|c| - 1])) && |c| <= |c1|
  {
  }

  lemma ResolvedKept(c0: seq<Instr>, c1: seq<Instr>, l: seq<nat>, c2: seq<Instr>, at: nat)
    requires Resolved(c1, at, |c0|) && Kept(c1, Elems(l), c2) && at < |c0|
    requires forall i :: i in Elems(l) ==> i >= |c0|
    ensures Resolved(c2, at, |c0|)
  {
    KeptJump(c1, Elems(l), c2, at);
  }

  lemma PendNewer(c0: seq<Instr>, c1: seq<Instr>, p1: Lists, c2: seq<Instr>, p2: Lists)
    requires Entered(c1, p1.j, c2, p2) && |c0| <= |c1| && forall i :: i in Pend(p1) ==> i >= |c0|
    ensures forall i :: i in Pend(p2) ==> i >= |c0|
  {
    hide Resolved;
    forall i | i in Pend(p2) ensures i >= |c0| {
      if c1 == c2 && p2 == Lists([], [], p1.j) { assert i in Elems(p1.j) && i in Pend(p1); }
    }
  }

  // ------------------------------------------------------------- and, or

  /** The lists of a connective: those of the second operand and the jump list `l` that
      leaves the first operand. */
  function Joined(p2: Lists, l: seq<nat>, want: bool): Lists {
    if want then p2.(t := p2.t + l) else p2.(f := p2.f + l)
  }

  function Connective(x: Expr, y: Expr, want: bool): Expr {
    if want then Or(x, y) else And(x, y)
  }

  lemma Connect(x: Expr, y: Expr, want: bool, c1: seq<Instr>, p1: Lists, m: Main, c2: seq<Instr>, p2: Lists,
                c0: seq<Instr>, j0: seq<nat>, keep: nat)
    requires Built(x, Decided(!want), c1, p1, c0, j0, keep, -1) && |c0| < |c1|
    requires (if want then p1.f else p1.t) == []
    requires Built(y, m, c2, p2, c1, p1.j, keep, -1) && Uses(y, keep)
    ensures Built(Connective(x, y, want), m, c2, Joined(p2, if want then p1.t else p1.f, want), c0, j0, keep, -1)
  {
    var l := if want then p1.t else p1.f;
    var p := Joined(p2, l, want);
    assert Listed(p, c2) && Pend(p) == Elems(p1.t) + Elems(p1.f) + Pend(p2) by {
      JoinListed(c1, p1, c2, p2, want);
    }
    ContinuesBuilt(c1, p1, c2, p2, c0, j0);
    forall ord: Order, r: Regs
      ensures Outcome(Connective(x, y, want), m, c2, p, keep, -1, ord, r, Exec(c2, ord, Pend(p), |c0|, r))
    {
      ConnectOutcome(x, y, want, c1, p1, m, c2, p2, c0, j0, keep, ord, r);
    }
  }

  lemma JoinDisjoint(a: seq<nat>, b: seq<nat>, c: seq<Instr>)
    requires OnJumps(a, c) && NoDup(b) && Apart(b, a) && (forall i :: i in b ==> i < |c| && c[i].Jmp?)
    ensures OnJumps(a + b, c)
  {
    forall i, k | 0 <= i < k < |a + b| ensures (a + b)[i] != (a + b)[k] {
      if i < |a| <= k { assert a[i] in a && b[k - |a|] in b; }
    }
  }

  lemma JoinListed(c1: seq<Instr>, p1: Lists, c2: seq<Instr>, p2: Lists, want: bool)
    requires Continues(c1, p1, c2, p2)
    requires (if want then p1.f else p1.t) == []
    ensures var p := Joined(p2, if want then p1.t else p1.f, want);
      Listed(p, c2) && Pend(p) == Elems(p1.t) + Elems(p1.f) + Pend(p2)
    ensures var l := if want then p1.t else p1.f; Apart(l, p2.t) && Apart(l, p2.f)
  {
    var l := if want then p1.t else p1.f;
    var l2 := if want then p2.t else p2.f;
    forall i | i in l ensures i < |c1| && c2[i].Jmp? && i !in p2.t && i !in p2.f && i !in p2.j {
      KeptJump(c1, Elems(p1.j), c2, i);
      assert i !in Pend(p2);
    }
    JoinDisjoint(l2, l, c2);
  }

  lemma ConnectOutcome(x: Expr, y: Expr, want: bool, c1: seq<Instr>, p1: Lists, m: Main, c2: seq<Instr>, p2: Lists,
                       c0: seq<Instr>, j0: seq<nat>, keep: nat, ord: Order, r: Regs)
    requires Built(x, Decided(!want), c1, p1, c0, j0, keep, -1) && |c0| < |c1|
    requires (if want then p1.f else p1.t) == []
    requires Built(y, m, c2, p2, c1, p1.j, keep, -1) && Uses(y, keep)
    ensures var p := Joined(p2, if want then p1.t else p1.f, want);
      Outcome(Connective(x, y, want), m, c2, p, keep, -1, ord, r, Exec(c2, ord, Pend(p), |c0|, r))
  {
    hide Built, Outcome, Joined, Uses;
    var o1 := Exec(c1, ord, Pend(p1), |c0|, r);
    if o1.End? || (o1.Jump? && o1.at in p1.j) {
      ConnectSecond(x, y, want, c1, p1, m, c2, p2, c0, j0, keep, ord, r);
    } else {
      ConnectFirst(x, y, want, c1, p1, m, c2, p2, c0, j0, keep, ord, r);
    }
  }

  lemma ConnectSecond(x: Expr, y: Expr, want: bool, c1: seq<Instr>, p1: Lists, m: Main, c2: seq<Instr>, p2: Lists,
                       c0: seq<Instr>, j0: seq<nat>, keep: nat, ord: Order, r: Regs)
    requires Built(x, Decided(!want), c1, p1, c0, j0, keep, -1) && |c0| < |c1|
    requires (if want then p1.f else p1.t) == []
    requires Built(y, m, c2, p2, c1, p1.j, keep, -1) && Uses(y, keep)
    requires var o1 := Exec(c1, ord, Pend(p1), |c0|, r); o1.End? || (o1.Jump? && o1.at in p1.j)
    ensures var p := Joined(p2, if want then p1.t else p1.f, want);
      Outcome(Connective(x, y, want), m, c2, p, keep, -1, ord, r, Exec(c2, ord, Pend(p), |c0|, r))
  {
    hide Built, NoDup, Kept, Sound, Entered, Uses, Keeps, JumpValue, Holds, Eval;
    var p := Joined(p2, if want then p1.t else p1.f, want);
    BuiltOutcome(x, Decided(!want), c1, p1, c0, j0, keep, -1, ord, r);
    var o1 := Exec(c1, ord, Pend(p1), |c0|, r);
    var r1, o2 := o1.regs, Exec(c2, ord, Pend(p2), |c1|, o1.regs);
    BuiltOutcome(y, m, c2, p2, c1, p1.j, keep, -1, ord, r1);
    JoinListed(c1, p1, c2, p2, want);
    Chain(c1, p1, c2, p2, Pend(p), ord, |c0|, r);
    EvalKept(y, r, r1, ord, keep);
    SecondDecides(x, y, want, r, r1, ord);
    Transfer(y, Connective(x, y, want), m, c2, p2, keep, ord, r, r1, o2);
    Unaffected(Connective(x, y, want), m, c2, p2, if want then p1.t else p1.f, want, keep, ord, r, o2);
    StillWaiting(Connective(x, y, want), m, c2, p, keep, ord, r, r1, o2, Exec(c2, ord, Pend(p), |c0|, r));
  }

  lemma ConnectFirst(x: Expr, y: Expr, want: bool, c1: seq<Instr>, p1: Lists, m: Main, c2: seq<Instr>, p2: Lists,
                       c0: seq<Instr>, j0: seq<nat>, keep: nat, ord: Order, r: Regs)
    requires Built(x, Decided(!want), c1, p1, c0, j0, keep, -1) && |c0| < |c1|
    requires (if want then p1.f else p1.t) == []
    requires Built(y, m, c2, p2, c1, p1.j, keep, -1) && Uses(y, keep)
    requires var o1 := Exec(c1, ord, Pend(p1), |c0|, r); !o1.End? && !(o1.Jump? && o1.at in p1.j)
    ensures var p := Joined(p2, if want then p1.t else p1.f, want);
      Outcome(Connective(x, y, want), m, c2, p, keep, -1, ord, r, Exec(c2, ord, Pend(p), |c0|, r))
  {
    hide Built, NoDup, Kept, Sound, Entered, Uses, Keeps, JumpValue, Holds, Eval;
    var p := Joined(p2, if want then p1.t else p1.f, want);
    BuiltOutcome(x, Decided(!want), c1, p1, c0, j0, keep, -1, ord, r);
    var o1 := Exec(c1, ord, Pend(p1), |c0|, r);
    BuiltOutcome(y, m, c2, p2, c1, p1.j, keep, -1, ord, o1.regs);
    JoinListed(c1, p1, c2, p2, want);
    Chain(c1, p1, c2, p2, Pend(p), ord, |c0|, r);
    FirstDecides(x, y, want, r, ord);
    SameJumpValue(c1, c2, o1.at, o1.regs, want);
    LeftFirst(Connective(x, y, want), m, c2, p2, if want then p1.t else p1.f, want, keep, ord, r, o1);
  }

  /** More jumps on a list do not matter to an execution that takes another one. */
  lemma Unaffected(z: Expr, m: Main, c: seq<Instr>, p2: Lists, l: seq<nat>, want: bool, keep: nat, ord: Order, r: Regs, out: Out)
    requires Outcome(z, m, c, p2, keep, -1, ord, r, out) && Listed(p2, c) && Listed(Joined(p2, l, want), c)
    requires Apart(l, p2.t) && Apart(l, p2.f)
    ensures Outcome(z, m, c, Joined(p2, l, want), keep, -1, ord, r, out)
  {
    hide Eval, Holds, JumpValue, Keeps, NoDup;
  }

  /** A waiting jump at the end of the code is as good as the end. */
  lemma StillWaiting(z: Expr, m: Main, c: seq<Instr>, p: Lists, keep: nat, ord: Order, r: Regs, r1: Regs, o2: Out, o: Out)
    requires Outcome(z, m, c, p, keep, -1, ord, r, o2) && Listed(p, c)
    requires o == o2 || (o.Jump? && o.at in p.j && o.regs == r1 && o2 == End(r1))
    ensures Outcome(z, m, c, p, keep, -1, ord, r, o)
  {
    hide Eval, Holds, JumpValue, Keeps, NoDup;
  }

  /** The first operand was enough. */
  lemma LeftFirst(z: Expr, m: Main, c: seq<Instr>, p2: Lists, l: seq<nat>, want: bool, keep: nat, ord: Order, r: Regs, out: Out)
    requires out.Jump? && out.at in l && Listed(Joined(p2, l, want), c) && Keeps(r, out.regs, keep, -1)
    requires IsFalse(Eval(z, r, ord)) != want && JumpValue(c, out.at, out.regs, want) == Eval(z, r, ord)
    ensures Outcome(z, m, c, Joined(p2, l, want), keep, -1, ord, r, out)
  {
    hide Eval, Holds, JumpValue, Keeps, NoDup;
    var p := Joined(p2, l, want);
    assert out.at in (if want then p.t else p.f);
  }

  lemma SecondDecides(x: Expr, y: Expr, want: bool, r: Regs, r1: Regs, ord: Order)
    requires Holds(Decided(!want), r1, ord, Eval(x, r, ord))
    ensures Eval(Connective(x, y, want), r, ord) == Eval(y, r, ord)
  {
  }

  lemma FirstDecides(x: Expr, y: Expr, want: bool, r: Regs, ord: Order)
    ensures IsFalse(Eval(x, r, ord)) != want ==> Eval(Connective(x, y, want), r, ord) == Eval(x, r, ord)
  {
  }

  lemma SameJumpValue(c1: seq<Instr>, c2: seq<Instr>, at: nat, r: Regs, b: bool)
    requires JumpValueKept(c1, c2, at)
    ensures JumpValue(c1, at, r, b) == JumpValue(c2, at, r, b)
  {
  }

  /** An outcome seen from an earlier state with the same kept registers. */
  lemma Transfer(y: Expr, z: Expr, m: Main, c: seq<Instr>, p: Lists, keep: nat, ord: Order, r: Regs, r1: Regs, out: Out)
    requires Outcome(y, m, c, p, keep, -1, ord, r1, out) && Keeps(r, r1, keep, -1)
    requires Eval(y, r1, ord) == Eval(z, r, ord)
    ensures Outcome(z, m, c, p, keep, -1, ord, r, out)
  {
    hide Eval, Holds, JumpValue;
  }

  // ------------------------------------------------------------- comparisons

  /** The comparison that an operator compiles to; > and >= exchange their operands. */
  function CompOf(op: RelOp, a: Reg, b: Reg): Main {
    match op
    case OpEq => Cond(EQ, true, a, b)
    case OpNe => Cond(EQ, false, a, b)
    case OpLt => Cond(LT, true, a, b)
    case OpLe => Cond(LE, true, a, b)
    case OpGt => Cond(LT, true, b, a)
    case OpGe => Cond(LE, true, b, a)
  }

  lemma Compare2(op: RelOp, x: Expr, y: Expr, a: Reg, c1: seq<Instr>, j1: seq<nat>, b: Reg, c2: seq<Instr>, j2: seq<nat>,
                 c0: seq<Instr>, j0: seq<nat>, keep: nat, keep2: nat)
    requires Built(x, InReg(a), c1, Lists([], [], j1), c0, j0, keep, -1)
    requires Built(y, InReg(b), c2, Lists([], [], j2), c1, j1, keep2, -1)
    requires keep <= keep2 && a < keep2 && Uses(y, keep)
    ensures Built(Rel(op, x, y), CompOf(op, a, b), c2, Lists([], [], j2), c0, j0, keep, -1)
  {
    var p1, p2 := Lists([], [], j1), Lists([], [], j2);
    ContinuesBuilt(c1, p1, c2, p2, c0, j0);
    forall ord: Order, r: Regs
      ensures Outcome(Rel(op, x, y), CompOf(op, a, b), c2, p2, keep, -1, ord, r, Exec(c2, ord, Pend(p2), |c0|, r))
    {
      CompareOutcome(op, x, y, a, c1, j1, b, c2, j2, c0, j0, keep, keep2, ord, r);
    }
  }

  lemma RelHolds(op: RelOp, x: Expr, y: Expr, a: Reg, b: Reg, r: Regs, r2: Regs, ord: Order)
    requires r2[a] == Eval(x, r, ord) && r2[b] == Eval(y, r, ord)
    ensures Holds(CompOf(op, a, b), r2, ord, Eval(Rel(op, x, y), r, ord))
  {
  }

  lemma CompareOutcome(op: RelOp, x: Expr, y: Expr, a: Reg, c1: seq<Instr>, j1: seq<nat>, b: Reg, c2: seq<Instr>, j2: seq<nat>,
                       c0: seq<Instr>, j0: seq<nat>, keep: nat, keep2: nat, ord: Order, r: Regs)
    requires Built(x, InReg(a), c1, Lists([], [], j1), c0, j0, keep, -1)
    requires Built(y, InReg(b), c2, Lists([], [], j2), c1, j1, keep2, -1)
    requires keep <= keep2 && a < keep2 && Uses(y, keep)
    ensures var p2 := Lists([], [], j2);
      Outcome(Rel(op, x, y), CompOf(op, a, b), c2, p2, keep, -1, ord, r, Exec(c2, ord, Pend(p2), |c0|, r))
  {
    hide Built, Listed, Kept, Sound, Entered, Uses, Eval, CompOf;
    var p1, p2 := Lists([], [], j1), Lists([], [], j2);
    BuiltOutcome(x, InReg(a), c1, p1, c0, j0, keep, -1, ord, r);
    var r1 := Exec(c1, ord, Pend(p1), |c0|, r).regs;
    BuiltOutcome(y, InReg(b), c2, p2, c1, j1, keep2, -1, ord, r1);
    Chain(c1, p1, c2, p2, Pend(p2), ord, |c0|, r);
    EvalKept(y, r, r1, ord, keep);
    var o2 := Exec(c2, ord, Pend(p2), |c1|, r1);
    if o2.End? || o2.Jump? {
      if o2.regs[a] == Eval(x, r, ord) && o2.regs[b] == Eval(y, r, ord) { RelHolds(op, x, y, a, b, r, o2.regs, ord); }
    }
  }
}
