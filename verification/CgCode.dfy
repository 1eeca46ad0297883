/** Jump lists threaded through the code, and the descriptors of expressions whose code is
    not complete. */
module CgCode {
  import opened Common
  import opened CgMachine
  import opened CgExpr
  import opened CgProof
  import opened CgSequence
  import opened CgFinish

  // -------------------------------------------------- expression descriptors

  /** `expdesc`: a local variable's register, any register, an instruction that lacks its
      destination (here an OP_NOT), or the jump behind a comparison. */
  datatype ExpKind = VLOCAL | VNONRELOC | VRELOCABLE | VJMP

  datatype ExpDesc = ExpDesc(k: ExpKind, info: nat, t: int, f: int)

  predicate HasJumps(e: ExpDesc) {
    e.t != e.f
  }

  /** The descriptor fits the end of the code; what is still open there has no jumps waiting. */
  predicate Shape(c: seq<Instr>, e: ExpDesc, j: seq<nat>) {
    match e.k
    case VJMP => j == [] && |c| >= 2 && e.info == |c| - 1 && c[|c| - 1] == Jmp(NO_JUMP) && c[|c| - 2].Comp?
    case VRELOCABLE => j == [] && |c| >= 1 && e.info == |c| - 1 && c[|c| - 1].Not?
    case _ => e.info < MAXSTACK
  }

  /** The code without the instructions that are still open. */
  function Base(c: seq<Instr>, e: ExpDesc, j: seq<nat>): seq<Instr>
    requires Shape(c, e, j)
  {
    match e.k
    case VJMP => c[..|c| - 2]
    case VRELOCABLE => c[..|c| - 1]
    case _ => c
  }

  function MainOf(c: seq<Instr>, e: ExpDesc, j: seq<nat>): Main
    requires Shape(c, e, j)
  {
    match e.k
    case VJMP => var i := c[|c| - 2]; Cond(i.op, i.cond, i.b, i.c)
    case VRELOCABLE => Negated(c[|c| - 1].b)
    case _ => InReg(e.info)
  }

  /** The expression being compiled, the code and waiting jumps it started with, and the
      registers in use. */
  datatype Goal = Goal(x: Expr, c0: seq<Instr>, j0: seq<nat>, keep: nat)

  ghost predicate Reached(g: Goal, m: Main, c: seq<Instr>, p: Lists, hole: int) {
    Built(g.x, m, c, p, g.c0, g.j0, g.keep, hole)
  }

  // ------------------------------------------------------ lists in the code

  /** `getjump`: the next jump of a list threaded through the code. */
  function GetJump(c: seq<Instr>, pc: nat): int
    requires pc < |c| && c[pc].Jmp?
  {
    if c[pc].sbx == NO_JUMP then NO_JUMP else pc + 1 + c[pc].sbx
  }

  /** Element `k` of the list, or NO_JUMP behind its end. */
  function Link(l: seq<nat>, k: nat): int {
    if k < |l| then l[k] else NO_JUMP
  }

  /** The code threads the jumps of `l`, in order, from `head`. */
  ghost predicate IsList(c: seq<Instr>, head: int, l: seq<nat>) {
    && head == Link(l, 0)
    && forall k :: 0 <= k < |l| ==> Threaded(c, l, k)
  }

  ghost predicate Threaded(c: seq<Instr>, l: seq<nat>, k: nat)
    requires k < |l|
  {
    l[k] < |c| && c[l[k]].Jmp? && GetJump(c, l[k]) == Link(l, k + 1)
  }

  lemma ListKept(c: seq<Instr>, c': seq<Instr>, head: int, l: seq<nat>)
    requires IsList(c, head, l)
    requires forall i :: i in l && i < |c| ==> i < |c'| && c'[i] == c[i]
    ensures IsList(c', head, l)
  {
    forall k | 0 <= k < |l| ensures Threaded(c', l, k) { assert Threaded(c, l, k) && l[k] in l; }
  }

  /** Two threaded lists become one by a link from the last jump of the first. */
  lemma ListJoined(c: seq<Instr>, a: seq<nat>, b: seq<nat>, ha: int, hb: int)
    requires IsList(c, ha, a) && IsList(c, hb, b) && a != [] && b != []
    requires NoDup(a) && Apart(a, b)
    ensures IsList(Linked(c, a, b), ha, a + b)
  {
    var c' := Linked(c, a, b);
    var l := a + b;
    var last := a[|a| - 1];
    assert last in a && b[0] in b;
    assert Threaded(c, a, |a| - 1) && Threaded(c, b, 0);
    forall k | 0 <= k < |l| ensures Threaded(c', l, k) {
      if k < |a| {
        assert Threaded(c, a, k);
      } else {
        assert Threaded(c, b, k - |a|) && b[k - |a|] in b;
        assert l[k] != last;
      }
    }
  }

  /** The code after `luaK_concat` of two lists. */
  function Linked(c: seq<Instr>, a: seq<nat>, b: seq<nat>): seq<Instr>
  {
    if a == [] || b == [] || a[|a| - 1] >= |c| then c else c[a[|a| - 1] := Jmp((b[0] as int) - (a[|a| - 1] + 1))]
  }

  lemma PatchedNone(c: seq<Instr>, vtarget: int, reg: Reg, dtarget: int)
    ensures Patched(c, [], vtarget, reg, dtarget) == c
    ensures Stripped(c, []) == c
  {
  }

  /** `patchtestreg` and `fixjump` on one jump. */
  function PatchStep(c: seq<Instr>, at: nat, vtarget: int, reg: Reg, dtarget: int): seq<Instr>
    requires at < |c|
  {
    var c2 := if Moves(c, at) then c[at - 1 := PatchTest(c[at - 1], reg)] else c;
    c2[at := Jmp((if Moves(c, at) then vtarget else dtarget) - (at + 1))]
  }

  /** Patching one more jump. */
  lemma PatchedNext(c: seq<Instr>, l: seq<nat>, k: nat, vtarget: int, reg: Reg, dtarget: int, c1: seq<Instr>)
    requires k < |l| && OnJumps(l, c) && c1 == Patched(c, l[..k], vtarget, reg, dtarget)
    ensures l[k] < |c| == |c1| && c1[l[k]] == c[l[k]] && Moves(c1, l[k]) == Moves(c, l[k])
    ensures Patched(c, l[..k + 1], vtarget, reg, dtarget) == PatchStep(c1, l[k], vtarget, reg, dtarget)
  {
    var at := l[k];
    assert l[..k + 1] == l[..k] + [at];
    assert at !in l[..k] && at in l;
    assert forall i :: i in l[..k] ==> i in l;
  }

  lemma StepDone(c: seq<Instr>, c': seq<Instr>, at: nat, vtarget: int, reg: Reg, dtarget: int)
    requires at < |c| && c[at].Jmp?
    requires Moves(c, at) ==> c' == c[at - 1 := PatchTest(c[at - 1], reg)][at := Jmp(vtarget - (at + 1))]
    requires !Moves(c, at) ==> c' == c[at := Jmp(dtarget - (at + 1))]
    ensures c' == PatchStep(c, at, vtarget, reg, dtarget)
  {
  }

  lemma StrippedNext(c: seq<Instr>, l: seq<nat>, k: nat)
    requires k < |l| && OnJumps(l, c)
    ensures var at := l[k]; var c1 := Stripped(c, l[..k]);
      && at < |c| && |c1| == |c| && c1[at] == c[at] && Moves(c1, at) == Moves(c, at)
      && Stripped(c, l[..k + 1]) == if Moves(c1, at) then c1[at - 1 := PatchTest(c1[at - 1], NO_REG)] else c1
  {
    var at := l[k];
    assert l[..k + 1] == l[..k] + [at];
    assert at !in l[..k] && at in l;
  }

  /** A list apart from the patched one stays. */
  lemma PatchedKeeps(c: seq<Instr>, l: seq<nat>, vtarget: int, reg: Reg, dtarget: int, head: int, l2: seq<nat>)
    requires OnJumps(l, c) && IsList(c, head, l2) && OnJumps(l2, c) && Apart(l2, l)
    ensures var c' := Patched(c, l, vtarget, reg, dtarget);
      IsList(c', head, l2) && OnJumps(l2, c') && (NeedsValue(c', l2) <==> NeedsValue(c, l2))
  {
    var c' := Patched(c, l, vtarget, reg, dtarget);
    ListKept(c, c', head, l2);
    assert forall i :: i in l2 ==> Moves(c', i) == Moves(c, i);
  }

  /** With the loads behind the code the three lists are still threaded and disjoint. */
  lemma ListsApart(m: Main, c: seq<Instr>, p: Lists, loads: seq<Instr>, reg: Reg, j: seq<nat>, ht: int, hf: int)
    requires Listed(p, c) && Completes(m, c, p, loads, reg, j) && IsList(c, ht, p.t) && IsList(c, hf, p.f)
    ensures var c1 := c + loads;
      && IsList(c1, ht, p.t) && IsList(c1, hf, p.f) && OnJumps(p.t, c1) && OnJumps(p.f, c1)
      && (NeedsValue(c1, p.t) <==> NeedsValue(c, p.t)) && (NeedsValue(c1, p.f) <==> NeedsValue(c, p.f))
    ensures Apart(p.t, p.f) && Apart(j, p.t) && Apart(j, p.f)
  {
    var c1 := c + loads;
    Appended(c, loads, ht, p.t);
    Appended(c, loads, hf, p.f);
    assert forall i :: i in p.t || i in p.f ==> Moves(c1, i) == Moves(c, i);
  }

  lemma IsCompleted(m: Main, c: seq<Instr>, p: Lists, loads: seq<Instr>, reg: Reg, j: seq<nat>, pf: int, pt: int)
    requires Listed(p, c) && Completes(m, c, p, loads, reg, j)
    requires if loads == [] then true else pf == |c + loads| - 2 && pt == |c + loads| - 1
    ensures var c1 := c + loads;
      Patched(Patched(c1, p.f, |c1|, reg, pf), p.t, |c1|, reg, pt) == Completed(c, p, loads, reg)
  {
    if loads == [] {
      var c1 := c + loads;
      assert c1 == c;
      assert Patched(c1, p.f, |c1|, reg, pf) == Patched(c1, p.f, |c1|, reg, |c1| - 2);
      var c2 := Patched(c1, p.f, |c1|, reg, pf);
      assert forall i :: i in p.t ==> Moves(c2, i) by {
        assert forall i :: i in p.t ==> Moves(c2, i) == Moves(c1, i);
      }
    }
  }

  lemma FinishReached(g: Goal, m: Main, c: seq<Instr>, p: Lists, loads: seq<Instr>, reg: Reg, j: seq<nat>, hole: int)
    requires Reached(g, m, c, p, hole) && (hole == -1 || hole == reg)
    requires Completes(m, c, p, loads, reg, j) && p.t + p.f != [] && reg != NO_REG
    ensures Reached(g, InReg(reg), Completed(c, p, loads, reg), Lists([], [], j), reg) && Sound(Completed(c, p, loads, reg))
  {
    hide Built, Completes, Completed;
    Finish(g.x, m, c, p, loads, reg, j, g.c0, g.j0, g.keep, hole);
    ListedReached(g, InReg(reg), Completed(c, p, loads, reg), Lists([], [], j), reg);
  }

  /** The list that a new jump heads. */
  lemma HeadNew(c: seq<Instr>, l: seq<nat>, at: nat, c': seq<Instr>)
    requires OnJumps(l, c) && at == |c| && c <= c' && |c'| == |c| + 1 && c'[at].Jmp?
    ensures OnJumps([at] + l, c')
  {
    var l' := [at] + l;
    forall i, k | 0 <= i < k < |l'| ensures l'[i] != l'[k] { assert l[k - 1] in l; }
  }

  lemma Nothing(c: seq<Instr>)
    ensures Discharged(c, []) == c && IsList(c, NO_JUMP, []) && OnJumps([], c)
  {
  }

  lemma LinkedNone(c: seq<Instr>, l: seq<nat>)
    ensures Linked(c, [], l) == c && Linked(c, l, []) == c
  {
  }

  lemma Appended(c: seq<Instr>, more: seq<Instr>, head: int, l: seq<nat>)
    requires IsList(c, head, l) && OnJumps(l, c)
    ensures IsList(c + more, head, l) && OnJumps(l, c + more)
  {
    ListKept(c, c + more, head, l);
  }

  lemma Settled(c: seq<Instr>, c': seq<Instr>, ht: int, t: seq<nat>, hf: int, f: seq<nat>, n: nat)
    requires IsList(c, ht, t) && IsList(c, hf, f) && n <= |c'|
    requires forall i :: i in t || i in f ==> i < n && i < |c| && c'[i] == c[i]
    ensures IsList(c', ht, t) && IsList(c', hf, f)
  {
    ListKept(c, c', ht, t);
    ListKept(c, c', hf, f);
  }

  lemma EmptyList(c: seq<Instr>)
    ensures IsList(c, NO_JUMP, []) && OnJumps([], c)
  {
  }

  lemma RelocDischarged(g: Goal, c: seq<Instr>, e: ExpDesc, t: seq<nat>, f: seq<nat>, reg: Reg)
    requires Shape(c, e, []) && e.k == VRELOCABLE && IsList(c, e.t, t) && IsList(c, e.f, f)
    requires Reached(g, MainOf(c, e, []), Base(c, e, []), Lists(t, f, []), -1)
    ensures var c' := c[e.info := Not(reg, c[e.info].b)];
      Sound(c') && IsList(c', e.t, t) && IsList(c', e.f, f) && Reached(g, InReg(reg), c', Lists(t, f, []), reg)
  {
    var b := c[e.info].b;
    var c' := c[e.info := Not(reg, b)];
    assert c' == Base(c, e, []) + [Not(reg, b)];
    Append(g.x, Negated(b), Base(c, e, []), Lists(t, f, []), Not(reg, b), g.c0, g.j0, g.keep);
    Settled(c, c', e.t, t, e.f, f, e.info);
  }

  lemma MoveDischarged(g: Goal, c: seq<Instr>, e: ExpDesc, j: seq<nat>, t: seq<nat>, f: seq<nat>, reg: Reg)
    requires e.info < MAXSTACK && IsList(c, e.t, t) && IsList(c, e.f, f)
    requires Reached(g, InReg(e.info), c, Lists(t, f, j), -1)
    ensures var c' := Discharged(c, j) + [Move(reg, e.info)];
      Sound(c') && IsList(c', e.t, t) && IsList(c', e.f, f) && Reached(g, InReg(reg), c', Lists(t, f, []), reg)
  {
    Settle(g.x, InReg(e.info), c, Lists(t, f, j), g.c0, g.j0, g.keep, -1);
    Append(g.x, InReg(e.info), Discharged(c, j), Lists(t, f, []), Move(reg, e.info), g.c0, g.j0, g.keep);
    ListsDischarged(c, e, j, t, f, [Move(reg, e.info)]);
  }

  /** Lists apart from the waiting jumps stay when those are discharged. */
  lemma ListsDischarged(c: seq<Instr>, e: ExpDesc, j: seq<nat>, t: seq<nat>, f: seq<nat>, more: seq<Instr>)
    requires IsList(c, e.t, t) && IsList(c, e.f, f) && Listed(Lists(t, f, j), c)
    ensures IsList(Discharged(c, j) + more, e.t, t) && IsList(Discharged(c, j) + more, e.f, f)
  {
    Settled(c, Discharged(c, j) + more, e.t, t, e.f, f, |c|);
  }

  lemma AnyHole(g: Goal, m: Main, c: seq<Instr>, p: Lists, hole: int)
    requires Reached(g, m, c, p, -1)
    ensures Reached(g, m, c, p, hole)
  {
    hide NoDup, Kept, Sound, Entered;
    forall ord: Order, r: Regs ensures Outcome(g.x, m, c, p, g.keep, hole, ord, r, Exec(c, ord, Pend(p), |g.c0|, r)) {
      assert Outcome(g.x, m, c, p, g.keep, -1, ord, r, Exec(c, ord, Pend(p), |g.c0|, r));
    }
  }

  // ------------------------------------------------------ steps on descriptors

  lemma ListedReached(g: Goal, m: Main, c: seq<Instr>, p: Lists, hole: int)
    requires Reached(g, m, c, p, hole)
    ensures Listed(p, c) && Apart(p.t, p.f) && Sound(c)
  {
    hide NoDup, Kept, Entered, Denotes;
  }

  /** Truth jumps exist exactly when the two heads differ. */
  lemma JumpsOf(c: seq<Instr>, e: ExpDesc, t: seq<nat>, f: seq<nat>)
    requires IsList(c, e.t, t) && IsList(c, e.f, f) && Apart(t, f)
    ensures HasJumps(e) <==> t + f != []
    ensures t == [] <==> e.t == NO_JUMP
    ensures f == [] <==> e.f == NO_JUMP
  {
    if t != [] && f != [] { assert t[0] in t && f[0] in f; }
  }

  /** A comparison's jump joins the true list. */
  lemma FallReg(g: Goal, c: seq<Instr>, e: ExpDesc, t: seq<nat>, f: seq<nat>)
    requires Shape(c, e, []) && e.k == VJMP && IsList(c, e.t, t) && IsList(c, e.f, f)
    requires Reached(g, MainOf(c, e, []), Base(c, e, []), Lists(t, f, []), -1)
    ensures var l := [e.info]; var c' := Linked(c, t, l);
      && IsList(c, e.info, l) && OnJumps(t, c) && OnJumps(l, c) && Apart(t, l)
      && Reached(g, Known(false), c', Lists(t + l, f, []), -1) && IsList(c', e.f, f) && NeedsValue(c', t + l)
  {
    var l, b, at := [e.info], Base(c, e, []), |c| - 1;
    var c' := Linked(c, t, l);
    assert c == b + [c[at - 1], Jmp(NO_JUMP)];
    assert Threaded(c, l, 0);
    Fall(g.x, c[at - 1], b, Lists(t, f, []), g.c0, g.j0, g.keep);
    if t != [] {
      assert t[|t| - 1] in t;
      Relink(g.x, Known(false), c, Lists(t + l, f, []), c', g.c0, g.j0, g.keep, -1);
    }
    ListKept(c, c', e.f, f);
    assert at in t + l && !Moves(c', at);
  }

  /** The tested value's jump has joined its list, behind which it is linked. */
  lemma GuardLinked(g: Goal, c: seq<Instr>, p: Lists, want: bool, at: nat, ht: int, hf: int)
    requires p.j == [] && Reached(g, Decided(!want), c, BranchLists(p, at, want), -1)
    requires |c| > |g.c0| && IsList(c, ht, p.t) && IsList(c, hf, p.f) && at < |c| && c[at] == Jmp(NO_JUMP)
    ensures var l := if want then p.t else p.f; var rest := if want then p.f else p.t; var c' := Linked(c, l, [at]);
      && IsList(c, at, [at]) && OnJumps(l, c) && OnJumps([at], c) && Apart(l, [at])
      && Reached(g, Decided(!want), c', BranchLists(p, at, want), -1)
      && IsList(c', if want then hf else ht, rest) && OnJumps(rest, c')
  {
    var l := if want then p.t else p.f;
    var rest := if want then p.f else p.t;
    var c' := Linked(c, l, [at]);
    assert Threaded(c, [at], 0);
    assert OnJumps(l + [at], c);
    forall i | i in l ensures i != at && i < |c| && c[i].Jmp? {
      var k :| 0 <= k < |l| && l[k] == i;
      assert (l + [at])[k] != (l + [at])[|l|];
      assert i in l + [at];
    }
    assert NoDup(l) by {
      forall i, k | 0 <= i < k < |l| ensures l[i] != l[k] { assert (l + [at])[i] != (l + [at])[k]; }
    }
    if l != [] {
      assert l[|l| - 1] in l + [at];
      Relink(g.x, Decided(!want), c, BranchLists(p, at, want), c', g.c0, g.j0, g.keep, -1);
    }
    ListKept(c, c', if want then hf else ht, rest);
  }

  lemma BranchReg(g: Goal, m: Main, b: seq<Instr>, t: seq<nat>, f: seq<nat>, test: Instr, want: bool)
    requires Reached(g, m, b, Lists(t, f, []), -1) && Decides(test, m, want)
    ensures Reached(g, Decided(!want), b + [test, Jmp(NO_JUMP)], BranchLists(Lists(t, f, []), |b| + 1, want), -1)
    ensures |b| >= |g.c0| && forall i :: i in t || i in f ==> i < |b|
  {
    Branch(g.x, m, b, Lists(t, f, []), test, want, g.c0, g.j0, g.keep);
  }

  /** The test of a comparison, inverted if the jump is wanted for false. */
  lemma GuardJump(g: Goal, c: seq<Instr>, e: ExpDesc, t: seq<nat>, f: seq<nat>, want: bool)
    requires Shape(c, e, []) && e.k == VJMP && IsList(c, e.t, t) && IsList(c, e.f, f)
    requires Reached(g, MainOf(c, e, []), Base(c, e, []), Lists(t, f, []), -1)
    ensures var i := c[|c| - 2]; var c' := if want then c else c[|c| - 2 := Comp(i.op, !i.cond, i.b, i.c)];
      && Reached(g, Decided(!want), c', BranchLists(Lists(t, f, []), |c| - 1, want), -1)
      && |c'| > |g.c0| && IsList(c', e.t, t) && IsList(c', e.f, f)
  {
    hide Reached, BranchLists, IsList;
    var i, b := c[|c| - 2], Base(c, e, []);
    var i' := if want then i else Comp(i.op, !i.cond, i.b, i.c);
    var c' := if want then c else c[|c| - 2 := i'];
    assert c' == b + [i', Jmp(NO_JUMP)];
    BranchReg(g, MainOf(c, e, []), b, t, f, i', want);
    Settled(c, c', e.t, t, e.f, f, |b|);
  }

  /** A TEST in place of the OP_NOT that would have computed the value. */
  lemma GuardNot(g: Goal, c: seq<Instr>, e: ExpDesc, t: seq<nat>, f: seq<nat>, want: bool)
    requires Shape(c, e, []) && e.k == VRELOCABLE && IsList(c, e.t, t) && IsList(c, e.f, f)
    requires Reached(g, MainOf(c, e, []), Base(c, e, []), Lists(t, f, []), -1)
    ensures var b := c[..|c| - 1]; var c' := b + [Test(c[|c| - 1].b, !want), Jmp(NO_JUMP)];
      && Reached(g, Decided(!want), c', BranchLists(Lists(t, f, []), |c|, want), -1)
      && |c'| > |g.c0| && IsList(c', e.t, t) && IsList(c', e.f, f)
  {
    hide Reached, BranchLists, IsList;
    var b := c[..|c| - 1];
    var i := Test(c[|c| - 1].b, !want);
    BranchReg(g, MainOf(c, e, []), b, t, f, i, want);
    Settled(c, b + [i, Jmp(NO_JUMP)], e.t, t, e.f, f, |b|);
  }

  /** A TESTSET on the register that holds the value. */
  lemma GuardReg(g: Goal, c: seq<Instr>, e: ExpDesc, j: seq<nat>, t: seq<nat>, f: seq<nat>, want: bool)
    requires e.k == VNONRELOC && e.info < MAXSTACK && IsList(c, e.t, t) && IsList(c, e.f, f)
    requires Reached(g, InReg(e.info), c, Lists(t, f, j), -1)
    ensures var c' := Discharged(c, j) + [TestSet(NO_REG, e.info, want), Jmp(NO_JUMP)];
      && Reached(g, Decided(!want), c', BranchLists(Lists(t, f, []), |c| + 1, want), -1)
      && |c'| > |g.c0| && IsList(c', e.t, t) && IsList(c', e.f, f)
  {
    hide BranchLists, IsList, Discharged, Built;
    ListedReached(g, InReg(e.info), c, Lists(t, f, j), -1);
    Settle(g.x, InReg(e.info), c, Lists(t, f, j), g.c0, g.j0, g.keep, -1);
    BranchReg(g, InReg(e.info), Discharged(c, j), t, f, TestSet(NO_REG, e.info, want), want);
    ListsDischarged(c, e, j, t, f, [TestSet(NO_REG, e.info, want), Jmp(NO_JUMP)]);
  }

  // --------------------------------------------------------------- negation

  /** The expression's code up to the open instructions `tail`, negated. */
  lemma NotSteps(g: Goal, m: Main, m2: Main, b: seq<Instr>, tail: seq<Instr>, t: seq<nat>, f: seq<nat>, ht: int, hf: int)
    requires Reached(g, m, b, Lists(t, f, []), -1) && Opposite(m, m2)
    requires IsList(b + tail, ht, t) && IsList(b + tail, hf, f) && forall i :: 0 <= i < |tail| ==> !tail[i].TestSet?
    ensures var c1 := Stripped(b + tail, t); var c2 := Stripped(c1, f);
      && IsList(b + tail, ht, t) && OnJumps(t, b + tail) && IsList(c1, hf, f) && OnJumps(f, c1)
      && IsList(c2, ht, t) && IsList(c2, hf, f) && c2 == Stripped(b, t + f) + tail
      && Reached(g.(x := Neg(g.x)), m2, Stripped(b, t + f), Lists(f, t, []), -1)
  {
    var c := b + tail;
    var c1 := Stripped(c, t);
    var c2 := Stripped(c1, f);
    assert Listed(Lists(t, f, []), b);
    Invert(g.x, m, m2, b, Lists(t, f, []), g.c0, g.j0, g.keep);
    assert forall i :: i in t || i in f ==> i < |b| && c[i].Jmp? && c1[i] == c[i] && c2[i] == c[i];
    ListKept(c, c1, hf, f);
    ListKept(c, c2, ht, t);
    ListKept(c, c2, hf, f);
    assert c2 == Stripped(b, t + f) + tail by {
      forall i | 0 <= i < |c| ensures c2[i] == (Stripped(b, t + f) + tail)[i] {
      }
    }
  }

  /** A register above those to be kept may have been written. */
  lemma FreeHole(g: Goal, m: Main, c: seq<Instr>, p: Lists, hole: int)
    requires Reached(g, m, c, p, hole) && hole >= g.keep
    ensures Reached(g, m, c, p, -1)
  {
    Scratch(g.x, m, c, p, g.c0, g.j0, g.keep, hole);
  }

  lemma NoLists(g: Goal, c: seq<Instr>, e: ExpDesc, p: Lists)
    requires e.info < REGISTERS && Reached(g, InReg(e.info), c, p, -1) && IsList(c, e.t, p.t) && IsList(c, e.f, p.f) && !HasJumps(e)
    ensures p.t == [] && p.f == []
  {
    JumpsOf(c, e, p.t, p.f);
  }

  lemma NoneWaiting(c: seq<Instr>, head: int, j: seq<nat>)
    requires IsList(c, head, j)
    ensures j == [] <==> head == NO_JUMP
  {
  }

  /** The lists' values are removed, first those of `t`. */
  ghost predicate NotDone(g: Goal, c: seq<Instr>, e: ExpDesc, t: seq<nat>, f: seq<nat>) {
    var c1 := Stripped(c, t);
    var c2 := Stripped(c1, f);
    && IsList(c, e.t, t) && OnJumps(t, c) && IsList(c1, e.f, f) && OnJumps(f, c1)
    && Sound(c2) && Shape(c2, e, []) && IsList(c2, e.t, t) && IsList(c2, e.f, f)
    && Reached(g.(x := Neg(g.x)), MainOf(c2, e, []), Base(c2, e, []), Lists(f, t, []), -1)
  }

  lemma NotJump(g: Goal, c: seq<Instr>, e: ExpDesc, t: seq<nat>, f: seq<nat>)
    requires Shape(c, e, []) && e.k == VJMP && IsList(c, e.t, t) && IsList(c, e.f, f)
    requires Reached(g, MainOf(c, e, []), Base(c, e, []), Lists(t, f, []), -1)
    ensures var i := c[|c| - 2]; NotDone(g, c[|c| - 2 := Comp(i.op, !i.cond, i.b, i.c)], e, t, f)
  {
    var i, b := c[|c| - 2], Base(c, e, []);
    var tail := [Comp(i.op, !i.cond, i.b, i.c), Jmp(NO_JUMP)];
    var c0 := c[|c| - 2 := Comp(i.op, !i.cond, i.b, i.c)];
    assert c0 == b + tail;
    ListedReached(g, MainOf(c, e, []), b, Lists(t, f, []), -1);
    Settled(c, c0, e.t, t, e.f, f, |b|);
    NotSteps(g, MainOf(c, e, []), Cond(i.op, !i.cond, i.b, i.c), b, tail, t, f, e.t, e.f);
    NotTail(g.(x := Neg(g.x)), Cond(i.op, !i.cond, i.b, i.c), Stripped(b, t + f), tail, Lists(f, t, []));
    assert Base(Stripped(b, t + f) + tail, e, []) == Stripped(b, t + f);
  }

  lemma NotReg(g: Goal, c: seq<Instr>, e: ExpDesc, j: seq<nat>, t: seq<nat>, f: seq<nat>)
    requires e.k == VNONRELOC && e.info < MAXSTACK && IsList(c, e.t, t) && IsList(c, e.f, f)
    requires Reached(g, InReg(e.info), c, Lists(t, f, j), -1)
    ensures NotDone(g, Discharged(c, j) + [Not(0, e.info)], ExpDesc(VRELOCABLE, |c|, e.t, e.f), t, f)
  {
    hide Built, IsList, OnJumps, Sound, Listed, Discharged, Stripped;
    var b, tail := Discharged(c, j), [Not(0, e.info)];
    ListedReached(g, InReg(e.info), c, Lists(t, f, j), -1);
    Settle(g.x, InReg(e.info), c, Lists(t, f, j), g.c0, g.j0, g.keep, -1);
    ListsDischarged(c, e, j, t, f, tail);
    NotSteps(g, InReg(e.info), Negated(e.info), b, tail, t, f, e.t, e.f);
    NotTail(g.(x := Neg(g.x)), Negated(e.info), Stripped(b, t + f), tail, Lists(f, t, []));
    var c2 := Stripped(b, t + f) + tail;
    assert Base(c2, ExpDesc(VRELOCABLE, |c|, e.t, e.f), []) == Stripped(b, t + f);
  }

  lemma NotTail(g: Goal, m: Main, b: seq<Instr>, tail: seq<Instr>, p: Lists)
    requires Reached(g, m, b, p, -1)
    requires forall i :: 0 <= i < |tail| && IsTest(tail[i]) ==> i + 1 < |tail| && tail[i + 1].Jmp?
    ensures Sound(b + tail)
  {
    var c := b + tail;
    forall i | 0 <= i < |c| && IsTest(c[i]) ensures i + 1 < |c| && c[i + 1].Jmp? {
      if i >= |b| { assert IsTest(tail[i - |b|]); }
    }
  }

  // ------------------------------------------------------------- binary operators

  /** A list that waits for neither operand's end stays while the second is compiled. */
  lemma OuterKept(g: Goal, m: Main, c: seq<Instr>, p: Lists, tail: seq<Instr>, head: int, l: seq<nat>)
    requires Reached(g, m, c, p, -1) && IsList(g.c0, head, l) && OnJumps(l, g.c0) && Apart(l, g.j0)
    ensures IsList(c + tail, head, l) && OnJumps(l, c + tail)
  {
    forall i | i in l ensures c[i] == g.c0[i] { assert g.c0[i] == g.c0[i]; }
    ListKept(g.c0, c + tail, head, l);
  }

  /** A link at the end of list `a` leaves lists apart from it alone. */
  lemma LinkedKeeps(c: seq<Instr>, a: seq<nat>, b: seq<nat>, head: int, l: seq<nat>)
    requires Apart(l, a) && OnJumps(l, c)
    ensures IsList(c, head, l) ==> IsList(Linked(c, a, b), head, l)
    ensures OnJumps(l, Linked(c, a, b))
  {
    if a != [] { assert a[|a| - 1] in a; }
    if IsList(c, head, l) { ListKept(c, Linked(c, a, b), head, l); }
  }

  /** The lists of both operands of a connective: list `l`, which leaves the first operand,
      is to be linked behind the second operand's list of the same kind. */
  ghost predicate Linkable(c: seq<Instr>, p: Lists, want: bool, hl: int, l: seq<nat>) {
    var l2 := if want then p.t else p.f;
    IsList(c, hl, l) && OnJumps(l, c) && OnJumps(l2, c) && Apart(l2, l)
  }

  lemma ConnectLists(g: Goal, m: Main, y: Expr, want: bool, c1: seq<Instr>, j1: seq<nat>, l: seq<nat>, hl: int,
                     c: seq<Instr>, b: seq<Instr>, p: Lists)
    requires Reached(g, Decided(!want), c1, if want then Lists(l, [], j1) else Lists([], l, j1), -1) && IsList(c1, hl, l)
    requires Reached(Goal(y, c1, j1, g.keep), m, b, p, -1) && b <= c
    ensures Linkable(c, p, want, hl, l)
  {
    var l2 := if want then p.t else p.f;
    var tail := c[|b|..];
    assert c == b + tail;
    OuterKept(Goal(y, c1, j1, g.keep), m, b, p, tail, hl, l);
    JoinListed(c1, if want then Lists(l, [], j1) else Lists([], l, j1), b, p, want);
    forall i | i in l2 ensures i !in l && i < |c| && c[i].Jmp? {
      assert i in Pend(p);
      assert b[i] == c[i];
    }
  }

  lemma ConnectMeaning(g: Goal, m: Main, y: Expr, want: bool, c1: seq<Instr>, j1: seq<nat>, l: seq<nat>, b: seq<Instr>, p: Lists)
    requires Reached(g, Decided(!want), c1, if want then Lists(l, [], j1) else Lists([], l, j1), -1) && |c1| > |g.c0|
    requires Reached(Goal(y, c1, j1, g.keep), m, b, p, -1) && Uses(y, g.keep)
    ensures Reached(g.(x := Connective(g.x, y, want)), m, Linked(b, if want then p.t else p.f, l), Joined(p, l, want), -1)
  {
    var l2 := if want then p.t else p.f;
    var g' := g.(x := Connective(g.x, y, want));
    Connect(g.x, y, want, c1, if want then Lists(l, [], j1) else Lists([], l, j1), m, b, p, g.c0, g.j0, g.keep);
    assert |b| > |g.c0|;
    hide Connective, NoDup, Kept, Sound, Entered, Denotes;
    if l2 != [] && l != [] {
      assert l2[|l2| - 1] in l2 && l2[|l2| - 1] in l2 + l;
      Relink(g'.x, m, b, Joined(p, l, want), Linked(b, l2, l), g.c0, g.j0, g.keep, -1);
    }
  }

  /** The code of a connective, its second operand's list linked with `l`. */
  lemma ConnectReg(g: Goal, y: Expr, want: bool, c1: seq<Instr>, j1: seq<nat>, l: seq<nat>, hl: int,
                   c: seq<Instr>, e: ExpDesc, p: Lists)
    requires Reached(g, Decided(!want), c1, if want then Lists(l, [], j1) else Lists([], l, j1), -1)
    requires |c1| > |g.c0| && IsList(c1, hl, l) && Uses(y, g.keep)
    requires Shape(c, e, p.j) && Reached(Goal(y, c1, j1, g.keep), MainOf(c, e, p.j), Base(c, e, p.j), p, -1) && Sound(c)
    ensures Linkable(c, p, want, hl, l)
    ensures var c' := Linked(c, if want then p.t else p.f, l);
      && Sound(c') && Shape(c', e, p.j)
      && Reached(g.(x := Connective(g.x, y, want)), MainOf(c', e, p.j), Base(c', e, p.j), Joined(p, l, want), -1)
  {
    var m, b, l2 := MainOf(c, e, p.j), Base(c, e, p.j), if want then p.t else p.f;
    var c' := Linked(c, l2, l);
    ConnectLists(g, m, y, want, c1, j1, l, hl, c, b, p);
    ConnectMeaning(g, m, y, want, c1, j1, l, b, p);
    ListedReached(Goal(y, c1, j1, g.keep), m, b, p, -1);
    hide Reached, Linkable, IsList, Shape, Base, MainOf, Linked;
    LinkedShape(c, e, p.j, l2, l);
    LinkedSound(c, l2, l);
  }

  /** The same for every list that stays. */
  lemma Connected(g: Goal, g2: Goal, want: bool, l: seq<nat>, hl: int, c: seq<Instr>, e: ExpDesc,
                  t: seq<nat>, f: seq<nat>, j: seq<nat>, jpc: int)
    requires Reached(g, Decided(!want), g2.c0, if want then Lists(l, [], g2.j0) else Lists([], l, g2.j0), -1)
    requires g2.keep == g.keep && |g2.c0| > |g.c0| && IsList(g2.c0, hl, l) && Uses(g2.x, g.keep)
    requires Shape(c, e, j) && Reached(g2, MainOf(c, e, j), Base(c, e, j), Lists(t, f, j), -1) && Sound(c)
    requires IsList(c, e.t, t) && IsList(c, e.f, f) && IsList(c, jpc, j) && OnJumps(j, c)
    ensures Linkable(c, Lists(t, f, j), want, hl, l)
    ensures var c' := Linked(c, if want then t else f, l);
      && Sound(c') && Shape(c', e, j) && IsList(c', jpc, j) && OnJumps(j, c')
      && IsList(c', if want then e.f else e.t, if want then f else t)
      && Reached(g.(x := Connective(g.x, g2.x, want)), MainOf(c', e, j), Base(c', e, j), Joined(Lists(t, f, j), l, want), -1)
    ensures Apart(if want then t + l else t, if want then f else f + l)
  {
    var p, b := Lists(t, f, j), Base(c, e, j);
    ConnectReg(g, g2.x, want, g2.c0, g2.j0, l, hl, c, e, p);
    ListedReached(g2, MainOf(c, e, j), b, p, -1);
    assert OnJumps(if want then f else t, c);
    LinkedKeeps(c, if want then t else f, l, jpc, j);
    LinkedKeeps(c, if want then t else f, l, if want then e.f else e.t, if want then f else t);
    ListsJoined(g, g2, want, l, c, e, p);
  }

  lemma ListsJoined(g: Goal, g2: Goal, want: bool, l: seq<nat>, c: seq<Instr>, e: ExpDesc, p: Lists)
    requires var c' := Linked(c, if want then p.t else p.f, l);
      Shape(c', e, p.j) && Reached(g.(x := Connective(g.x, g2.x, want)), MainOf(c', e, p.j), Base(c', e, p.j), Joined(p, l, want), -1)
    ensures Apart(if want then p.t + l else p.t, if want then p.f else p.f + l)
  {
    var c' := Linked(c, if want then p.t else p.f, l);
    ListedReached(g.(x := Connective(g.x, g2.x, want)), MainOf(c', e, p.j), Base(c', e, p.j), Joined(p, l, want), -1);
  }

  lemma LinkedShape(c: seq<Instr>, e: ExpDesc, j: seq<nat>, l2: seq<nat>, l: seq<nat>)
    requires Shape(c, e, j) && OnJumps(l2, Base(c, e, j))
    ensures var c' := Linked(c, l2, l);
      Shape(c', e, j) && MainOf(c', e, j) == MainOf(c, e, j) && Base(c', e, j) == Linked(Base(c, e, j), l2, l)
    ensures l2 != [] ==> l2[|l2| - 1] < |c| && c[l2[|l2| - 1]].Jmp?
  {
    if l2 != [] { assert l2[|l2| - 1] in l2; }
  }

  lemma LinkedSound(c: seq<Instr>, a: seq<nat>, b: seq<nat>)
    requires Sound(c) && (a != [] ==> a[|a| - 1] < |c| && c[a[|a| - 1]].Jmp?)
    ensures Sound(Linked(c, a, b))
  {
    var c' := Linked(c, a, b);
    forall i | 0 <= i < |c'| && IsTest(c'[i]) ensures i + 1 < |c'| && c'[i + 1].Jmp? {
      assert IsTest(c[i]) && c[i + 1].Jmp?;
    }
  }

  /** A comparison of two registers behind the code of both operands. */
  lemma CompareReg(op: RelOp, g: Goal, a: Reg, c1: seq<Instr>, j1: seq<nat>, y: Expr, keep2: nat, b: Reg, c: seq<Instr>, j: seq<nat>, test: Instr)
    requires Reached(g, InReg(a), c1, Lists([], [], j1), -1)
    requires Reached(Goal(y, c1, j1, keep2), InReg(b), c, Lists([], [], j), -1)
    requires g.keep <= keep2 && a < keep2 && Uses(y, g.keep)
    requires test.Comp? && CompOf(op, a, b) == Cond(test.op, test.cond, test.b, test.c)
    ensures var c' := Discharged(c, j) + [test, Jmp(NO_JUMP)]; var e := ExpDesc(VJMP, |c'| - 1, NO_JUMP, NO_JUMP);
      && Sound(c') && Shape(c', e, []) && IsList(c', NO_JUMP, [])
      && Reached(g.(x := Rel(op, g.x, y)), MainOf(c', e, []), Base(c', e, []), Lists([], [], []), -1)
  {
    var c' := Discharged(c, j) + [test, Jmp(NO_JUMP)];
    var e := ExpDesc(VJMP, |c'| - 1, NO_JUMP, NO_JUMP);
    Compare2(op, g.x, y, a, c1, j1, b, c, j, g.c0, g.j0, g.keep, keep2);
    Settle(Rel(op, g.x, y), CompOf(op, a, b), c, Lists([], [], j), g.c0, g.j0, g.keep, -1);
    NotTail(g.(x := Rel(op, g.x, y)), CompOf(op, a, b), Discharged(c, j), [test, Jmp(NO_JUMP)], Lists([], [], []));
    assert Base(c', e, []) == Discharged(c, j);
  }

  lemma NeedsNone(c: seq<Instr>, l: seq<nat>)
    ensures NeedsValue(c, l) ==> l != []
  {
  }

  lemma Started(i: Reg, c: seq<Instr>, j: seq<nat>, keep: nat)
    requires Sound(c) && OnJumps(j, c)
    ensures Reached(Goal(Var(i), c, j, keep), InReg(i), c, Lists([], [], j), -1)
  {
    StartBuilt(i, c, j, keep);
  }

  lemma InParens(g: Goal, y: Expr, m: Main, c: seq<Instr>, p: Lists)
    requires Reached(g.(x := y), m, c, p, -1)
    ensures Reached(g.(x := Paren(y)), m, c, p, -1)
  {
    hide NoDup, Kept, Sound, Entered;
    forall ord: Order, r: Regs ensures Outcome(Paren(y), m, c, p, g.keep, -1, ord, r, Exec(c, ord, Pend(p), |g.c0|, r)) {
      assert Outcome(y, m, c, p, g.keep, -1, ord, r, Exec(c, ord, Pend(p), |g.c0|, r));
    }
  }

  lemma InPlace(g: Goal, c: seq<Instr>, e: ExpDesc, p: Lists)
    requires e.k == VNONRELOC && Shape(c, e, p.j) && Reached(g, MainOf(c, e, p.j), Base(c, e, p.j), p, -1)
    ensures e.info < MAXSTACK && Reached(g, InReg(e.info), c, p, -1)
  {
  }
}
