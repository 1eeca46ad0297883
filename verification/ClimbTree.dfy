/** Operators, their priorities, and the trees that respect them. */
module ClimbTree {
  datatype UnOp = Not | Minus | Len

  datatype BinOp = Add | Sub | Mul | Div | Mod | Pow | Concat | Ne | Eq | Lt | Le | Gt | Ge | And | Or

  /** An operand token stands for a whole simple expression. The minus sign is `TkOp(Sub)`. */
  datatype Token = TkOperand(id: nat) | TkOpen | TkClose | TkNot | TkLen | TkOp(op: BinOp) | TkOther(id: nat)

  datatype Expr = Leaf(id: nat) | Paren(e: Expr) | Unary(uop: UnOp, e: Expr) | Binary(op: BinOp, l: Expr, r: Expr)

  function UnToken(op: UnOp): Token {
    match op
    case Not => TkNot
    case Minus => TkOp(Sub)
    case Len => TkLen
  }

  function Left(op: BinOp): (p: nat)
    ensures 0 < p < UNARY_PRIORITY || p == 10
  {
    match op
    case Add | Sub => 6
    case Mul | Div | Mod => 7
    case Pow => 10
    case Concat => 5
    case Ne | Eq | Lt | Le | Gt | Ge => 3
    case And => 2
    case Or => 1
  }

  /** Only `^` and `..`, which are right associative, have a lower right priority. */
  function Right(op: BinOp): (p: nat)
    ensures p <= Left(op) <= p + 1 && p <= 9
  {
    match op
    case Pow => 9
    case Concat => 4
    case _ => Left(op)
  }

  const UNARY_PRIORITY: nat := 8

  function Flatten(e: Expr): (ts: seq<Token>)
    ensures ts != []
  {
    match e
    case Leaf(id) => [TkOperand(id)]
    case Paren(e) => [TkOpen] + Flatten(e) + [TkClose]
    case Unary(op, e) => [UnToken(op)] + Flatten(e)
    case Binary(op, l, r) => Flatten(l) + [TkOp(op)] + Flatten(r)
  }

  // ------------------------------------------------------------------ priorities

  /** Every operator whose left operand starts the expression binds it tighter than `limit`. */
  predicate Above(e: Expr, limit: nat) {
    e.Binary? ==> Left(e.op) > limit && Above(e.l, limit)
  }

  /** Every operator whose operand ends the expression keeps that operand from an operator of
      left priority `p` behind it. */
  predicate Holds(e: Expr, p: nat) {
    match e
    case Binary(op, _, r) => Right(op) >= p && Holds(r, p)
    case Unary(_, e) => UNARY_PRIORITY >= p && Holds(e, p)
    case _ => true
  }

  /** The tree respects the priorities at every node. */
  predicate Ordered(e: Expr) {
    match e
    case Leaf(_) => true
    case Paren(e) => Ordered(e)
    case Unary(_, e) => Ordered(e) && Above(e, UNARY_PRIORITY)
    case Binary(op, l, r) => Ordered(l) && Ordered(r) && Holds(l, Left(op)) && Above(r, Right(op))
  }

  /** How many levels the parser nests to build the tree. */
  function Depth(e: Expr): nat {
    match e
    case Leaf(_) => 0
    case Paren(e) => 1 + Depth(e)
    case Unary(_, e) => 1 + Depth(e)
    case Binary(_, l, r) => if Depth(l) > Depth(r) then Depth(l) else 1 + Depth(r)
  }

  lemma {:induction false} AboveZero(e: Expr)
    ensures Above(e, 0)
  {
    if e.Binary? { AboveZero(e.l); }
  }

  /** Along the right edge of an ordered tree the priorities do not decrease. */
  lemma {:induction false} HoldsAll(e: Expr, op: BinOp)
    requires Ordered(e) && (e.Binary? ==> Right(e.op) >= Left(op)) && (e.Unary? ==> UNARY_PRIORITY >= Left(op))
    ensures Holds(e, Left(op))
  {
    hide Left, Right, Flatten;
    match e {
      case Binary(_, _, r) => HoldsAll(r, op);
      case Unary(_, e1) => HoldsAll(e1, op);
      case _ =>
    }
  }

  // ------------------------------------------------------------------ regrouping

  /** An ordered tree for the text of `t`, then `op`, then that of `u`, which starts with no
      binary operator's operand. */
  function Append(t: Expr, op: BinOp, u: Expr): Expr {
    match t
    case Binary(o, l, r) => if Right(o) < Left(op) then Binary(o, l, Append(r, op, u)) else Binary(op, t, u)
    case Unary(o, e) => if UNARY_PRIORITY < Left(op) then Unary(o, Append(e, op, u)) else Binary(op, t, u)
    case _ => Binary(op, t, u)
  }

  lemma {:induction false} AppendOrdered(t: Expr, op: BinOp, u: Expr, limit: nat)
    requires Ordered(t) && Ordered(u) && !u.Binary?
    ensures Ordered(Append(t, op, u))
    ensures Above(t, limit) && Left(op) > limit ==> Above(Append(t, op, u), limit)
  {
    hide Left, Right, Flatten, Holds;
    match t {
      case Binary(o, l, r) => if Right(o) < Left(op) { AppendOrdered(r, op, u, Right(o)); } else { HoldsAll(t, op); }
      case Unary(o, e) => if UNARY_PRIORITY < Left(op) { AppendOrdered(e, op, u, UNARY_PRIORITY); } else { HoldsAll(t, op); }
      case _ => HoldsAll(t, op);
    }
  }

  lemma {:induction false} AppendText(t: Expr, op: BinOp, u: Expr)
    ensures Flatten(Append(t, op, u)) == Flatten(t) + [TkOp(op)] + Flatten(u)
  {
    hide Left, Right, Flatten;
    BinaryText(op, t, u);
    match t {
      case Binary(o, l, r) =>
        if Right(o) < Left(op) {
          AppendText(r, op, u);
          BinaryText(o, l, r);
          BinaryText(o, l, Append(r, op, u));
          Join3(Flatten(l) + [TkOp(o)], Flatten(r), [TkOp(op)], Flatten(u));
        }
      case Unary(o, e) =>
        if UNARY_PRIORITY < Left(op) {
          AppendText(e, op, u);
          UnaryText(o, e);
          UnaryText(o, Append(e, op, u));
          Join3([UnToken(o)], Flatten(e), [TkOp(op)], Flatten(u));
        }
      case _ =>
    }
  }

  lemma BinaryText(op: BinOp, l: Expr, r: Expr)
    ensures Flatten(Binary(op, l, r)) == Flatten(l) + [TkOp(op)] + Flatten(r)
  {
  }

  lemma UnaryText(op: UnOp, e: Expr)
    ensures Flatten(Unary(op, e)) == [UnToken(op)] + Flatten(e)
  {
  }

  lemma Join3(a: seq<Token>, b: seq<Token>, c: seq<Token>, d: seq<Token>)
    ensures a + (b + c + d) == (a + b) + c + d
    ensures a + b + (c + d) == a + (b + c) + d
  {
  }

  /** Prefix operators in front of something. */
  function Prefixed(us: seq<UnOp>, e: Expr): Expr {
    if us == [] then e else Unary(us[0], Prefixed(us[1..], e))
  }

  function UnTokens(us: seq<UnOp>): seq<Token> {
    if us == [] then [] else [UnToken(us[0])] + UnTokens(us[1..])
  }

  lemma {:induction false} PrefixedOrdered(us: seq<UnOp>, e: Expr)
    requires Ordered(e) && !e.Binary?
    ensures var p := Prefixed(us, e); Ordered(p) && !p.Binary? && Flatten(p) == UnTokens(us) + Flatten(e)
  {
    if us != [] { PrefixedOrdered(us[1..], e); }
  }

  lemma {:induction false} UnTokensSnoc(us: seq<UnOp>, o: UnOp)
    ensures UnTokens(us + [o]) == UnTokens(us) + [UnToken(o)]
  {
    if us == [] {
      assert [o][1..] == [];
    } else {
      UnTokensSnoc(us[1..], o);
      assert (us + [o])[1..] == us[1..] + [o];
    }
  }

  /** The text of `e` behind the prefix operators `us`, regrouped. */
  function Regroup(us: seq<UnOp>, e: Expr): Expr
    decreases e, 0
  {
    match e
    case Leaf(_) => Prefixed(us, e)
    case Paren(e1) => Prefixed(us, Paren(Regroup([], e1)))
    case Unary(o, e1) => Regroup(us + [o], e1)
    case Binary(op, l, r) => Extend(Regroup(us, l), op, [], r)
  }

  /** Behind the tree `t` comes `op`, and then the text of `e` behind the prefix operators `us`. */
  function Extend(t: Expr, op: BinOp, us: seq<UnOp>, e: Expr): Expr
    decreases e, 1
  {
    match e
    case Leaf(_) => Append(t, op, Prefixed(us, e))
    case Paren(e1) => Append(t, op, Prefixed(us, Paren(Regroup([], e1))))
    case Unary(o, e1) => Extend(t, op, us + [o], e1)
    case Binary(o, l, r) => Extend(Extend(t, op, us, l), o, [], r)
  }

  lemma {:induction false} RegroupOrdered(us: seq<UnOp>, e: Expr)
    ensures Ordered(Regroup(us, e)) && Flatten(Regroup(us, e)) == UnTokens(us) + Flatten(e)
    decreases e, 0
  {
    hide Ordered, Prefixed, Append, UnTokens;
    match e {
      case Leaf(_) => PrefixedOrdered(us, e);
      case Paren(e1) => ParenOrdered(us, e1);
      case Unary(o, e1) =>
        RegroupOrdered(us + [o], e1);
        UnTokensSnoc(us, o);
      case Binary(op, l, r) =>
        RegroupOrdered(us, l);
        ExtendOrdered(Regroup(us, l), op, [], r);
        NoUnTokens();
        assert UnTokens(us) + Flatten(l) + [TkOp(op)] + [] + Flatten(r) == UnTokens(us) + Flatten(e);
    }
  }

  lemma NoUnTokens()
    ensures UnTokens([]) == []
  {
  }

  lemma {:induction false} ParenOrdered(us: seq<UnOp>, e: Expr)
    ensures var p := Prefixed(us, Paren(Regroup([], e)));
      Ordered(p) && !p.Binary? && Flatten(p) == UnTokens(us) + Flatten(Paren(e))
    decreases e, 2
  {
    hide Prefixed, Append, UnTokens, Regroup;
    RegroupOrdered([], e);
    PrefixedOrdered(us, Paren(Regroup([], e)));
    NoUnTokens();
    assert [] + Flatten(e) == Flatten(e);
  }

  lemma {:induction false} ExtendOrdered(t: Expr, op: BinOp, us: seq<UnOp>, e: Expr)
    requires Ordered(t)
    ensures var x := Extend(t, op, us, e); Ordered(x) && Flatten(x) == Flatten(t) + [TkOp(op)] + UnTokens(us) + Flatten(e)
    decreases e, 1
  {
    hide Ordered, Prefixed, Append, UnTokens, Regroup;
    match e {
      case Leaf(_) =>
        PrefixedOrdered(us, e);
        AppendBoth(t, op, Prefixed(us, e), UnTokens(us), Flatten(e));
      case Paren(e1) =>
        ParenOrdered(us, e1);
        AppendBoth(t, op, Prefixed(us, Paren(Regroup([], e1))), UnTokens(us), Flatten(e));
      case Unary(o, e1) =>
        ExtendOrdered(t, op, us + [o], e1);
        UnTokensSnoc(us, o);
        Join3(Flatten(t) + [TkOp(op)], UnTokens(us), [UnToken(o)], Flatten(e1));
      case Binary(o, l, r) =>
        ExtendOrdered(t, op, us, l);
        ExtendOrdered(Extend(t, op, us, l), o, [], r);
        NoUnTokens();
        Join3(Flatten(t) + [TkOp(op)] + UnTokens(us), Flatten(l), [TkOp(o)], Flatten(r));
        assert Flatten(Extend(t, op, us, l)) + [TkOp(o)] + [] == Flatten(Extend(t, op, us, l)) + [TkOp(o)];
    }
  }

  lemma AppendBoth(t: Expr, op: BinOp, u: Expr, us: seq<Token>, ts: seq<Token>)
    requires Ordered(t) && Ordered(u) && !u.Binary? && Flatten(u) == us + ts
    ensures Ordered(Append(t, op, u)) && Flatten(Append(t, op, u)) == Flatten(t) + [TkOp(op)] + us + ts
  {
    hide Ordered, Append, Flatten;
    AppendOrdered(t, op, u, 0);
    AppendText(t, op, u);
    assert Flatten(t) + [TkOp(op)] + (us + ts) == Flatten(t) + [TkOp(op)] + us + ts;
  }
}
