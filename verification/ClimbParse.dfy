/** Precedence climbing, as a function and over the token stream. */
module ClimbParse {
  import opened Common
  import opened ClimbTree

  const LUAI_MAXCCALLS := 200

  const UNEXPECTED := "unexpected symbol"
  const CLOSE_EXPECTED := "')' expected"
  const TOO_MANY_LEVELS := "chunk has too many syntax levels"

  function GetUnOpr(ts: seq<Token>): (o: Option<UnOp>)
    ensures forall op :: o == Some(op) <==> ts != [] && ts[0] == UnToken(op)
  {
    if ts == [] then None
    else
      match ts[0]
      case TkNot => Some(Not)
      case TkOp(Sub) => Some(Minus)
      case TkLen => Some(Len)
      case _ => None
  }

  function GetBinOpr(ts: seq<Token>): (o: Option<BinOp>)
    ensures forall op :: o == Some(op) <==> ts != [] && ts[0] == TkOp(op)
  {
    if ts != [] && ts[0].TkOp? then Some(ts[0].op) else None
  }

  // ------------------------------------------------------------------ the parser

  datatype Parsed = Parsed(e: Expr, rest: seq<Token>)

  function SubExpr(ts: seq<Token>, limit: nat, level: int): (o: Fallible<Parsed>)
    ensures o.Returned? ==> |o.value.rest| < |ts|
    decreases |ts|, 3
  {
    if level + 1 > LUAI_MAXCCALLS then Raised(TOO_MANY_LEVELS)
    else
      match Head(ts, level + 1)
      case Raised(w) => Raised(w)
      case Returned(p) => Climb(p.e, p.rest, limit, level + 1)
  }

  /** A prefix operator with its operand, or a simple expression. */
  function Head(ts: seq<Token>, level: int): (o: Fallible<Parsed>)
    ensures o.Returned? ==> |o.value.rest| < |ts|
    decreases |ts|, 2
  {
    match GetUnOpr(ts)
    case None => Simple(ts, level)
    case Some(op) =>
      match SubExpr(ts[1..], UNARY_PRIORITY, level)
      case Raised(w) => Raised(w)
      case Returned(p) => Returned(Parsed(Unary(op, p.e), p.rest))
  }

  function Simple(ts: seq<Token>, level: int): (o: Fallible<Parsed>)
    ensures o.Returned? ==> |o.value.rest| < |ts|
    decreases |ts|, 1
  {
    if ts == [] then Raised(UNEXPECTED)
    else
      match ts[0]
      case TkOperand(id) => Returned(Parsed(Leaf(id), ts[1..]))
      case TkOpen =>
        (match SubExpr(ts[1..], 0, level)
         case Raised(w) => Raised(w)
         case Returned(p) =>
           if p.rest != [] && p.rest[0] == TkClose then Returned(Parsed(Paren(p.e), p.rest[1..])) else Raised(CLOSE_EXPECTED))
      case _ => Raised(UNEXPECTED)
  }

  /** Takes operators into `v` while their priority is higher than `limit`. */
  function Climb(v: Expr, ts: seq<Token>, limit: nat, level: int): (o: Fallible<Parsed>)
    ensures o.Returned? ==> |o.value.rest| <= |ts|
    decreases |ts|, 0
  {
    match GetBinOpr(ts)
    case None => Returned(Parsed(v, ts))
    case Some(op) =>
      if Left(op) <= limit then Returned(Parsed(v, ts))
      else
        match SubExpr(ts[1..], Right(op), level)
        case Raised(w) => Raised(w)
        case Returned(p) => Climb(Binary(op, v, p.e), p.rest, limit, level)
  }

  // ------------------------------------------------------------------ what it builds

  /** The operator that comes next, if any, takes nothing out of `e`. */
  predicate Closed(e: Expr, rest: seq<Token>) {
    match GetBinOpr(rest)
    case None => true
    case Some(op) => Holds(e, Left(op))
  }

  predicate Stops(rest: seq<Token>, limit: nat) {
    match GetBinOpr(rest)
    case None => true
    case Some(op) => Left(op) <= limit
  }

  /** What has been read is the text of the tree, which respects the priorities; the operators
      above `limit` have been taken in, and the levels did not exceed the maximum. */
  lemma {:induction false} SubExprSound(ts: seq<Token>, limit: nat, level: int)
    requires SubExpr(ts, limit, level).Returned?
    ensures var p := SubExpr(ts, limit, level).value;
      && ts == Flatten(p.e) + p.rest && Ordered(p.e) && Above(p.e, limit) && Stops(p.rest, limit) && Closed(p.e, p.rest)
      && level + 1 + Depth(p.e) <= LUAI_MAXCCALLS
    decreases |ts|, 3
  {
    hide Head, Climb, Ordered, Stops, Closed, Depth;
    HeadSound(ts, level + 1);
    var h := Head(ts, level + 1).value;
    ClimbSound(h.e, h.rest, limit, level + 1);
  }

  lemma {:induction false} HeadSound(ts: seq<Token>, level: int)
    requires Head(ts, level).Returned? && level <= LUAI_MAXCCALLS
    ensures var p := Head(ts, level).value;
      && ts == Flatten(p.e) + p.rest && Ordered(p.e) && !p.e.Binary? && Closed(p.e, p.rest)
      && level + Depth(p.e) <= LUAI_MAXCCALLS
    decreases |ts|, 2
  {
    hide SubExpr, Simple;
    match GetUnOpr(ts) {
      case None => SimpleSound(ts, level);
      case Some(op) =>
        SubExprSound(ts[1..], UNARY_PRIORITY, level);
        assert ts == [ts[0]] + ts[1..];
    }
  }

  lemma {:induction false} SimpleSound(ts: seq<Token>, level: int)
    requires Simple(ts, level).Returned? && level <= LUAI_MAXCCALLS
    ensures var p := Simple(ts, level).value;
      && ts == Flatten(p.e) + p.rest && Ordered(p.e) && (p.e.Leaf? || p.e.Paren?)
      && level + Depth(p.e) <= LUAI_MAXCCALLS
    decreases |ts|, 1
  {
    hide SubExpr;
    assert ts == [ts[0]] + ts[1..];
    if ts[0] == TkOpen {
      SubExprSound(ts[1..], 0, level);
      var p := SubExpr(ts[1..], 0, level).value;
      assert p.rest == [TkClose] + p.rest[1..];
    }
  }

  lemma {:induction false} ClimbSound(v: Expr, ts: seq<Token>, limit: nat, level: int)
    requires Climb(v, ts, limit, level).Returned?
    requires Ordered(v) && Above(v, limit) && Closed(v, ts) && level + Depth(v) <= LUAI_MAXCCALLS
    ensures var p := Climb(v, ts, limit, level).value;
      && Flatten(v) + ts == Flatten(p.e) + p.rest && Ordered(p.e) && Above(p.e, limit) && Stops(p.rest, limit) && Closed(p.e, p.rest)
      && level + Depth(p.e) <= LUAI_MAXCCALLS
    decreases |ts|, 0
  {
    hide SubExpr, Left, Right, Ordered, Closed, Holds, Above, Depth, Flatten;
    match GetBinOpr(ts) {
      case None =>
      case Some(op) =>
        if Left(op) > limit {
          SubExprSound(ts[1..], Right(op), level);
          var p := SubExpr(ts[1..], Right(op), level).value;
          NodeOrdered(op, v, p.e, ts, p.rest, limit, level);
          NodeText(op, v, p.e, ts, p.rest);
          ClimbSound(Binary(op, v, p.e), p.rest, limit, level);
        }
    }
  }

  lemma NodeText(op: BinOp, l: Expr, r: Expr, ts: seq<Token>, rest: seq<Token>)
    requires GetBinOpr(ts) == Some(op) && ts[1..] == Flatten(r) + rest
    ensures Flatten(l) + ts == Flatten(Binary(op, l, r)) + rest
  {
    assert ts == [TkOp(op)] + ts[1..];
    assert Flatten(l) + ([TkOp(op)] + (Flatten(r) + rest)) == Flatten(Binary(op, l, r)) + rest;
  }

  /** An operator that the left operand does not take in and above which the right one is. */
  lemma NodeOrdered(op: BinOp, l: Expr, r: Expr, ts: seq<Token>, rest: seq<Token>, limit: nat, level: int)
    requires GetBinOpr(ts) == Some(op) && Left(op) > limit
    requires Ordered(l) && Above(l, limit) && Closed(l, ts) && level + Depth(l) <= LUAI_MAXCCALLS
    requires Ordered(r) && Above(r, Right(op)) && Stops(rest, Right(op)) && Closed(r, rest) && level + 1 + Depth(r) <= LUAI_MAXCCALLS
    ensures var e := Binary(op, l, r);
      Ordered(e) && Above(e, limit) && Closed(e, rest) && level + Depth(e) <= LUAI_MAXCCALLS
  {
    hide Left, Right;
  }

  // ------------------------------------------------------------------ that it builds it

  /** `SubExpr` without its own level. */
  function HeadClimb(ts: seq<Token>, limit: nat, level: int): Fallible<Parsed> {
    match Head(ts, level)
    case Raised(w) => Raised(w)
    case Returned(p) => Climb(p.e, p.rest, limit, level)
  }

  /** Of every tree that respects the priorities the text is read as that tree. */
  lemma {:induction false} SubExprComplete(e: Expr, rest: seq<Token>, limit: nat, level: int)
    requires Ordered(e) && Above(e, limit) && Stops(rest, limit) && Closed(e, rest)
    ensures SubExpr(Flatten(e) + rest, limit, level)
         == if level + 1 + Depth(e) <= LUAI_MAXCCALLS then Returned(Parsed(e, rest)) else Raised(TOO_MANY_LEVELS)
    decreases e, 1
  {
    hide Head, Ordered, Depth;
    if level + 1 <= LUAI_MAXCCALLS {
      HeadClimbComplete(e, rest, limit, level + 1);
    }
  }

  lemma {:induction false} HeadClimbComplete(e: Expr, rest: seq<Token>, limit: nat, level: int)
    requires Ordered(e) && Above(e, limit) && Closed(e, rest) && level <= LUAI_MAXCCALLS
    ensures HeadClimb(Flatten(e) + rest, limit, level)
         == if level + Depth(e) <= LUAI_MAXCCALLS then Climb(e, rest, limit, level) else Raised(TOO_MANY_LEVELS)
    decreases e, 0
  {
    hide SubExpr, Climb, Head, Left, Right, UnToken;
    match e {
      case Leaf(id) => HeadLeaf(id, rest, level);
      case Paren(e1) =>
        AboveZero(e1);
        SubExprComplete(e1, [TkClose] + rest, 0, level);
        HeadParen(e1, rest, level);
      case Unary(op, e1) =>
        SubExprComplete(e1, rest, UNARY_PRIORITY, level);
        HeadUnary(op, e1, rest, level);
      case Binary(op, l, r) =>
        HeadClimbComplete(l, [TkOp(op)] + (Flatten(r) + rest), limit, level);
        SubExprComplete(r, rest, Right(op), level);
        ClimbBinary(op, l, r, rest, limit, level);
        assert Flatten(e) + rest == Flatten(l) + ([TkOp(op)] + (Flatten(r) + rest));
    }
  }

  lemma HeadLeaf(id: nat, rest: seq<Token>, level: int)
    ensures Head(Flatten(Leaf(id)) + rest, level) == Returned(Parsed(Leaf(id), rest))
  {
    var ts := Flatten(Leaf(id)) + rest;
    assert ts[0] == TkOperand(id) && ts[1..] == rest && Head(ts, level) == Simple(ts, level);
  }

  lemma HeadParen(e: Expr, rest: seq<Token>, level: int)
    ensures var o := SubExpr(Flatten(e) + ([TkClose] + rest), 0, level);
      && (o.Raised? ==> Head(Flatten(Paren(e)) + rest, level) == o)
      && (o == Returned(Parsed(e, [TkClose] + rest)) ==> Head(Flatten(Paren(e)) + rest, level) == Returned(Parsed(Paren(e), rest)))
  {
    hide SubExpr;
    var ts := Flatten(Paren(e)) + rest;
    assert ts[1..] == Flatten(e) + ([TkClose] + rest) && ([TkClose] + rest)[1..] == rest;
    assert ts[0] == TkOpen && Head(ts, level) == Simple(ts, level);
  }

  lemma HeadUnary(op: UnOp, e: Expr, rest: seq<Token>, level: int)
    ensures var o := SubExpr(Flatten(e) + rest, UNARY_PRIORITY, level);
      && (o.Raised? ==> Head(Flatten(Unary(op, e)) + rest, level) == o)
      && (o == Returned(Parsed(e, rest)) ==> Head(Flatten(Unary(op, e)) + rest, level) == Returned(Parsed(Unary(op, e), rest)))
  {
    hide SubExpr;
    var ts := Flatten(Unary(op, e)) + rest;
    assert ts[1..] == Flatten(e) + rest;
    assert GetUnOpr(ts) == Some(op);
  }

  lemma ClimbBinary(op: BinOp, l: Expr, r: Expr, rest: seq<Token>, limit: nat, level: int)
    requires Left(op) > limit
    ensures var o := SubExpr(Flatten(r) + rest, Right(op), level);
      var c := Climb(l, [TkOp(op)] + (Flatten(r) + rest), limit, level);
      && (o.Raised? ==> c == o)
      && (o == Returned(Parsed(r, rest)) ==> c == Climb(Binary(op, l, r), rest, limit, level))
  {
    hide SubExpr;
    assert ([TkOp(op)] + (Flatten(r) + rest))[1..] == Flatten(r) + rest;
  }

  /** A whole text is parsed exactly into the tree that respects the priorities and has that
      text, if the parser may nest as deep as that tree needs. */
  lemma ParsedIff(ts: seq<Token>, e: Expr, level: int)
    ensures SubExpr(ts, 0, level) == Returned(Parsed(e, []))
      <==> Flatten(e) == ts && Ordered(e) && level + 1 + Depth(e) <= LUAI_MAXCCALLS
  {
    AboveZero(e);
    assert Flatten(e) + [] == Flatten(e);
    if Ordered(e) { SubExprComplete(e, [], 0, level); }
    if SubExpr(ts, 0, level) == Returned(Parsed(e, [])) { SubExprSound(ts, 0, level); }
  }

  /** The text of any tree is that of exactly one tree that respects the priorities. */
  lemma OneOrdered(e: Expr, e': Expr)
    ensures Ordered(Regroup([], e)) && Flatten(Regroup([], e)) == Flatten(e)
    ensures Ordered(e') && Flatten(e') == Flatten(e) ==> e' == Regroup([], e)
  {
    hide SubExpr, Regroup, Ordered;
    RegroupOrdered([], e);
    NoUnTokens();
    assert [] + Flatten(e) == Flatten(e);
    var t := Regroup([], e);
    if Ordered(e') && Flatten(e') == Flatten(e) {
      var level := 0 - (Depth(e') as int) - (Depth(t) as int);
      ParsedIff(Flatten(e), e', level);
      ParsedIff(Flatten(e), t, level);
    }
  }

  /** Whatever expression a text was written for, it is read as its regrouping, and nothing is
      left, unless that nests too deep. */
  lemma AnyTextParsed(e: Expr, level: int)
    ensures var t := Regroup([], e);
      SubExpr(Flatten(e), 0, level)
      == if level + 1 + Depth(t) <= LUAI_MAXCCALLS then Returned(Parsed(t, [])) else Raised(TOO_MANY_LEVELS)
  {
    hide SubExpr, Regroup, Ordered;
    OneOrdered(e, e);
    AboveZero(Regroup([], e));
    assert Flatten(e) + [] == Flatten(e);
    SubExprComplete(Regroup([], e), [], 0, level);
  }

  /** An expression takes in the operators behind it: what is left starts with none. */
  lemma NothingLeft(ts: seq<Token>, level: int)
    requires SubExpr(ts, 0, level).Returned?
    ensures GetBinOpr(SubExpr(ts, 0, level).value.rest) == None
  {
    SubExprSound(ts, 0, level);
  }

  // ------------------------------------------------------------------ tokens

  /** `not`, `-` and `#` in front of an operand are the three prefix operators: the operand is parsed
      with their priority, and parentheses are kept. */
  lemma Prefixes(ts: seq<Token>, level: int, p: Parsed)
    requires SubExpr(ts, 8, level) == Returned(p)
    ensures Head([TkNot] + ts, level) == Returned(Parsed(Unary(Not, p.e), p.rest))
    ensures Head([TkOp(Sub)] + ts, level) == Returned(Parsed(Unary(Minus, p.e), p.rest))
    ensures Head([TkLen] + ts, level) == Returned(Parsed(Unary(Len, p.e), p.rest))
  {
    hide SubExpr;
    assert ([TkNot] + ts)[1..] == ts && ([TkOp(Sub)] + ts)[1..] == ts && ([TkLen] + ts)[1..] == ts;
  }

  /** An operand with one prefix operator, or in parentheses, or with one operator between two. */
  lemma Smallest(op: BinOp, a: nat, b: nat)
    ensures SubExpr([TkNot, TkOperand(a)], 0, 0) == Returned(Parsed(Unary(Not, Leaf(a)), []))
    ensures SubExpr([TkOp(Sub), TkOperand(a)], 0, 0) == Returned(Parsed(Unary(Minus, Leaf(a)), []))
    ensures SubExpr([TkLen, TkOperand(a)], 0, 0) == Returned(Parsed(Unary(Len, Leaf(a)), []))
    ensures SubExpr([TkOpen, TkOperand(a), TkClose], 0, 0) == Returned(Parsed(Paren(Leaf(a)), []))
    ensures SubExpr([TkOperand(a), TkOp(op), TkOperand(b)], 0, 0) == Returned(Parsed(Binary(op, Leaf(a), Leaf(b)), []))
  {
    hide SubExpr;
    PrefixParsed(Not, a);
    PrefixParsed(Minus, a);
    PrefixParsed(Len, a);
    var x, y := Leaf(a), Leaf(b);
    assert Flatten(x) == [TkOperand(a)] && Flatten(y) == [TkOperand(b)] && Ordered(x) && Ordered(y) && Depth(x) == Depth(y) == 0;
    assert Flatten(Paren(x)) == [TkOpen, TkOperand(a), TkClose];
    assert Flatten(Binary(op, x, y)) == [TkOperand(a), TkOp(op), TkOperand(b)];
    ParsedIff([TkOpen, TkOperand(a), TkClose], Paren(x), 0);
    ParsedIff([TkOperand(a), TkOp(op), TkOperand(b)], Binary(op, x, y), 0);
  }

  lemma PrefixParsed(op: UnOp, a: nat)
    ensures SubExpr([UnToken(op), TkOperand(a)], 0, 0) == Returned(Parsed(Unary(op, Leaf(a)), []))
  {
    hide SubExpr, UnToken;
    var x := Leaf(a);
    assert Flatten(x) == [TkOperand(a)] && Ordered(x) && Depth(x) == 0;
    assert Flatten(Unary(op, x)) == [UnToken(op), TkOperand(a)];
    ParsedIff([UnToken(op), TkOperand(a)], Unary(op, x), 0);
  }

  // ------------------------------------------------------------------ the manual's table

  /** The rows of the table in section 2.5.6 of the Lua 5.1 Reference Manual, from the lowest
      priority up; the unary operators are row 7. */
  function Row(op: BinOp): nat {
    match op
    case Or => 1
    case And => 2
    case Lt | Gt | Le | Ge | Ne | Eq => 3
    case Concat => 4
    case Add | Sub => 5
    case Mul | Div | Mod => 6
    case Pow => 8
  }

  const UNARY_ROW := 7

  predicate RightAssociative(op: BinOp) { op == Concat || op == Pow }

  /** Two operators group as the table says: to the left if the first one is in a higher row,
      or in the same one and left associative. */
  lemma GroupsByRow(o1: BinOp, o2: BinOp, a: nat, b: nat, c: nat)
    ensures var l, r := Binary(o2, Binary(o1, Leaf(a), Leaf(b)), Leaf(c)), Binary(o1, Leaf(a), Binary(o2, Leaf(b), Leaf(c)));
      && Flatten(l) == Flatten(r)
      && SubExpr(Flatten(l), 0, 0)
         == Returned(Parsed(if Row(o1) > Row(o2) || (Row(o1) == Row(o2) && !RightAssociative(o1)) then l else r, []))
  {
    hide SubExpr, Row, Left, Right;
    RowAgrees(o1, o2);
    var l, r := Binary(o2, Binary(o1, Leaf(a), Leaf(b)), Leaf(c)), Binary(o1, Leaf(a), Binary(o2, Leaf(b), Leaf(c)));
    PairOrdered(o1, a, b);
    PairOrdered(o2, b, c);
    assert Flatten(l) == [TkOperand(a), TkOp(o1), TkOperand(b), TkOp(o2), TkOperand(c)] == Flatten(r);
    ParsedIff(Flatten(l), l, 0);
    ParsedIff(Flatten(l), r, 0);
  }

  lemma PairOrdered(op: BinOp, a: nat, b: nat)
    ensures var e := Binary(op, Leaf(a), Leaf(b));
      Ordered(e) && Depth(e) == 1 && Flatten(e) == [TkOperand(a), TkOp(op), TkOperand(b)]
    ensures forall p :: Holds(Binary(op, Leaf(a), Leaf(b)), p) <==> Right(op) >= p
    ensures forall p :: Above(Binary(op, Leaf(a), Leaf(b)), p) <==> Left(op) > p
  {
  }

  lemma RowAgrees(o1: BinOp, o2: BinOp)
    ensures Left(o2) <= Right(o1) <==> Row(o1) > Row(o2) || (Row(o1) == Row(o2) && !RightAssociative(o1))
    ensures Left(o2) > UNARY_PRIORITY <==> Row(o2) > UNARY_ROW
  {
  }

  lemma UnaryByRow(u: UnOp, op: BinOp, a: nat, b: nat)
    ensures var l, r := Binary(op, Unary(u, Leaf(a)), Leaf(b)), Unary(u, Binary(op, Leaf(a), Leaf(b)));
      && Flatten(l) == Flatten(r)
      && SubExpr(Flatten(l), 0, 0) == Returned(Parsed(if UNARY_ROW > Row(op) then l else r, []))
  {
    hide SubExpr, Left, Right, UnToken;
    RowAgrees(op, op);
    var l, r := Binary(op, Unary(u, Leaf(a)), Leaf(b)), Unary(u, Binary(op, Leaf(a), Leaf(b)));
    PairOrdered(op, a, b);
    assert Ordered(Unary(u, Leaf(a))) && (Holds(Unary(u, Leaf(a)), Left(op)) <==> UNARY_PRIORITY >= Left(op));
    assert Depth(Unary(u, Leaf(a))) == 1 && Depth(Leaf(b)) == 0;
    assert Flatten(r) == [UnToken(u)] + [TkOperand(a), TkOp(op), TkOperand(b)];
    assert Flatten(l) == [UnToken(u), TkOperand(a), TkOp(op), TkOperand(b)] == Flatten(r);
    ParsedIff(Flatten(l), l, 0);
    ParsedIff(Flatten(l), r, 0);
  }

  // ------------------------------------------------------------------ over the token stream

  class LexState {
    /** The current token and those behind it; nothing is left at the end of the stream. */
    var ts: seq<Token>
    var nCcalls: int

    constructor (ts: seq<Token>, nCcalls: int)
      ensures this.ts == ts && this.nCcalls == nCcalls
    {
      this.ts, this.nCcalls := ts, nCcalls;
    }

    /** The answer `o` and the state after it are those of the parse `r`. */
    twostate predicate Did(r: Fallible<Parsed>, new o: Fallible<Expr>)
      reads this
    {
      match r
      case Returned(p) => o == Returned(p.e) && ts == p.rest && nCcalls == old(nCcalls)
      case Raised(w) => o == Raised(w)
    }

    method Next()
      requires ts != []
      modifies this`ts
      ensures ts == old(ts)[1..]
    {
      ts := ts[1..];
    }

    /** `simpleexp`: an operand, or an expression in parentheses. */
    method SimpleExp() returns (o: Fallible<Expr>)
      modifies this
      ensures Did(Simple(old(ts), old(nCcalls)), o)
      decreases |ts|, 0
    {
      hide SubExpr;
      if ts == [] { return Raised(UNEXPECTED); }
      match ts[0] {
        case TkOperand(id) =>
          Next();
          return Returned(Leaf(id));
        case TkOpen =>
          Next();
          var e, _ :- SubExpression(0);
          if ts == [] || ts[0] != TkClose { return Raised(CLOSE_EXPECTED); }
          Next();
          return Returned(Paren(e));
        case _ => return Raised(UNEXPECTED);
      }
    }

    /** `subexpr`; `op` is the first operator that was not taken in. */
    method SubExpression(limit: nat) returns (o: Fallible<Expr>, op: Option<BinOp>)
      modifies this
      ensures Did(SubExpr(old(ts), limit, old(nCcalls)), o)
      ensures o.Returned? ==> op == GetBinOpr(ts)
      decreases |ts|, 1
    {
      hide Climb, Simple;
      op := None;
      ghost var ts0, level := ts, nCcalls + 1;
      nCcalls := nCcalls + 1;
      if nCcalls > LUAI_MAXCCALLS { o := Raised(TOO_MANY_LEVELS); return; }
      var v: Expr;
      var uop := GetUnOpr(ts);
      if uop.Some? {
        Next();
        var e, _ :- SubExpression(UNARY_PRIORITY);
        v := Unary(uop.value, e);
      } else {
        v :- SimpleExp();
      }
      op := GetBinOpr(ts);
      while op.Some? && Left(op.value) > limit
        invariant nCcalls == level && op == GetBinOpr(ts) && |ts| < |ts0|
        invariant SubExpr(ts0, limit, level - 1) == Climb(v, ts, limit, level)
        decreases |ts|
      {
        ClimbStep(v, ts, limit, level);
        Next();
        var v2, nextop :- SubExpression(Right(op.value));
        v := Binary(op.value, v, v2);
        op := nextop;
      }
      ClimbEnd(v, ts, limit, level);
      nCcalls := nCcalls - 1;
      o := Returned(v);
    }
  }

  lemma ClimbStep(v: Expr, ts: seq<Token>, limit: nat, level: int)
    requires GetBinOpr(ts).Some? && Left(GetBinOpr(ts).value) > limit
    ensures var op := GetBinOpr(ts).value;
      var r := SubExpr(ts[1..], Right(op), level);
      Climb(v, ts, limit, level) == if r.Raised? then Raised(r.why) else Climb(Binary(op, v, r.value.e), r.value.rest, limit, level)
  {
  }

  lemma ClimbEnd(v: Expr, ts: seq<Token>, limit: nat, level: int)
    requires Stops(ts, limit)
    ensures Climb(v, ts, limit, level) == Returned(Parsed(v, ts))
  {
  }
}
