/** Patterns: their single-character classes, their items and what they mean. */
module MchPattern {
  import opened Common

  type Text = Bytes

  const L_ESC: Byte := 37
  const DOLLAR: Byte := 36
  const OPEN: Byte := 40
  const CLOSE: Byte := 41
  const STAR: Byte := 42
  const PLUS: Byte := 43
  const MINUS: Byte := 45
  const DOT: Byte := 46
  const QUESTION: Byte := 63
  const BRACKET: Byte := 91
  const UNBRACKET: Byte := 93
  const CARET: Byte := 94

  /** A C string ends with a zero. */
  function At(p: Text, i: nat): Byte {
    if i < |p| then p[i] else 0
  }

  // ------------------------------------------------------------- character classes

  predicate IsLower(c: Byte) { 97 <= c <= 122 }
  predicate IsUpper(c: Byte) { 65 <= c <= 90 }
  predicate IsAlpha(c: Byte) { IsLower(c) || IsUpper(c) }
  predicate IsAlnum(c: Byte) { IsAlpha(c) || IsDigit(c) }
  predicate IsCntrl(c: Byte) { c < 32 || c == 127 }
  predicate IsSpace(c: Byte) { c == 32 || 9 <= c <= 13 }
  predicate IsPunct(c: Byte) { 33 <= c <= 126 && !IsAlnum(c) }
  predicate IsXDigit(c: Byte) { IsDigit(c) || 97 <= c <= 102 || 65 <= c <= 70 }

  function ToLower(c: Byte): Byte {
    if IsUpper(c) then c + 32 else c
  }

  /** `match_class`, in the C locale. */
  predicate MatchClass(c: Byte, cl: Byte) {
    var l := ToLower(cl);
    if l == 97 then IsAlpha(c) == IsLower(cl)
    else if l == 99 then IsCntrl(c) == IsLower(cl)
    else if l == 100 then IsDigit(c) == IsLower(cl)
    else if l == 108 then IsLower(c) == IsLower(cl)
    else if l == 112 then IsPunct(c) == IsLower(cl)
    else if l == 115 then IsSpace(c) == IsLower(cl)
    else if l == 117 then IsUpper(c) == IsLower(cl)
    else if l == 119 then IsAlnum(c) == IsLower(cl)
    else if l == 120 then IsXDigit(c) == IsLower(cl)
    else if l == 122 then (c == 0) == IsLower(cl)
    else cl == c
  }

  /** The end of a set: behind the first `]` that is neither escaped nor its first character. */
  function SetEnd(p: Text, k: nat): (r: Option<nat>)
    ensures r.Some? ==> k < r.value - 1 && r.value <= |p|
    decreases |p| - k
  {
    if At(p, k) == 0 then None
    else
      var k' := if At(p, k) == L_ESC && At(p, k + 1) != 0 then k + 2 else k + 1;
      if At(p, k') == UNBRACKET then Some(k' + 1) else SetEnd(p, k')
  }

  /** `classend`; None is a malformed pattern. */
  function ClassEnd(p: Text, j: nat): (r: Option<nat>)
    requires At(p, j) != 0
    ensures r.Some? ==> j < r.value <= |p|
  {
    if At(p, j) == L_ESC then (if At(p, j + 1) == 0 then None else Some(j + 2))
    else if At(p, j) == BRACKET then SetEnd(p, if At(p, j + 1) == CARET then j + 2 else j + 1)
    else Some(j + 1)
  }

  /** `matchbracketclass` from position `k` of the set on. */
  predicate InSet(c: Byte, p: Text, k: nat, ec: nat, sig: bool)
    decreases ec - k
  {
    if k >= ec then !sig
    else if At(p, k) == L_ESC then (if MatchClass(c, At(p, k + 1)) then sig else InSet(c, p, k + 2, ec, sig))
    else if At(p, k + 1) == MINUS && k + 2 < ec then
      (if At(p, k) <= c <= At(p, k + 2) then sig else InSet(c, p, k + 3, ec, sig))
    else if At(p, k) == c then sig
    else InSet(c, p, k + 1, ec, sig)
  }

  predicate MatchBracketClass(c: Byte, p: Text, j: nat, ec: nat) {
    if At(p, j + 1) == CARET then InSet(c, p, j + 2, ec, false) else InSet(c, p, j + 1, ec, true)
  }

  /** `singlematch`. */
  predicate SingleMatch(c: Byte, p: Text, j: nat, ep: nat) {
    if At(p, j) == DOT then true
    else if At(p, j) == L_ESC then MatchClass(c, At(p, j + 1))
    else if At(p, j) == BRACKET then ep >= 1 && MatchBracketClass(c, p, j, ep - 1)
    else At(p, j) == c
  }

  // ------------------------------------------------------------- patterns

  datatype Rep = One | Opt | Star | Plus | Lazy

  /** A single-character class, at `j` up to `ep` of the pattern, and how often it is repeated;
      the start and the end of a capture; a balanced text, a frontier and an earlier capture. */
  datatype Item = Chars(j: nat, ep: nat, rep: Rep) | Start(what: int) | Stop | Balance(b: Byte, e: Byte) | Frontier(j: nat, ep: nat) | Back(l: Byte)

  /** Where a match may end; a malformed pattern raises an error there. */
  datatype Finish = Anywhere | AtEnd | Malformed(message: string)

  datatype Pattern = Pattern(l: seq<Item>, fin: Finish)

  function RepAt(p: Text, ep: nat): Rep {
    var c := At(p, ep);
    if c == QUESTION then Opt else if c == STAR then Star else if c == PLUS then Plus else if c == MINUS then Lazy else One
  }

  /** What `classend` complains about. */
  function BadClass(p: Text, j: nat): string {
    if At(p, j) == L_ESC then "malformed pattern (ends with '%')" else "malformed pattern (missing ']')"
  }

  /** The item at `j`, and where the next one begins; or what is wrong there. */
  datatype Front = Front(it: Item, next: nat) | Wrong(message: string)

  function FrontAt(p: Text, j: nat): (f: Front)
    requires At(p, j) != 0
    ensures f.Front? ==> j < f.next <= |p|
  {
    var c, d := At(p, j), At(p, j + 1);
    if c == OPEN then (if d == CLOSE then Front(Start(CAP_POSITION), j + 2) else Front(Start(CAP_UNFINISHED), j + 1))
    else if c == CLOSE then Front(Stop, j + 1)
    else if c == L_ESC && d == 98 then
      if At(p, j + 2) == 0 || At(p, j + 3) == 0 then Wrong("unbalanced pattern") else Front(Balance(At(p, j + 2), At(p, j + 3)), j + 4)
    else if c == L_ESC && d == 102 then
      if At(p, j + 2) != BRACKET then Wrong("missing '[' after '%f' in pattern")
      else if ClassEnd(p, j + 2).None? then Wrong(BadClass(p, j + 2))
      else Front(Frontier(j + 2, ClassEnd(p, j + 2).value), ClassEnd(p, j + 2).value)
    else if c == L_ESC && IsDigit(d) then Front(Back(d), j + 2)
    else if ClassEnd(p, j).None? then Wrong(BadClass(p, j))
    else
      var ep := ClassEnd(p, j).value;
      var rep := RepAt(p, ep);
      Front(Chars(j, ep, rep), if rep.One? then ep else ep + 1)
  }

  function Parse(p: Text, j: nat): Pattern
    decreases |p| - j
  {
    if At(p, j) == 0 then Pattern([], Anywhere)
    else if At(p, j) == DOLLAR && At(p, j + 1) == 0 then Pattern([], AtEnd)
    else match FrontAt(p, j)
      case Wrong(message) => Pattern([], Malformed(message))
      case Front(it, next) => var rest := Parse(p, next); Pattern([it] + rest.l, rest.fin)
  }

  // ------------------------------------------------------------- captures

  const LUA_MAXCAPTURES: nat := 32
  const CAP_UNFINISHED: int := -1
  const CAP_POSITION: int := -2

  datatype Capture = Capture(init: nat, len: int)

  /** A position in the subject, with the captures made on the way to it. */
  datatype State = State(i: nat, caps: seq<Capture>)

  /** What an item that is no character class does: it leads to one state, or does not match,
      or raises an error. */
  datatype Move = To(st: State) | Nowhere | Raise(message: string)

  /** Capture `k` is the last one that is not finished. */
  predicate LastOpen(l: seq<Capture>, k: int) {
    0 <= k < |l| && l[k].len == CAP_UNFINISHED && forall m :: k < m < |l| ==> l[m].len != CAP_UNFINISHED
  }

  /** The openings without their closings in `s[i..k]`, of which the first is at `i`; a
      character that both opens and closes, closes. */
  function Nest(s: Text, b: Byte, e: Byte, i: nat, k: nat): int
    requires i < k <= |s|
  {
    if k == i + 1 then 1
    else Nest(s, b, e, i, k - 1) + (if s[k - 1] == e then -1 else if s[k - 1] == b then 1 else 0)
  }

  /** `s[i..q]` is the shortest balanced text from `i` on. */
  predicate Balanced(s: Text, b: Byte, e: Byte, i: nat, q: nat) {
    i + 1 < q <= |s| && s[i] == b && Nest(s, b, e, i, q) == 0 && forall k :: i < k < q ==> Nest(s, b, e, i, k) > 0
  }

  /** An earlier capture that is finished. */
  predicate Closed(l: seq<Capture>, c: Byte) {
    49 <= c && c - 49 < |l| && l[c - 49].len != CAP_UNFINISHED
  }

  /** The text of capture `c` stands at `i` again. */
  predicate Again(s: Text, c: Capture, i: nat) {
    c.len >= 0 && i + c.len <= |s| && c.init + c.len <= |s| && s[c.init..c.init + c.len] == s[i..i + c.len]
  }

  ghost function Step(s: Text, p: Text, it: Item, st: State): Move
    requires !it.Chars?
  {
    var i, l := st.i, st.caps;
    match it
    case Start(what) => if |l| >= LUA_MAXCAPTURES then Raise("too many captures") else To(State(i, l + [Capture(i, what)]))
    case Stop =>
      if k: nat :| LastOpen(l, k) then To(State(i, l[k := l[k].(len := i - l[k].init)])) else Raise("invalid pattern capture")
    case Balance(b, e) => if q: nat :| Balanced(s, b, e, i, q) then To(State(q, l)) else Nowhere
    case Frontier(j, ep) =>
      var previous := if 0 < i <= |s| then s[i - 1] else 0;
      if ep >= 1 && !MatchBracketClass(previous, p, j, ep - 1) && MatchBracketClass(At(s, i), p, j, ep - 1) then To(st) else Nowhere
    case Back(c) =>
      if !Closed(l, c) then Raise("invalid capture index")
      else if Again(s, l[c - 49], i) then To(State(i + l[c - 49].len, l))
      else Nowhere
  }

  // ------------------------------------------------------------- their meaning

  predicate Fits(s: Text, p: Text, it: Item, i: nat)
    requires it.Chars?
  {
    i < |s| && SingleMatch(s[i], p, it.j, it.ep)
  }

  predicate Allowed(rep: Rep, k: nat) {
    match rep
    case One => k == 1
    case Opt => k <= 1
    case Star => true
    case Plus => k >= 1
    case Lazy => true
  }

  /** `ks` says how often each character class is taken: with these repetitions the items lead
      from a state to the end of the pattern, or to an error. */
  ghost predicate Valid(s: Text, p: Text, l: seq<Item>, fin: Finish, st: State, ks: seq<nat>)
    decreases |l|
  {
    if l == [] then ks == [] && st.i <= |s| && (fin.AtEnd? ==> st.i == |s|)
    else if l[0].Chars? then
      && ks != [] && Allowed(l[0].rep, ks[0]) && (forall m :: st.i <= m < st.i + ks[0] ==> Fits(s, p, l[0], m))
      && Valid(s, p, l[1..], fin, st.(i := st.i + ks[0]), ks[1..])
    else match Step(s, p, l[0], st)
      case To(st') => Valid(s, p, l[1..], fin, st', ks)
      case Nowhere => false
      case Raise(_) => ks == []
  }

  /** The end of a match and its captures, or no match, or an error. */
  datatype Outcome = Done(st: State) | Failure | Fault(message: string)

  /** Where given repetitions lead to. */
  ghost function Leads(s: Text, p: Text, l: seq<Item>, fin: Finish, st: State, ks: seq<nat>): Outcome
    decreases |l|
  {
    if l == [] then (if fin.Malformed? then Fault(fin.message) else Done(st))
    else if l[0].Chars? then (if ks == [] then Failure else Leads(s, p, l[1..], fin, st.(i := st.i + ks[0]), ks[1..]))
    else match Step(s, p, l[0], st)
      case To(st') => Leads(s, p, l[1..], fin, st', ks)
      case Nowhere => Failure
      case Raise(message) => Fault(message)
  }

  /** Greedy classes prefer more repetitions, lazy ones fewer; earlier ones decide first. */
  predicate Preferred(l: seq<Item>, ks: seq<nat>, ks': seq<nat>)
    decreases |l|
  {
    l != [] &&
    if !l[0].Chars? then Preferred(l[1..], ks, ks')
    else
      && ks != [] && ks' != []
      && if ks[0] == ks'[0] then Preferred(l[1..], ks[1..], ks'[1..])
         else if l[0].rep.Lazy? then ks[0] < ks'[0]
         else ks[0] > ks'[0]
  }

  // ------------------------------------------------------------- backtracking

  function Cons(k: nat, r: Option<seq<nat>>): Option<seq<nat>> {
    if r.None? then None else Some([k] + r.value)
  }

  /** The number of characters from `i` on that fit. */
  function Run(s: Text, p: Text, it: Item, i: nat): (n: nat)
    requires it.Chars?
    decreases |s| - i
  {
    if Fits(s, p, it, i) then Run(s, p, it, i + 1) + 1 else 0
  }

  /** The order in which the matcher tries repetitions. */
  ghost function Best(s: Text, p: Text, l: seq<Item>, fin: Finish, st: State): Option<seq<nat>>
    decreases |l|, 0, 0
  {
    if l == [] then (if st.i <= |s| && (fin.AtEnd? ==> st.i == |s|) then Some([]) else None)
    else if l[0].Chars? then
      var it := l[0];
      match it.rep
      case One => if Fits(s, p, it, st.i) then Cons(1, Best(s, p, l[1..], fin, st.(i := st.i + 1))) else None
      case Opt =>
        if Fits(s, p, it, st.i) && Best(s, p, l[1..], fin, st.(i := st.i + 1)).Some? then Cons(1, Best(s, p, l[1..], fin, st.(i := st.i + 1)))
        else Cons(0, Best(s, p, l[1..], fin, st))
      case Star => Down(s, p, l[1..], fin, st, Run(s, p, it, st.i), 0)
      case Plus => if Fits(s, p, it, st.i) then Down(s, p, l[1..], fin, st, Run(s, p, it, st.i), 1) else None
      case Lazy => Up(s, p, it, l[1..], fin, st, 0)
    else match Step(s, p, l[0], st)
      case To(st') => Best(s, p, l[1..], fin, st')
      case Nowhere => None
      case Raise(_) => Some([])
  }

  /** From `k` repetitions down to `least`. */
  ghost function Down(s: Text, p: Text, rest: seq<Item>, fin: Finish, st: State, k: nat, least: nat): Option<seq<nat>>
    decreases |rest|, 1, k
  {
    var r := Best(s, p, rest, fin, st.(i := st.i + k));
    if r.Some? then Cons(k, r)
    else if k <= least then None
    else Down(s, p, rest, fin, st, k - 1, least)
  }

  /** From `k` repetitions up, as long as characters fit. */
  ghost function Up(s: Text, p: Text, it: Item, rest: seq<Item>, fin: Finish, st: State, k: nat): Option<seq<nat>>
    requires it.Chars?
    decreases |rest|, 1, |s| - st.i - k
  {
    var r := Best(s, p, rest, fin, st.(i := st.i + k));
    if r.Some? then Cons(k, r)
    else if Fits(s, p, it, st.i + k) then Up(s, p, it, rest, fin, st, k + 1)
    else None
  }

  // ------------------------------------------------------------- the theorem

  /** `r` is the first match in the order of preference, or there is none. */
  ghost predicate IsBest(s: Text, p: Text, l: seq<Item>, fin: Finish, st: State, r: Option<seq<nat>>) {
    match r
    case None => forall ks :: !Valid(s, p, l, fin, st, ks)
    case Some(ks) => Valid(s, p, l, fin, st, ks) && forall ks' :: Valid(s, p, l, fin, st, ks') && ks' != ks ==> Preferred(l, ks, ks')
  }

  /** `r` is the first match among those that take the first item between `lo` and `hi` times. */
  ghost predicate BestAmong(s: Text, p: Text, l: seq<Item>, fin: Finish, st: State, r: Option<seq<nat>>, lo: nat, hi: int) {
    match r
    case None => forall ks :: Valid(s, p, l, fin, st, ks) && ks != [] ==> !(lo <= ks[0] <= hi)
    case Some(ks) =>
      && Valid(s, p, l, fin, st, ks) && ks != [] && lo <= ks[0] <= hi
      && forall ks' :: Valid(s, p, l, fin, st, ks') && ks' != [] && lo <= ks'[0] <= hi && ks' != ks ==> Preferred(l, ks, ks')
  }

  predicate Class(l: seq<Item>) { l != [] && l[0].Chars? }

  /** Exactly `k` repetitions of the first item. */
  lemma Exactly(s: Text, p: Text, l: seq<Item>, fin: Finish, st: State, k: nat, r: Option<seq<nat>>)
    requires Class(l) && Allowed(l[0].rep, k) && IsBest(s, p, l[1..], fin, st.(i := st.i + k), r)
    requires forall m :: st.i <= m < st.i + k ==> Fits(s, p, l[0], m)
    ensures BestAmong(s, p, l, fin, st, Cons(k, r), k, k)
  {
    if r.Some? {
      var ks := [k] + r.value;
      assert ks[1..] == r.value;
      forall ks' | Valid(s, p, l, fin, st, ks') && ks' != [] && ks'[0] == k && ks' != ks ensures Preferred(l, ks, ks') {
        assert ks' == [k] + ks'[1..];
      }
    }
  }

  lemma Greedy(s: Text, p: Text, l: seq<Item>, fin: Finish, st: State, lo: nat, k: nat, r1: Option<seq<nat>>, r2: Option<seq<nat>>)
    requires Class(l) && !l[0].rep.Lazy? && lo <= k
    requires BestAmong(s, p, l, fin, st, r1, k, k) && BestAmong(s, p, l, fin, st, r2, lo, k - 1)
    ensures BestAmong(s, p, l, fin, st, if r1.Some? then r1 else r2, lo, k)
  {
  }

  lemma Reluctant(s: Text, p: Text, l: seq<Item>, fin: Finish, st: State, k: nat, hi: int, r1: Option<seq<nat>>, r2: Option<seq<nat>>)
    requires Class(l) && l[0].rep.Lazy? && k <= hi
    requires BestAmong(s, p, l, fin, st, r1, k, k) && BestAmong(s, p, l, fin, st, r2, k + 1, hi)
    ensures BestAmong(s, p, l, fin, st, if r1.Some? then r1 else r2, k, hi)
  {
  }

  lemma Whole(s: Text, p: Text, l: seq<Item>, fin: Finish, st: State, lo: nat, hi: int, r: Option<seq<nat>>)
    requires Class(l) && BestAmong(s, p, l, fin, st, r, lo, hi)
    requires forall ks :: Valid(s, p, l, fin, st, ks) ==> ks != [] && lo <= ks[0] <= hi
    ensures IsBest(s, p, l, fin, st, r)
  {
  }

  lemma {:induction false} RunFits(s: Text, p: Text, it: Item, i: nat)
    requires it.Chars?
    ensures forall m :: i <= m < i + Run(s, p, it, i) ==> Fits(s, p, it, m)
    ensures !Fits(s, p, it, i + Run(s, p, it, i))
    decreases |s| - i
  {
    if Fits(s, p, it, i) { RunFits(s, p, it, i + 1); }
  }

  /** A valid count does not go beyond the first character that does not fit. */
  lemma CountBound(s: Text, p: Text, l: seq<Item>, fin: Finish, st: State, n: nat)
    requires Class(l) && !Fits(s, p, l[0], st.i + n)
    ensures forall ks :: Valid(s, p, l, fin, st, ks) ==> ks != [] && Allowed(l[0].rep, ks[0]) && ks[0] <= n
  {
  }

  lemma RunPositive(s: Text, p: Text, it: Item, i: nat)
    requires it.Chars? && Fits(s, p, it, i)
    ensures Run(s, p, it, i) >= 1
  {
  }

  lemma CountOne(s: Text, p: Text, l: seq<Item>, fin: Finish, st: State)
    requires Class(l) && l[0].rep.One?
    ensures forall ks :: Valid(s, p, l, fin, st, ks) ==> ks != [] && ks[0] == 1
  {
  }

  lemma CountOpt(s: Text, p: Text, l: seq<Item>, fin: Finish, st: State)
    requires Class(l) && l[0].rep.Opt?
    ensures forall ks :: Valid(s, p, l, fin, st, ks) ==> ks != [] && ks[0] <= 1
  {
  }

  /** An item that needs a character does not match where none fits. */
  lemma NoneFits(s: Text, p: Text, l: seq<Item>, fin: Finish, st: State)
    requires Class(l) && (l[0].rep.One? || l[0].rep.Plus?) && !Fits(s, p, l[0], st.i)
    ensures IsBest(s, p, l, fin, st, None)
  {
  }

  lemma BestOfNone(s: Text, p: Text, fin: Finish, st: State)
    ensures IsBest(s, p, [], fin, st, Best(s, p, [], fin, st))
  {
  }

  /** An item that is no class leaves no choice. */
  lemma BestOfStep(s: Text, p: Text, l: seq<Item>, fin: Finish, st: State)
    requires l != [] && !l[0].Chars?
    requires var m := Step(s, p, l[0], st); m.To? ==> IsBest(s, p, l[1..], fin, m.st, Best(s, p, l[1..], fin, m.st))
    ensures IsBest(s, p, l, fin, st, Best(s, p, l, fin, st))
  {
    hide Step;
    match Step(s, p, l[0], st) {
      case To(st') =>
        assert forall ks :: Valid(s, p, l, fin, st, ks) <==> Valid(s, p, l[1..], fin, st', ks);
        assert forall ks: seq<nat>, ks': seq<nat> :: Preferred(l, ks, ks') <==> Preferred(l[1..], ks, ks');
      case Nowhere =>
      case Raise(_) =>
        assert Valid(s, p, l, fin, st, []);
    }
  }

  /** Backtracking finds the first match in the order of preference, for every pattern and
      every subject; an error is raised exactly when the first choice that does not fail on
      the way leads to one. */
  lemma {:induction false} BestIsBest(s: Text, p: Text, l: seq<Item>, fin: Finish, st: State)
    ensures IsBest(s, p, l, fin, st, Best(s, p, l, fin, st))
    decreases |l|, 0, 0
  {
    hide Valid, BestAmong, Preferred, IsBest, Run, Down, Up, SingleMatch, Step;
    if l == [] {
      BestOfNone(s, p, fin, st);
    } else if l[0].Chars? {
      ClassIsBest(s, p, l, fin, st);
    } else {
      var m := Step(s, p, l[0], st);
      if m.To? { BestIsBest(s, p, l[1..], fin, m.st); }
      BestOfStep(s, p, l, fin, st);
    }
  }

  lemma {:induction false} ClassIsBest(s: Text, p: Text, l: seq<Item>, fin: Finish, st: State)
    requires Class(l)
    ensures IsBest(s, p, l, fin, st, Best(s, p, l, fin, st))
    decreases |l[1..]|, 2, 0
  {
    hide Valid, BestAmong, Preferred, IsBest, Run, Down, Up, SingleMatch, Step;
    var it := l[0];
    match it.rep {
      case One =>
        BestIsBest(s, p, l[1..], fin, st.(i := st.i + 1));
        if Fits(s, p, it, st.i) {
          Exactly(s, p, l, fin, st, 1, Best(s, p, l[1..], fin, st.(i := st.i + 1)));
          CountOne(s, p, l, fin, st);
          Whole(s, p, l, fin, st, 1, 1, Best(s, p, l, fin, st));
        } else {
          NoneFits(s, p, l, fin, st);
        }
      case Opt =>
        BestIsBest(s, p, l[1..], fin, st.(i := st.i + 0));
        BestIsBest(s, p, l[1..], fin, st.(i := st.i + 1));
        var r0, r1 := Best(s, p, l[1..], fin, st), Best(s, p, l[1..], fin, st.(i := st.i + 1));
        Exactly(s, p, l, fin, st, 0, r0);
        if Fits(s, p, it, st.i) {
          Exactly(s, p, l, fin, st, 1, r1);
          CountOpt(s, p, l, fin, st);
          Greedy(s, p, l, fin, st, 0, 1, Cons(1, r1), Cons(0, r0));
          Whole(s, p, l, fin, st, 0, 1, Best(s, p, l, fin, st));
        } else {
          CountBound(s, p, l, fin, st, 0);
          Whole(s, p, l, fin, st, 0, 0, Best(s, p, l, fin, st));
        }
      case Star =>
        var n := Run(s, p, it, st.i);
        RunFits(s, p, it, st.i);
        DownIsBest(s, p, l, fin, st, n, 0);
        CountBound(s, p, l, fin, st, n);
        Whole(s, p, l, fin, st, 0, n, Best(s, p, l, fin, st));
      case Plus =>
        var n := Run(s, p, it, st.i);
        RunFits(s, p, it, st.i);
        CountBound(s, p, l, fin, st, n);
        if Fits(s, p, it, st.i) {
          RunPositive(s, p, it, st.i);
          DownIsBest(s, p, l, fin, st, n, 1);
          Whole(s, p, l, fin, st, 1, n, Best(s, p, l, fin, st));
        } else {
          NoneFits(s, p, l, fin, st);
        }
      case Lazy =>
        UpIsBest(s, p, l, fin, st, 0);
        CountBound(s, p, l, fin, st, |s|);
        Whole(s, p, l, fin, st, 0, |s|, Best(s, p, l, fin, st));
    }
  }

  lemma {:induction false} DownIsBest(s: Text, p: Text, l: seq<Item>, fin: Finish, st: State, k: nat, least: nat)
    requires Class(l) && (l[0].rep.Star? || l[0].rep.Plus?) && least <= k && (l[0].rep.Plus? ==> least == 1)
    requires forall m :: st.i <= m < st.i + k ==> Fits(s, p, l[0], m)
    ensures BestAmong(s, p, l, fin, st, Down(s, p, l[1..], fin, st, k, least), least, k)
    decreases |l[1..]|, 1, k
  {
    hide Valid, BestAmong, Preferred, IsBest, SingleMatch, Step;
    var r := Best(s, p, l[1..], fin, st.(i := st.i + k));
    BestIsBest(s, p, l[1..], fin, st.(i := st.i + k));
    Exactly(s, p, l, fin, st, k, r);
    if k > least {
      DownIsBest(s, p, l, fin, st, k - 1, least);
      Greedy(s, p, l, fin, st, least, k, Cons(k, r), Down(s, p, l[1..], fin, st, k - 1, least));
    }
  }

  lemma {:induction false} UpIsBest(s: Text, p: Text, l: seq<Item>, fin: Finish, st: State, k: nat)
    requires Class(l) && l[0].rep.Lazy? && forall m :: st.i <= m < st.i + k ==> Fits(s, p, l[0], m)
    ensures BestAmong(s, p, l, fin, st, Up(s, p, l[0], l[1..], fin, st, k), k, |s|)
    decreases |l[1..]|, 1, |s| - st.i - k
  {
    hide Valid, Preferred, IsBest, SingleMatch, Step;
    var r := Best(s, p, l[1..], fin, st.(i := st.i + k));
    BestIsBest(s, p, l[1..], fin, st.(i := st.i + k));
    Exactly(s, p, l, fin, st, k, r);
    if Fits(s, p, l[0], st.i + k) {
      UpIsBest(s, p, l, fin, st, k + 1);
      Reluctant(s, p, l, fin, st, k, |s|, Cons(k, r), Up(s, p, l[0], l[1..], fin, st, k + 1));
    } else {
      assert k <= |s| by { if k > 0 { assert Fits(s, p, l[0], st.i + k - 1); } }
      CountBound(s, p, l, fin, st, k);
    }
  }

  // ------------------------------------------------------------- what the matcher has to answer

  ghost function Answer(s: Text, p: Text, q: Pattern, st: State, r: Option<seq<nat>>): Outcome {
    if r.None? then Failure else Leads(s, p, q.l, q.fin, st, r.value)
  }

  /** The outcome of the preferred repetitions for the pattern from `j` on. */
  ghost function Goal(s: Text, p: Text, st: State, j: nat): Outcome {
    var q := Parse(p, j);
    Answer(s, p, q, st, Best(s, p, q.l, q.fin, st))
  }

  /** The last of the attempts after 0 up to `k` further characters that does not fail. */
  ghost function Longest(s: Text, p: Text, st: State, j: nat, k: nat): Outcome {
    var g := Goal(s, p, st.(i := st.i + k), j);
    if !g.Failure? || k == 0 then g else Longest(s, p, st, j, k - 1)
  }

  /** The first of the attempts, as long as characters fit, that does not fail. */
  ghost function Shortest(s: Text, p: Text, it: Item, st: State, j: nat): Outcome
    requires it.Chars?
    decreases |s| - st.i
  {
    var g := Goal(s, p, st, j);
    if !g.Failure? || !Fits(s, p, it, st.i) then g else Shortest(s, p, it, st.(i := st.i + 1), j)
  }

  lemma {:induction false} ValidLeads(s: Text, p: Text, l: seq<Item>, fin: Finish, st: State, ks: seq<nat>)
    requires Valid(s, p, l, fin, st, ks)
    ensures !Leads(s, p, l, fin, st, ks).Failure?
    decreases |l|
  {
    hide Step, Fits;
    if l != [] {
      if l[0].Chars? {
        ValidLeads(s, p, l[1..], fin, st.(i := st.i + ks[0]), ks[1..]);
      } else {
        match Step(s, p, l[0], st) {
          case To(st') => ValidLeads(s, p, l[1..], fin, st', ks);
          case Raise(_) =>
        }
      }
    }
  }

  lemma GoalFails(s: Text, p: Text, st: State, j: nat)
    ensures var q := Parse(p, j); Goal(s, p, st, j).Failure? <==> Best(s, p, q.l, q.fin, st).None?
  {
    hide Best, Leads, Valid, Parse;
    var q := Parse(p, j);
    BestIsBest(s, p, q.l, q.fin, st);
    var r := Best(s, p, q.l, q.fin, st);
    if r.Some? { ValidLeads(s, p, q.l, q.fin, st, r.value); }
  }

  lemma GoalEnd(s: Text, p: Text, st: State, j: nat)
    requires st.i <= |s|
    ensures At(p, j) == 0 ==> Goal(s, p, st, j) == Done(st)
    ensures At(p, j) == DOLLAR && At(p, j + 1) == 0 ==> Goal(s, p, st, j) == if st.i == |s| then Done(st) else Failure
  {
  }

  /** An item is at `j`, or something is wrong there. */
  predicate ItemAt(p: Text, j: nat) {
    At(p, j) != 0 && !(At(p, j) == DOLLAR && At(p, j + 1) == 0)
  }

  lemma GoalWrong(s: Text, p: Text, st: State, j: nat)
    requires st.i <= |s| && ItemAt(p, j) && FrontAt(p, j).Wrong?
    ensures Goal(s, p, st, j) == Fault(FrontAt(p, j).message)
  {
    hide FrontAt;
  }

  lemma ParseItem(p: Text, j: nat)
    requires ItemAt(p, j) && FrontAt(p, j).Front?
    ensures var f, q := FrontAt(p, j), Parse(p, j); q.l != [] && q.l[0] == f.it && Pattern(q.l[1..], q.fin) == Parse(p, f.next)
  {
    hide FrontAt;
    var f, q := FrontAt(p, j), Parse(p, j);
    assert q.l == [f.it] + Parse(p, f.next).l;
  }

  lemma GoalStep(s: Text, p: Text, st: State, j: nat)
    requires ItemAt(p, j) && FrontAt(p, j).Front? && !FrontAt(p, j).it.Chars?
    ensures var f := FrontAt(p, j);
      Goal(s, p, st, j) == match Step(s, p, f.it, st)
        case To(st') => Goal(s, p, st', f.next)
        case Nowhere => Failure
        case Raise(message) => Fault(message)
  {
    hide FrontAt, Parse, Step;
    ParseItem(p, j);
  }

  lemma ConsLeads(s: Text, p: Text, q: Pattern, st: State, k: nat, r: Option<seq<nat>>)
    requires Class(q.l)
    ensures Answer(s, p, q, st, Cons(k, r)) == Answer(s, p, Pattern(q.l[1..], q.fin), st.(i := st.i + k), r)
  {
    if r.Some? { assert ([k] + r.value)[1..] == r.value; }
  }

  /** What a character class means for the answer. */
  lemma GoalClass(s: Text, p: Text, st: State, j: nat)
    requires ItemAt(p, j) && FrontAt(p, j).Front? && FrontAt(p, j).it.Chars?
    ensures var f := FrontAt(p, j); var it := f.it; var fits, st1 := Fits(s, p, it, st.i), st.(i := st.i + 1);
      Goal(s, p, st, j) == match it.rep
        case One => if fits then Goal(s, p, st1, f.next) else Failure
        case Opt => if fits && !Goal(s, p, st1, f.next).Failure? then Goal(s, p, st1, f.next) else Goal(s, p, st, f.next)
        case Star => Longest(s, p, st, f.next, Run(s, p, it, st.i))
        case Plus => if fits then Longest(s, p, st1, f.next, Run(s, p, it, st.i + 1)) else Failure
        case Lazy => Shortest(s, p, it, st, f.next)
  {
    hide FrontAt, Parse, Longest, Shortest, Fits, Down, Up, Leads;
    ParseItem(p, j);
    var f, q := FrontAt(p, j), Parse(p, j);
    var st1, rest := st.(i := st.i + 1), Pattern(q.l[1..], q.fin);
    match f.it.rep {
      case One =>
        ConsLeads(s, p, q, st, 1, Best(s, p, rest.l, rest.fin, st1));
      case Opt =>
        ConsLeads(s, p, q, st, 1, Best(s, p, rest.l, rest.fin, st1));
        ConsLeads(s, p, q, st, 0, Best(s, p, rest.l, rest.fin, st));
        GoalFails(s, p, st1, f.next);
      case Star =>
        DownLongest(s, p, q, st, f.next, Run(s, p, f.it, st.i), 0);
      case Plus =>
        if Fits(s, p, f.it, st.i) { DownLongest(s, p, q, st, f.next, Run(s, p, f.it, st.i), 1); }
      case Lazy =>
        UpShortest(s, p, q, st, f.next, 0);
    }
  }

  lemma {:induction false} DownLongest(s: Text, p: Text, q: Pattern, st: State, next: nat, k: nat, least: nat)
    requires Class(q.l) && Pattern(q.l[1..], q.fin) == Parse(p, next) && least <= k
    ensures Answer(s, p, q, st, Down(s, p, q.l[1..], q.fin, st, k, least)) == Longest(s, p, st.(i := st.i + least), next, k - least)
    decreases k
  {
    hide Parse, Best, Leads;
    var st' := st.(i := st.i + k);
    ConsLeads(s, p, q, st, k, Best(s, p, q.l[1..], q.fin, st'));
    GoalFails(s, p, st', next);
    if k > least { DownLongest(s, p, q, st, next, k - 1, least); }
  }

  lemma {:induction false} UpShortest(s: Text, p: Text, q: Pattern, st: State, next: nat, k: nat)
    requires Class(q.l) && Pattern(q.l[1..], q.fin) == Parse(p, next)
    ensures Answer(s, p, q, st, Up(s, p, q.l[0], q.l[1..], q.fin, st, k)) == Shortest(s, p, q.l[0], st.(i := st.i + k), next)
    decreases |s| - st.i - k
  {
    hide Parse, Best, Leads;
    var st' := st.(i := st.i + k);
    ConsLeads(s, p, q, st, k, Best(s, p, q.l[1..], q.fin, st'));
    GoalFails(s, p, st', next);
    if Fits(s, p, q.l[0], st.i + k) { UpShortest(s, p, q, st, next, k + 1); }
  }

  // ------------------------------------------------------------- captures of a match

  /** The position and all captures lie in the subject, and no capture ends behind the position. */
  predicate Within(s: Text, st: State) {
    st.i <= |s| && forall k {:trigger st.caps[k]} :: 0 <= k < |st.caps| ==>
      var c := st.caps[k]; c.init <= st.i && CAP_POSITION <= c.len && c.init + c.len <= st.i
  }

  /** Captures start where they did, and only unfinished ones have got a length. */
  predicate Extends(l: seq<Capture>, l': seq<Capture>) {
    && |l| <= |l'|
    && forall k {:trigger l'[k]} :: 0 <= k < |l| ==> l'[k].init == l[k].init && (l'[k].len == l[k].len || l[k].len == CAP_UNFINISHED)
  }

  /** A match goes forward within the subject, and keeps the captures that were there. */
  lemma {:induction false} MatchWithin(s: Text, p: Text, l: seq<Item>, fin: Finish, st: State, ks: seq<nat>)
    requires Within(s, st) && Valid(s, p, l, fin, st, ks) && forall it :: it in l && it.Start? ==> it.what == CAP_POSITION || it.what == CAP_UNFINISHED
    ensures match Leads(s, p, l, fin, st, ks)
            case Done(st') => st.i <= st'.i && Within(s, st') && Extends(st.caps, st'.caps)
            case _ => true
    decreases |l|
  {
    hide Step, Fits;
    if l != [] {
      if l[0].Chars? {
        var st' := st.(i := st.i + ks[0]);
        if ks[0] > 0 { assert Fits(s, p, l[0], st'.i - 1); FitsWithin(s, p, l[0], st'.i - 1); }
        MatchWithin(s, p, l[1..], fin, st', ks[1..]);
      } else {
        match Step(s, p, l[0], st) {
          case To(st') =>
            StepWithin(s, p, l[0], st);
            MatchWithin(s, p, l[1..], fin, st', ks);
          case Raise(_) =>
        }
      }
    }
  }

  lemma FitsWithin(s: Text, p: Text, it: Item, i: nat)
    requires it.Chars? && Fits(s, p, it, i)
    ensures i < |s|
  {
  }

  lemma StepWithin(s: Text, p: Text, it: Item, st: State)
    requires !it.Chars? && Within(s, st) && Step(s, p, it, st).To? && (it.Start? ==> it.what == CAP_POSITION || it.what == CAP_UNFINISHED)
    ensures var st' := Step(s, p, it, st).st; st.i <= st'.i && Within(s, st') && Extends(st.caps, st'.caps)
  {
  }

  lemma {:induction false} ParseStarts(p: Text, j: nat)
    ensures forall it :: it in Parse(p, j).l && it.Start? ==> it.what == CAP_POSITION || it.what == CAP_UNFINISHED
    decreases |p| - j
  {
    if ItemAt(p, j) && FrontAt(p, j).Front? { ParseStarts(p, FrontAt(p, j).next); }
  }

  lemma GoalWithin(s: Text, p: Text, st: State, j: nat)
    requires Within(s, st)
    ensures match Goal(s, p, st, j)
            case Done(st') => st.i <= st'.i && Within(s, st') && Extends(st.caps, st'.caps)
            case _ => true
  {
    hide Best, Leads, Valid, Parse, Within, Extends;
    var q := Parse(p, j);
    BestIsBest(s, p, q.l, q.fin, st);
    var r := Best(s, p, q.l, q.fin, st);
    ParseStarts(p, j);
    if r.Some? { MatchWithin(s, p, q.l, q.fin, st, r.value); }
  }
}
