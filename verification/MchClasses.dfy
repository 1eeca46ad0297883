/** What the parts of a pattern mean in terms of its text: classes, sets, and the characters that
    stand for repetitions, captures and the other items. */
module MchClasses {
  import opened Common
  import opened MchPattern

  /** The byte of a character. */
  function B(ch: char): Byte
    requires ch < 256 as char
  {
    ch as int
  }

  // ------------------------------------------------------------- class letters

  /** What the ten letters stand for. */
  lemma ClassLetters(c: Byte)
    ensures MatchClass(c, B('a')) <==> B('a') <= c <= B('z') || B('A') <= c <= B('Z')
    ensures MatchClass(c, B('d')) <==> B('0') <= c <= B('9')
    ensures MatchClass(c, B('l')) <==> B('a') <= c <= B('z')
    ensures MatchClass(c, B('u')) <==> B('A') <= c <= B('Z')
    ensures MatchClass(c, B('w')) <==> B('a') <= c <= B('z') || B('A') <= c <= B('Z') || B('0') <= c <= B('9')
    ensures MatchClass(c, B('x')) <==> B('0') <= c <= B('9') || B('a') <= c <= B('f') || B('A') <= c <= B('F')
    ensures MatchClass(c, B('s')) <==> c == 32 || 9 <= c <= 13
    ensures MatchClass(c, B('c')) <==> c <= 31 || c == 127
    ensures MatchClass(c, B('p')) <==> 33 <= c <= 47 || 58 <= c <= 64 || 91 <= c <= 96 || 123 <= c <= 126
    ensures MatchClass(c, B('z')) <==> c == 0
  {
  }

  predicate IsClassLetter(cl: Byte) {
    cl in {B('a'), B('c'), B('d'), B('l'), B('p'), B('s'), B('u'), B('w'), B('x'), B('z')}
  }

  /** An upper-case letter stands for what its lower-case one does not, and any other character
      behind `%` for itself. */
  lemma OtherLetters(c: Byte, cl: Byte)
    ensures IsClassLetter(cl) ==> cl >= 32 && (MatchClass(c, cl - 32) <==> !MatchClass(c, cl))
    ensures !IsClassLetter(cl) && !(cl < 224 && IsClassLetter(cl + 32)) ==> (MatchClass(c, cl) <==> c == cl)
  {
  }

  // ------------------------------------------------------------- sets

  /** What may stand in a set: a character, a range, or a class. */
  datatype Elem = Char(c: Byte) | Range(lo: Byte, hi: Byte) | Letter(cl: Byte)

  function Written(e: Elem): (t: Text)
    ensures 1 <= |t| <= 3
  {
    match e
    case Char(c) => [c]
    case Range(lo, hi) => [lo, B('-'), hi]
    case Letter(cl) => [B('%'), cl]
  }

  function Spelled(l: seq<Elem>): Text {
    if l == [] then [] else Written(l[0]) + Spelled(l[1..])
  }

  predicate Hits(c: Byte, e: Elem) {
    match e
    case Char(x) => c == x
    case Range(lo, hi) => lo <= c <= hi
    case Letter(cl) => MatchClass(c, cl)
  }

  /** A byte that stands for itself in a set; `]` does so in front only. */
  predicate Plain(b: Byte, front: bool) {
    b != 0 && b != B('%') && (b == B(']') ==> front)
  }

  /** The element can be written where it is; in front stands the first one. */
  predicate Writable(e: Elem, front: bool) {
    match e
    case Char(c) => Plain(c, front)
    case Range(lo, hi) => Plain(lo, front) && Plain(hi, false)
    case Letter(cl) => cl != 0
  }

  /** What is written is read so: no character is followed by a `-` that makes a range of it. */
  predicate Readable(l: seq<Elem>, front: bool)
    decreases |l|
  {
    l != [] ==>
      && Writable(l[0], front) && Readable(l[1..], false)
      && (l[0].Char? && |l| > 1 && Written(l[1])[0] == B('-') ==> l[1..] == [Char(B('-'))])
  }

  /** The text stands in the pattern at `k`. */
  predicate Stands(p: Text, k: nat, t: Text) {
    k + |t| <= |p| && forall i {:trigger t[i]} :: 0 <= i < |t| ==> p[k + i] == t[i]
  }

  lemma StandsParts(p: Text, k: nat, a: Text, b: Text)
    requires Stands(p, k, a + b)
    ensures Stands(p, k, a) && Stands(p, k + |a|, b)
  {
    forall i | 0 <= i < |a| ensures p[k + i] == a[i] { assert (a + b)[i] == a[i]; }
    forall i | 0 <= i < |b| ensures p[k + |a| + i] == b[i] { assert (a + b)[|a| + i] == b[i]; }
  }

  /** The set goes on behind an element. */
  lemma EndBehind(p: Text, k: nat, e: Elem, front: bool)
    requires Writable(e, front) && Stands(p, k, Written(e)) && k + |Written(e)| < |p|
    ensures var k' := k + |Written(e)|;
      SetEnd(p, k) == if p[k'] == B(']') then Some(k' + 1) else SetEnd(p, k')
  {
    assert p[k + 0] == Written(e)[0];
    match e {
      case Char(_) =>
      case Letter(cl) => assert p[k + 1] == Written(e)[1] == cl;
      case Range(_, hi) =>
        assert p[k + 1] == Written(e)[1] == B('-') && p[k + 2] == Written(e)[2] == hi;
        assert SetEnd(p, k) == SetEnd(p, k + 1) == SetEnd(p, k + 2);
    }
  }

  lemma {:induction false} EndSpelled(p: Text, k: nat, l: seq<Elem>, front: bool)
    requires l != [] && Readable(l, front) && Stands(p, k, Spelled(l) + [B(']')])
    ensures SetEnd(p, k) == Some(k + |Spelled(l)| + 1)
    decreases |l|
  {
    hide Stands, Writable, SetEnd, Written;
    var t, rest := Written(l[0]), Spelled(l[1..]) + [B(']')];
    assert Spelled(l) + [B(']')] == t + rest;
    StandsParts(p, k, t, rest);
    EndBehind(p, k, l[0], front);
    FirstByte(p, k + |t|, rest);
    if |l| > 1 {
      FirstPlain(l[1..]);
      EndSpelled(p, k + |t|, l[1..], false);
    }
  }

  lemma FirstByte(p: Text, k: nat, t: Text)
    requires Stands(p, k, t) && t != []
    ensures k < |p| && p[k] == t[0]
  {
    assert p[k + 0] == t[0];
  }

  lemma FirstPlain(l: seq<Elem>)
    requires l != [] && Readable(l, false)
    ensures Spelled(l) != [] && Spelled(l)[0] == Written(l[0])[0] != B(']')
  {
  }

  lemma InBehind(c: Byte, p: Text, k: nat, e: Elem, front: bool, ec: nat, sig: bool)
    requires Writable(e, front) && Stands(p, k, Written(e)) && k + |Written(e)| <= ec <= |p|
    requires e.Char? && k + 2 < ec ==> p[k + 1] != B('-')
    ensures InSet(c, p, k, ec, sig) == if Hits(c, e) then sig else InSet(c, p, k + |Written(e)|, ec, sig)
  {
    assert p[k + 0] == Written(e)[0];
    match e {
      case Char(_) =>
      case Letter(cl) => assert p[k + 1] == Written(e)[1] == cl;
      case Range(_, hi) => assert p[k + 1] == Written(e)[1] == B('-') && p[k + 2] == Written(e)[2] == hi;
    }
  }

  /** From an element on, the set matches what one of the elements matches. */
  lemma {:induction false} InSpelled(c: Byte, p: Text, k: nat, l: seq<Elem>, front: bool, sig: bool)
    requires Readable(l, front) && Stands(p, k, Spelled(l))
    ensures InSet(c, p, k, k + |Spelled(l)|, sig) == if exists e :: e in l && Hits(c, e) then sig else !sig
    decreases |l|
  {
    hide Stands, Writable, Hits, Written;
    if l != [] {
      var t, rest := Written(l[0]), Spelled(l[1..]);
      StandsParts(p, k, t, rest);
      if |l| > 1 { NextStands(p, k + |t|, l[1..]); }
      CharSize(l[0]);
      StandsWithin(p, k, Spelled(l));
      InBehind(c, p, k, l[0], front, k + |Spelled(l)|, sig);
      InSpelled(c, p, k + |t|, l[1..], false, sig);
      AnyHits(c, l);
    }
  }

  lemma CharSize(e: Elem)
    ensures e.Char? <==> |Written(e)| == 1
  {
  }

  lemma StandsWithin(p: Text, k: nat, t: Text)
    requires Stands(p, k, t)
    ensures k + |t| <= |p|
  {
  }

  lemma AnyHits(c: Byte, l: seq<Elem>)
    requires l != []
    ensures (exists e :: e in l && Hits(c, e)) <==> Hits(c, l[0]) || exists e :: e in l[1..] && Hits(c, e)
  {
    hide Hits;
    if Hits(c, l[0]) { assert l[0] in l; }
    forall e | e in l[1..] ensures e in l {}
  }

  lemma NextStands(p: Text, k: nat, l: seq<Elem>)
    requires l != [] && Stands(p, k, Spelled(l))
    ensures k < |p| && p[k] == Written(l[0])[0] && (l == [Char(B('-'))] ==> |Spelled(l)| == 1)
  {
    assert Spelled(l)[0] == Written(l[0])[0];
    FirstByte(p, k, Spelled(l));
  }

  /** The text of a set. */
  function SetText(negated: bool, l: seq<Elem>): Text {
    [B('[')] + (if negated then [B('^')] else []) + Spelled(l) + [B(']')]
  }

  /** A set may be written so: it is not empty, and a `^` in front would negate it. */
  predicate IsSet(negated: bool, l: seq<Elem>) {
    l != [] && Readable(l, true) && (negated || Written(l[0])[0] != B('^'))
  }

  /** A set matches a byte exactly if one of its elements does, and a negated one exactly if none does. */
  lemma SetMatches(c: Byte, p: Text, j: nat, negated: bool, l: seq<Elem>)
    requires IsSet(negated, l) && Stands(p, j, SetText(negated, l))
    ensures At(p, j) != 0 && ClassEnd(p, j) == Some(j + |SetText(negated, l)|)
    ensures SingleMatch(c, p, j, j + |SetText(negated, l)|) <==> ((exists e :: e in l && Hits(c, e)) != negated)
  {
    hide SetEnd, InSet, Readable;
    SetStands(p, j, negated, l);
    var k := if negated then j + 2 else j + 1;
    EndSpelled(p, k, l, true);
    InSpelled(c, p, k, l, true, !negated);
  }

  lemma SetStands(p: Text, j: nat, negated: bool, l: seq<Elem>)
    requires IsSet(negated, l) && Stands(p, j, SetText(negated, l))
    ensures var k := if negated then j + 2 else j + 1;
      && Stands(p, k, Spelled(l) + [B(']')]) && Stands(p, k, Spelled(l)) && j + 1 < |p| && p[j] == B('[')
      && (p[j + 1] == B('^') <==> negated) && j + |SetText(negated, l)| == k + |Spelled(l)| + 1
  {
    hide Stands, Spelled, Readable;
    var a, b := [B('[')] + (if negated then [B('^')] else []), Spelled(l) + [B(']')];
    assert SetText(negated, l) == a + b;
    StandsParts(p, j, a, b);
    StandsParts(p, j + |a|, Spelled(l), [B(']')]);
    FirstByte(p, j, a);
    NextStands(p, j + |a|, l);
    if negated { SecondByte(p, j, a); }
  }

  lemma SecondByte(p: Text, k: nat, t: Text)
    requires Stands(p, k, t) && |t| == 2
    ensures k + 1 < |p| && p[k + 1] == t[1]
  {
  }

  /** `[x-y]` matches the bytes from x to y. */
  lemma RangeMatches(c: Byte, p: Text, j: nat, x: Byte, y: Byte)
    requires Plain(x, true) && x != B('^') && Plain(y, false) && Stands(p, j, [B('['), x, B('-'), y, B(']')])
    ensures At(p, j) != 0 && ClassEnd(p, j) == Some(j + 5) && (SingleMatch(c, p, j, j + 5) <==> x <= c <= y)
  {
    var l := [Range(x, y)];
    assert l[1..] == [] && Spelled(l) == Written(l[0]) + [] == [x, B('-'), y];
    assert SetText(false, l) == [B('['), x, B('-'), y, B(']')];
    assert Readable(l[1..], false) && Writable(l[0], true);
    SetMatches(c, p, j, false, l);
    assert Range(x, y) in l;
  }

  // ------------------------------------------------------------- single characters and items

  /** A dot matches every byte; `%` before a letter gives its class; any other byte stands for itself. */
  lemma SingleMatches(c: Byte, p: Text, j: nat)
    requires j < |p| && p[j] != 0 && p[j] != B('[')
    ensures p[j] == B('.') ==> ClassEnd(p, j) == Some(j + 1) && SingleMatch(c, p, j, j + 1)
    ensures p[j] == B('%') && j + 1 < |p| && p[j + 1] != 0 ==>
      ClassEnd(p, j) == Some(j + 2) && (SingleMatch(c, p, j, j + 2) <==> MatchClass(c, p[j + 1]))
    ensures p[j] != B('.') && p[j] != B('%') ==> ClassEnd(p, j) == Some(j + 1) && (SingleMatch(c, p, j, j + 1) <==> c == p[j])
  {
  }

  /** The characters behind a class say how often it may be repeated. */
  lemma Repetitions(p: Text, ep: nat)
    ensures RepAt(p, ep) == if ep >= |p| then One else if p[ep] == B('*') then Star else if p[ep] == B('+') then Plus
      else if p[ep] == B('-') then Lazy else if p[ep] == B('?') then Opt else One
  {
  }

  /** The other items: captures, positions, `%b`, `%f`, back-references, and `$` at the end. */
  lemma Items(p: Text, j: nat)
    requires j < |p| && forall i :: 0 <= i < |p| ==> p[i] != 0
    ensures var next := if j + 1 < |p| then p[j + 1] else 0;
      && (p[j] == B('(') ==> FrontAt(p, j) == if next == B(')') then Front(Start(CAP_POSITION), j + 2) else Front(Start(CAP_UNFINISHED), j + 1))
      && (p[j] == B(')') ==> FrontAt(p, j) == Front(Stop, j + 1))
      && (p[j] == B('%') && next == B('b') && j + 3 < |p| ==> FrontAt(p, j) == Front(Balance(p[j + 2], p[j + 3]), j + 4))
      && (p[j] == B('%') && B('0') <= next <= B('9') ==> FrontAt(p, j) == Front(Back(next), j + 2))
      && (p[j] == B('$') && j + 1 == |p| ==> Parse(p, j) == Pattern([], AtEnd))
    ensures p[j] == B('%') && j + 2 < |p| && p[j + 1] == B('f') && p[j + 2] == B('[') && ClassEnd(p, j + 2).Some? ==>
      FrontAt(p, j) == Front(Frontier(j + 2, ClassEnd(p, j + 2).value), ClassEnd(p, j + 2).value)
  {
  }

  /** A frontier is where the set matches the next byte and not the one before; the ends of the
      subject count as zeros. */
  lemma FrontierMeans(s: Text, p: Text, j: nat, ep: nat, st: State)
    requires j < |p| && p[j] == B('[') && ep >= 1 && st.i <= |s|
    ensures var before, next := if st.i > 0 then s[st.i - 1] else 0, if st.i < |s| then s[st.i] else 0;
      Step(s, p, Frontier(j, ep), st) == if SingleMatch(next, p, j, ep) && !SingleMatch(before, p, j, ep) then To(st) else Nowhere
  {
  }

  /** What is wrong with an item, and where a class with its repetition ends. */
  lemma MoreItems(p: Text, j: nat)
    requires j < |p| && forall i :: 0 <= i < |p| ==> p[i] != 0
    ensures var next := if j + 1 < |p| then p[j + 1] else 0;
      && (p[j] == B('%') && next == B('b') && j + 3 >= |p| ==> FrontAt(p, j) == Wrong("unbalanced pattern"))
      && (p[j] == B('%') && next == B('f') && (j + 2 >= |p| || p[j + 2] != B('[')) ==> FrontAt(p, j) == Wrong("missing '[' after '%f' in pattern"))
      && (p[j] == B('%') && next == 0 ==> FrontAt(p, j) == Wrong("malformed pattern (ends with '%')"))
      && (p[j] == B('[') && ClassEnd(p, j).None? ==> FrontAt(p, j) == Wrong("malformed pattern (missing ']')"))
      && (p[j] !in {B('('), B(')')} && !(p[j] == B('%') && (next in {B('b'), B('f')} || IsDigit(next))) && ClassEnd(p, j).Some? ==>
          var ep := ClassEnd(p, j).value;
          var suffix := ep < |p| && p[ep] in {B('*'), B('+'), B('-'), B('?')};
          FrontAt(p, j) == Front(Chars(j, ep, RepAt(p, ep)), if suffix then ep + 1 else ep))
  {
  }

  // ------------------------------------------------------------- what the other items do

  /** A capture is opened at the position, unless there are 32 already. */
  lemma StartMeans(s: Text, p: Text, what: int, st: State)
    ensures Step(s, p, Start(what), st)
         == if |st.caps| < 32 then To(State(st.i, st.caps + [Capture(st.i, what)])) else Raise("too many captures")
  {
  }

  /** The last capture that is open gets its length; without one it is an error. */
  lemma StopMeans(s: Text, p: Text, st: State, k: nat)
    requires k < |st.caps| ==> st.caps[k].len == CAP_UNFINISHED
    requires forall m :: k < m < |st.caps| ==> st.caps[m].len != CAP_UNFINISHED
    requires k >= |st.caps| ==> forall m :: 0 <= m < |st.caps| ==> st.caps[m].len != CAP_UNFINISHED
    ensures Step(s, p, Stop, st) == if k < |st.caps|
      then To(State(st.i, st.caps[k := Capture(st.caps[k].init, st.i - st.caps[k].init)])) else Raise("invalid pattern capture")
  {
    if k < |st.caps| {
      assert LastOpen(st.caps, k);
      forall m: nat | LastOpen(st.caps, m) ensures m == k {}
    }
  }

  /** `%1` to `%9` match the text of a closed capture again. */
  lemma BackMeans(s: Text, p: Text, d: Byte, st: State)
    requires B('0') <= d <= B('9')
    ensures var n := d as int - 48 - 1;
      Step(s, p, Back(d), st) ==
        if n < 0 || n >= |st.caps| || st.caps[n].len == CAP_UNFINISHED then Raise("invalid capture index")
        else
          var c := st.caps[n];
          if 0 <= c.len && c.init + c.len <= |s| && st.i + c.len <= |s| && s[st.i..st.i + c.len] == s[c.init..c.init + c.len]
          then To(State(st.i + c.len, st.caps)) else Nowhere
  {
  }

  function Count(s: Text, c: Byte, i: nat, k: nat): nat
    requires i <= k <= |s|
  {
    if i == k then 0 else Count(s, c, i, k - 1) + (if s[k - 1] == c then 1 else 0)
  }

  lemma {:induction false} NestCounts(s: Text, b: Byte, e: Byte, i: nat, k: nat)
    requires i < k <= |s| && s[i] == b
    ensures b != e ==> Nest(s, b, e, i, k) == Count(s, b, i, k) - Count(s, e, i, k)
    ensures b == e ==> Nest(s, b, e, i, k) == 2 - Count(s, b, i, k)
    decreases k
  {
    if k > i + 1 { NestCounts(s, b, e, i, k - 1); }
  }

  /** As many closings as openings have come at `q`, and fewer before. */
  predicate Even(s: Text, b: Byte, e: Byte, i: nat, q: nat)
    requires i < q <= |s|
  {
    s[i] == b && Count(s, b, i, q) == Count(s, e, i, q) && forall k :: i < k < q ==> Count(s, b, i, k) > Count(s, e, i, k)
  }

  /** `%bxy`: from an x to the first position where as many y have come as x. */
  lemma BalanceMeans(s: Text, b: Byte, e: Byte, i: nat, q: nat)
    requires i < q <= |s| && b != e
    ensures Balanced(s, b, e, i, q) <==> Even(s, b, e, i, q)
  {
    if Balanced(s, b, e, i, q) {
      NestCounts(s, b, e, i, q);
      forall k | i < k < q ensures Count(s, b, i, k) > Count(s, e, i, k) {
        assert Nest(s, b, e, i, k) > 0;
        NestCounts(s, b, e, i, k);
      }
    }
    if Even(s, b, e, i, q) {
      NestCounts(s, b, e, i, q);
      assert q > i + 1 by { NestCounts(s, b, e, i, i + 1); }
      forall k | i < k < q ensures Nest(s, b, e, i, k) > 0 {
        assert Count(s, b, i, k) > Count(s, e, i, k);
        NestCounts(s, b, e, i, k);
      }
    }
  }

  /** `%bxx`: from an x to the next one. */
  lemma BalanceSame(s: Text, b: Byte, i: nat, q: nat)
    requires i < q <= |s|
    ensures Balanced(s, b, b, i, q) <==> s[i] == b && i + 1 < q && s[q - 1] == b && forall k :: i < k < q - 1 ==> s[k] != b
  {
    if s[i] == b && i + 1 < q {
      NestCounts(s, b, b, i, q);
      NestCounts(s, b, b, i, q - 1);
      NextOne(s, b, i, q - 1);
      assert Count(s, b, i, q) == Count(s, b, i, q - 1) + (if s[q - 1] == b then 1 else 0);
      forall k | i < k < q
        ensures Nest(s, b, b, i, k) == 2 - Count(s, b, i, k) && (Count(s, b, i, q - 1) == 1 ==> Count(s, b, i, k) == 1)
      {
        NestCounts(s, b, b, i, k);
        NextOne(s, b, i, k);
      }
    }
  }

  lemma {:induction false} NextOne(s: Text, b: Byte, i: nat, q: nat)
    requires i < q <= |s| && s[i] == b
    ensures Count(s, b, i, q) == 1 <==> forall k :: i < k < q ==> s[k] != b
    ensures Count(s, b, i, q) >= 1
    decreases q
  {
    if q > i + 1 {
      NextOne(s, b, i, q - 1);
      if Count(s, b, i, q) == 1 { assert s[q - 1] != b; }
    }
  }

  /** The balanced text is where the item leads to. */
  lemma BalanceLeads(s: Text, p: Text, b: Byte, e: Byte, st: State, q: nat)
    requires Balanced(s, b, e, st.i, q)
    ensures Step(s, p, Balance(b, e), st) == To(State(q, st.caps))
  {
    forall r: nat | Balanced(s, b, e, st.i, r) ensures r == q {
      BalanceOnce(s, b, e, st.i, r, q);
      BalanceOnce(s, b, e, st.i, q, r);
    }
  }

  lemma BalanceOnce(s: Text, b: Byte, e: Byte, i: nat, q: nat, r: nat)
    requires Balanced(s, b, e, i, q) && Balanced(s, b, e, i, r)
    ensures q >= r
  {
    hide Nest;
  }

  lemma BalanceFails(s: Text, p: Text, b: Byte, e: Byte, st: State)
    requires forall q: nat :: !Balanced(s, b, e, st.i, q)
    ensures Step(s, p, Balance(b, e), st) == Nowhere
  {
  }
}
