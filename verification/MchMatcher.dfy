/** The backtracking matcher with its captures. */
module MchMatcher {
  import opened Common
  import opened MchPattern

  /** The end of the match, or NULL, or an error raised on the way. */
  datatype Result = Found(end: nat) | Failed | Error(message: string)

  class MatchState {
    const src: Text
    const pat: Text
    var level: nat
    const capture: array<Capture>

    ghost predicate Valid()
      reads this
    {
      capture.Length == LUA_MAXCAPTURES && level <= LUA_MAXCAPTURES
    }

    /** Position `i` with the captures so far. */
    ghost function At(i: nat): State
      reads this, capture
      requires Valid()
    {
      State(i, capture[..level])
    }

    /** Everything is as it was. */
    twostate predicate Same()
      reads this, capture
      requires old(Valid())
    {
      level == old(level) && capture[..level] == old(capture[..level])
    }

    /** The answer `g`, with its captures in place; after a failure they are as they were. */
    twostate predicate Agrees(r: Result, g: Outcome)
      reads this, capture
      requires old(Valid()) && Valid()
    {
      match r
      case Found(end) => g == Done(At(end))
      case Failed => g.Failure? && Same()
      case Error(message) => g == Fault(message)
    }

    /** `check_capture`. */
    method CheckCapture(l: Byte) returns (ok: bool, k: nat)
      requires Valid()
      ensures ok <==> Closed(capture[..level], l)
      ensures ok ==> k == l - 49
    {
      if l < 49 || l - 49 >= level || capture[l - 49].len == CAP_UNFINISHED { return false, 0; }
      return true, l - 49;
    }

    /** `capture_to_close`: the last unfinished capture. */
    method CaptureToClose() returns (ok: bool, k: nat)
      requires Valid()
      ensures ok ==> LastOpen(capture[..level], k)
      ensures !ok ==> forall m :: 0 <= m < level ==> capture[m].len != CAP_UNFINISHED
    {
      var n: nat := level;
      while n > 0
        invariant 0 <= n <= level && forall m :: n <= m < level ==> capture[m].len != CAP_UNFINISHED
      {
        n := n - 1;
        if capture[n].len == CAP_UNFINISHED { return true, n; }
      }
      return false, 0;
    }

    /** `matchbalance`, after its checks: the position behind the character that balances the
        first one. */
    method MatchBalance(i: nat, b: Byte, e: Byte) returns (r: Option<nat>)
      requires i <= |src| && b != 0
      ensures match r
              case Some(q) => Balanced(src, b, e, i, q)
              case None => forall q: nat :: !Balanced(src, b, e, i, q)
    {
      if MchPattern.At(src, i) != b { return None; }
      var s, cont := i + 1, 1;
      while s < |src|
        invariant i < s <= |src| && cont >= 1 && cont == Nest(src, b, e, i, s) && forall k :: i < k <= s ==> Nest(src, b, e, i, k) > 0
      {
        if src[s] == e {
          cont := cont - 1;
          if cont == 0 { return Some(s + 1); }
        } else if src[s] == b {
          cont := cont + 1;
        }
        s := s + 1;
      }
      return None;
    }

    /** `match_capture`: the text of an earlier, closed capture again. */
    method MatchCapture(i: nat, l: Byte) returns (r: Result)
      requires Valid() && Within(src, At(i))
      ensures r == match Step(src, pat, Back(l), At(i))
                   case To(st) => Found(st.i)
                   case Nowhere => Failed
                   case Raise(message) => Error(message)
      ensures r.Found? ==> i <= r.end <= |src| && Step(src, pat, Back(l), At(i)) == To(At(r.end))
    {
      var ok, k := CheckCapture(l);
      if !ok { return Error("invalid capture index"); }
      var c := capture[k];
      assert c == At(i).caps[k];
      if c.len >= 0 && |src| - i >= c.len && src[c.init..c.init + c.len] == src[i..i + c.len] { return Found(i + c.len); }
      return Failed;
    }

    /** `start_capture`. */
    method StartCapture(i: nat, j: nat, what: int) returns (r: Result)
      requires Valid() && Within(src, At(i)) && j <= |pat| && (what == CAP_POSITION || what == CAP_UNFINISHED)
      modifies this, capture
      ensures Valid() && Agrees(r, match Step(src, pat, Start(what), old(At(i)))
                                   case To(st) => Goal(src, pat, st, j)
                                   case Nowhere => Failure
                                   case Raise(message) => Fault(message))
      decreases |pat| - j, 2
    {
      hide Goal;
      ghost var before := capture[..level];
      if level >= LUA_MAXCAPTURES { return Error("too many captures"); }
      capture[level] := Capture(i, what);
      level := level + 1;
      assert capture[..level] == before + [Capture(i, what)];
      r := Match(i, j);
      if r.Failed? {
        level := level - 1;
        assert capture[..level] == capture[..level + 1][..level];
      }
    }

    /** `end_capture`. */
    method EndCapture(i: nat, j: nat) returns (r: Result)
      requires Valid() && Within(src, At(i)) && j <= |pat|
      modifies this, capture
      ensures Valid() && Agrees(r, match Step(src, pat, Stop, old(At(i)))
                                   case To(st) => Goal(src, pat, st, j)
                                   case Nowhere => Failure
                                   case Raise(message) => Fault(message))
      decreases |pat| - j, 2
    {
      hide Goal;
      ghost var before := capture[..level];
      var ok, l := CaptureToClose();
      if !ok { return Error("invalid pattern capture"); }
      capture[l] := capture[l].(len := i - capture[l].init);
      ghost var closed := capture[..level];
      assert closed == before[l := before[l].(len := i - before[l].init)];
      r := Match(i, j);
      if r.Failed? {
        assert capture[..level] == closed;
        capture[l] := capture[l].(len := CAP_UNFINISHED);
        assert capture[..level] == closed[l := before[l]] == before;
      }
    }

    /** `max_expand`: as many characters as fit, and then fewer and fewer. */
    method MaxExpand(s: nat, j: nat, ep: nat, ghost it: Item) returns (r: Result)
      requires Valid() && Within(src, At(s)) && j < ep < |pat| && it.Chars? && it.j == j && it.ep == ep
      modifies this, capture
      ensures Valid() && Agrees(r, Longest(src, pat, old(At(s)), ep + 1, Run(src, pat, it, s)))
      decreases |pat| - ep - 1, 2
    {
      hide Goal;
      var n := 0;
      while s + n < |src| && SingleMatch(src[s + n], pat, j, ep)
        invariant 0 <= n && s + n <= |src| && n + Run(src, pat, it, s + n) == Run(src, pat, it, s)
        decreases |src| - n
      {
        n := n + 1;
      }
      while n >= 0
        invariant -1 <= n && s + n <= |src| && Valid() && Same()
        invariant Longest(src, pat, old(At(s)), ep + 1, Run(src, pat, it, s)) == if n >= 0 then Longest(src, pat, old(At(s)), ep + 1, n) else Failure
        decreases n
      {
        r := Match(s + n, ep + 1);
        if !r.Failed? { return r; }
        n := n - 1;
      }
      return Failed;
    }

    /** `min_expand`: as few characters as possible. */
    method MinExpand(i: nat, j: nat, ep: nat, ghost it: Item) returns (r: Result)
      requires Valid() && Within(src, At(i)) && j < ep < |pat| && it.Chars? && it.j == j && it.ep == ep
      modifies this, capture
      ensures Valid() && Agrees(r, Shortest(src, pat, it, old(At(i)), ep + 1))
      decreases |pat| - ep - 1, 2
    {
      hide Goal;
      var s := i;
      while true
        invariant i <= s <= |src| && Valid() && Same()
        invariant Shortest(src, pat, it, old(At(i)), ep + 1) == Shortest(src, pat, it, At(s), ep + 1)
        decreases |src| - s
      {
        r := Match(s, ep + 1);
        if !r.Failed? { return r; }
        if s < |src| && SingleMatch(src[s], pat, j, ep) {
          s := s + 1;
        } else {
          return Failed;
        }
      }
    }

    /** The cases `%b`, `%f` and `%0` to `%9`: where to go on in the subject and in the pattern. */
    method Special(s: nat, p: nat) returns (r: Result, q: nat)
      requires Valid() && Within(src, At(s)) && MchPattern.At(pat, p) == L_ESC
      requires SpecialKind(MchPattern.At(pat, p + 1))
      ensures match r
              case Found(e) => p < q <= |pat| && s <= e <= |src| && Goal(src, pat, At(s), p) == Goal(src, pat, At(e), q)
              case Failed => Goal(src, pat, At(s), p).Failure?
              case Error(message) => Goal(src, pat, At(s), p) == Fault(message)
    {
      hide Goal, MatchBracketClass, ClassEnd;
      var d := MchPattern.At(pat, p + 1);
      SpecialSteps(s, p);
      if d == 98 {
        if MchPattern.At(pat, p + 2) == 0 || MchPattern.At(pat, p + 3) == 0 { return Error("unbalanced pattern"), p; }
        var e := MatchBalance(s, MchPattern.At(pat, p + 2), MchPattern.At(pat, p + 3));
        return if e.Some? then Found(e.value) else Failed, p + 4;
      } else if d == 102 {
        if MchPattern.At(pat, p + 2) != BRACKET { return Error("missing '[' after '%f' in pattern"), p; }
        var ep := ClassEnd(pat, p + 2);
        if ep.None? { return Error("malformed pattern (missing ']')"), p; }
        q := ep.value;
        var previous := if s == 0 then 0 else src[s - 1];
        if MatchBracketClass(previous, pat, p + 2, q - 1) || !MatchBracketClass(MchPattern.At(src, s), pat, p + 2, q - 1) { return Failed, q; }
        return Found(s), q;
      } else {
        r := MatchCapture(s, d);
        q := p + 2;
      }
    }

    /** What the special items mean for the answer. */
    lemma SpecialSteps(s: nat, p: nat)
      requires Valid() && s <= |src| && MchPattern.At(pat, p) == L_ESC && SpecialKind(MchPattern.At(pat, p + 1))
      ensures var f := FrontAt(pat, p);
        Goal(src, pat, At(s), p) ==
          if f.Wrong? then Fault(f.message)
          else match Step(src, pat, f.it, At(s))
            case To(st) => Goal(src, pat, st, f.next)
            case Nowhere => Failure
            case Raise(message) => Fault(message)
    {
      hide Goal, ClassEnd;
      if FrontAt(pat, p).Wrong? { GoalWrong(src, pat, At(s), p); } else { GoalStep(src, pat, At(s), p); }
    }

    /** `match`. */
    method Match(i: nat, j: nat) returns (r: Result)
      requires Valid() && Within(src, At(i)) && j <= |pat|
      modifies this, capture
      ensures Valid() && Agrees(r, Goal(src, pat, old(At(i)), j))
      decreases |pat| - j, 1
    {
      hide Goal, Longest, Shortest, SingleMatch, ClassEnd, Run, Step, Closed;
      var s, p := i, j;
      while true
        invariant i <= s <= |src| && j <= p <= |pat| && Valid() && Same()
        invariant Goal(src, pat, old(At(i)), j) == Goal(src, pat, At(s), p)
        decreases |pat| - p
      {
        var c, d := MchPattern.At(pat, p), MchPattern.At(pat, p + 1);
        GoalEnd(src, pat, At(s), p);
        if c == OPEN {
          GoalStep(src, pat, At(s), p);
          if d == CLOSE { r := StartCapture(s, p + 2, CAP_POSITION); } else { r := StartCapture(s, p + 1, CAP_UNFINISHED); }
          return r;
        } else if c == CLOSE {
          GoalStep(src, pat, At(s), p);
          r := EndCapture(s, p + 1);
          return r;
        } else if c == L_ESC && SpecialKind(d) {
          var m, q := Special(s, p);
          if !m.Found? { return m; }
          s, p := m.end, q;
        } else if c == 0 {
          return Found(s);
        } else if c == DOLLAR && d == 0 {
          return if s == |src| then Found(s) else Failed;
        } else {
          var ce := ClassEnd(pat, p);
          if ce.None? {
            GoalWrong(src, pat, At(s), p);
            return Error(BadClass(pat, p));
          }
          var ep := ce.value;
          GoalClass(src, pat, At(s), p);
          var m := s < |src| && SingleMatch(src[s], pat, p, ep);
          var suffix := MchPattern.At(pat, ep);
          if suffix == QUESTION {
            if m {
              r := Match(s + 1, ep + 1);
              if !r.Failed? { return r; }
            }
            p := ep + 1;
          } else if suffix == STAR || suffix == PLUS || suffix == MINUS {
            r := Repeat(s, p, ep, m);
            return r;
          } else {
            if !m { return Failed; }
            s, p := s + 1, ep;
          }
        }
      }
    }

    /** The suffixes `*`, `+` and `-`. */
    method Repeat(s: nat, p: nat, ep: nat, m: bool) returns (r: Result)
      requires Valid() && Within(src, At(s)) && ItemAt(pat, p) && FrontAt(pat, p).Front? && FrontAt(pat, p).it.Chars?
      requires FrontAt(pat, p).it.ep == ep && p < ep < |pat| && FrontAt(pat, p).it.rep in {Star, Plus, Lazy}
      requires m <==> Fits(src, pat, FrontAt(pat, p).it, s)
      modifies this, capture
      ensures Valid() && Agrees(r, Goal(src, pat, old(At(s)), p))
      decreases |pat| - p, 0
    {
      hide Goal, Longest, Shortest, SingleMatch, ClassEnd, Run;
      ghost var it := FrontAt(pat, p).it;
      GoalClass(src, pat, At(s), p);
      var suffix := MchPattern.At(pat, ep);
      if suffix == STAR {
        r := MaxExpand(s, p, ep, it);
      } else if suffix == PLUS {
        if m { r := MaxExpand(s + 1, p, ep, it); } else { r := Failed; }
      } else {
        r := MinExpand(s, p, ep, it);
      }
    }

    constructor (src: Text, pat: Text)
      ensures this.src == src && this.pat == pat && Valid() && fresh(capture) && level == 0
    {
      this.src, this.pat, level := src, pat, 0;
      capture := new Capture[LUA_MAXCAPTURES](_ => Capture(0, CAP_UNFINISHED));
    }

    /** The search of `string.find`: the first position from `init` on where the pattern
        matches, or only `init` if the pattern starts with a caret; the search also ends where
        an error is raised. */
    method StrFind(init: nat) returns (start: nat, r: Result)
      requires Valid() && init <= |src|
      modifies this, capture
      ensures Valid() && init <= start <= |src|
      ensures var anchor := MchPattern.At(pat, 0) == CARET; var j := if anchor then 1 else 0;
        && (anchor ==> start == init)
        && (r.Found? ==> Goal(src, pat, State(start, []), j) == Done(At(r.end)))
        && (r.Error? ==> Goal(src, pat, State(start, []), j) == Fault(r.message))
        && (!r.Failed? ==> forall k :: init <= k < start ==> Goal(src, pat, State(k, []), j).Failure?)
        && (r.Failed? ==> forall k :: init <= k <= (if anchor then init else |src|) ==> Goal(src, pat, State(k, []), j).Failure?)
    {
      hide Goal;
      var anchor := MchPattern.At(pat, 0) == CARET;
      var j := if anchor then 1 else 0;
      start := init;
      while true
        invariant Valid() && init <= start <= |src| && (anchor ==> start == init)
        invariant forall k :: init <= k < start ==> Goal(src, pat, State(k, []), j).Failure?
        decreases |src| - start
      {
        level := 0;
        assert At(start) == State(start, []);
        r := Match(start, j);
        if !r.Failed? { return; }
        if start == |src| || anchor { return; }
        start := start + 1;
      }
    }
  }

  /** `b`, `f` or a digit. */
  predicate SpecialKind(d: Byte) {
    d == 98 || d == 102 || IsDigit(d)
  }
}
