/** The `%q` form of a string, and how a string literal is read. */
module QuoteText {
  import opened Common

  const QUOTE: Byte := 34
  const APOSTROPHE: Byte := 39
  const BACKSLASH: Byte := 92
  const LF: Byte := 10
  const CR: Byte := 13
  const UCHAR_MAX: nat := 255

  // ------------------------------------------------------------------ writing

  function QuotedByte(c: Byte): (b: Bytes)
    ensures b != [] && b[0] != LF && b[0] != CR && b[0] != QUOTE
  {
    if c == QUOTE || c == BACKSLASH || c == LF then [BACKSLASH, c]
    else if c == CR then [BACKSLASH, 114]
    else if c == 0 then [BACKSLASH, 48, 48, 48]
    else [c]
  }

  function QuotedBytes(s: Bytes): Bytes {
    if s == [] then [] else QuotedByte(s[0]) + QuotedBytes(s[1..])
  }

  /** What `%q` writes for `s`. */
  function Quoted(s: Bytes): Bytes {
    [QUOTE] + QuotedBytes(s) + [QUOTE]
  }

  lemma {:induction false} QuotedNext(s: Bytes, i: nat)
    requires i < |s|
    ensures QuotedBytes(s[..i + 1]) == QuotedBytes(s[..i]) + QuotedByte(s[i])
    decreases i
  {
    if i > 0 {
      QuotedNext(s[1..], i - 1);
      assert s[..i + 1][1..] == s[1..][..i] && s[..i][1..] == s[1..][..i - 1];
    }
  }

  // ------------------------------------------------------------------ reading

  predicate IsNewline(c: Byte) { c == LF || c == CR }

  /** The number written by decimal digits. */
  function Number(b: Bytes): int {
    if b == [] then 0 else 10 * Number(b[..|b| - 1]) + (b[|b| - 1] as int - 48)
  }

  /** How many of the first three bytes are digits, up to the first that is not. */
  function Digits(b: Bytes): (n: nat)
    ensures n <= 3 && n <= |b| && (forall i :: 0 <= i < n ==> IsDigit(b[i])) && (n < 3 && n < |b| ==> !IsDigit(b[n]))
  {
    if |b| == 0 || !IsDigit(b[0]) then 0
    else if |b| == 1 || !IsDigit(b[1]) then 1
    else if |b| == 2 || !IsDigit(b[2]) then 2
    else 3
  }

  /** A line end: one character, or two different ones. */
  function NewlineSize(b: Bytes): (n: nat)
    requires b != []
    ensures 1 <= n <= |b|
  {
    if |b| > 1 && IsNewline(b[1]) && b[1] != b[0] then 2 else 1
  }

  /** The letters that stand for a control character, and that character. */
  function Control(c: Byte): Option<Byte> {
    match c
    case 97 => Some(7)
    case 98 => Some(8)
    case 102 => Some(12)
    case 110 => Some(10)
    case 114 => Some(13)
    case 116 => Some(9)
    case 118 => Some(11)
    case _ => None
  }

  /** What stands behind a backslash: the byte it means, the size of its text, and whether it
      ends a line; or a decimal number that is no byte. */
  datatype Escape = Means(c: Byte, size: nat, newline: bool) | TooLarge

  function EscapeOf(b: Bytes): (e: Escape)
    requires b != []
    ensures e.Means? ==> 1 <= e.size <= |b|
  {
    if Control(b[0]).Some? then Means(Control(b[0]).value, 1, false)
    else if IsNewline(b[0]) then Means(LF, NewlineSize(b), true)
    else if IsDigit(b[0]) then
      NumberNat(b[..Digits(b)]);
      if Number(b[..Digits(b)]) > UCHAR_MAX then TooLarge else Means(Number(b[..Digits(b)]), Digits(b), false)
    else Means(b[0], 1, false)
  }

  lemma {:induction false} NumberNat(b: Bytes)
    requires forall i :: 0 <= i < |b| ==> IsDigit(b[i])
    ensures Number(b) >= 0
  {
    if b != [] { NumberNat(b[..|b| - 1]); }
  }

  /** A literal: its value, what follows its closing delimiter, and the line reached there. */
  datatype Literal = Literal(value: Bytes, rest: Bytes, line: int)

  const UNFINISHED_EOS := "unfinished string near <eof>"
  const UNFINISHED := "unfinished string"
  const TOO_LARGE := "escape sequence too large"
  const TOO_MANY_LINES := "chunk has too many lines"

  function Before(v: Bytes, o: Fallible<Literal>): Fallible<Literal> {
    match o
    case Returned(l) => Returned(Literal(v + l.value, l.rest, l.line))
    case Raised(w) => Raised(w)
  }

  /** Reading the text `b` behind an opening `del`, from line `line`. */
  function Reading(b: Bytes, del: Byte, line: int): Fallible<Literal>
    decreases |b|
  {
    if b == [] then Raised(UNFINISHED_EOS)
    else if b[0] == del then Returned(Literal([], b[1..], line))
    else if IsNewline(b[0]) then Raised(UNFINISHED)
    else if b[0] != BACKSLASH then Before([b[0]], Reading(b[1..], del, line))
    else if |b| == 1 then Raised(UNFINISHED_EOS)
    else
      match EscapeOf(b[1..])
      case TooLarge => Raised(TOO_LARGE)
      case Means(c, size, newline) =>
        if newline && line + 1 >= MAX_INT then Raised(TOO_MANY_LINES)
        else Before([c], Reading(b[1 + size..], del, if newline then line + 1 else line))
  }

  // ------------------------------------------------------------------ the round trip

  function Newlines(s: Bytes): nat {
    if s == [] then 0 else (if s[0] == LF then 1 else 0) + Newlines(s[1..])
  }

  lemma ZeroEscape(b: Bytes)
    ensures EscapeOf([48, 48, 48] + b) == Means(0, 3, false)
  {
    assert ([48, 48, 48] + b)[..3] == [48, 48, 48];
    assert [48, 48, 48][..2] == [48, 48] && [48, 48][..1] == [48] && [48][..0] == [];
  }

  lemma ByteRead(c: Byte, b: Bytes, line: int)
    requires b != [] && b[0] != CR
    ensures Reading(QuotedByte(c) + b, QUOTE, line)
         == if c == LF && line + 1 >= MAX_INT then Raised(TOO_MANY_LINES)
            else Before([c], Reading(b, QUOTE, if c == LF then line + 1 else line))
  {
    hide Number, Digits;
    var t := QuotedByte(c) + b;
    if c == QUOTE || c == BACKSLASH || c == LF {
      assert t[1..] == [c] + b && t[2..] == b;
    } else if c == CR {
      assert t[1..] == [114] + b && t[2..] == b;
    } else if c == 0 {
      assert t[1..] == [48, 48, 48] + b && t[4..] == b;
      ZeroEscape(b);
    } else {
      assert t[1..] == b;
    }
  }

  lemma EndRead(rest: Bytes, line: int)
    ensures Reading([QUOTE] + rest, QUOTE, line) == Returned(Literal([], rest, line))
  {
  }

  lemma {:induction false} BytesRead(s: Bytes, rest: Bytes, line: int)
    ensures Reading(QuotedBytes(s) + ([QUOTE] + rest), QUOTE, line)
         == if Newlines(s) > 0 && line + Newlines(s) >= MAX_INT then Raised(TOO_MANY_LINES)
            else Returned(Literal(s, rest, line + Newlines(s)))
  {
    hide Reading, QuotedByte;
    if s == [] {
      EndRead(rest, line);
      assert QuotedBytes(s) + ([QUOTE] + rest) == [QUOTE] + rest;
    } else {
      var b := QuotedBytes(s[1..]) + ([QUOTE] + rest);
      assert QuotedBytes(s) + ([QUOTE] + rest) == QuotedByte(s[0]) + b;
      ByteRead(s[0], b, line);
      BytesRead(s[1..], rest, if s[0] == LF then line + 1 else line);
      assert [s[0]] + s[1..] == s;
    }
  }

  /** Whatever follows it, the `%q` form of a string is read as that string, up to its end, one
      line further for every newline in it, unless that makes the chunk have too many lines. */
  lemma RoundTrip(s: Bytes, rest: Bytes, line: int)
    ensures (Quoted(s) + rest)[0] == QUOTE
    ensures Reading((Quoted(s) + rest)[1..], QUOTE, line)
         == if Newlines(s) > 0 && line + Newlines(s) >= MAX_INT then Raised(TOO_MANY_LINES)
            else Returned(Literal(s, rest, line + Newlines(s)))
  {
    assert (Quoted(s) + rest)[1..] == QuotedBytes(s) + ([QUOTE] + rest);
    BytesRead(s, rest, line);
  }

  /** Different strings have different forms, and no form begins with another one. */
  lemma QuotedPrefixFree(s: Bytes, p: Bytes, t: Bytes, q: Bytes)
    requires Quoted(s) + p == Quoted(t) + q
    ensures s == t && p == q
  {
    var line := 0 - (Newlines(s) as int) - (Newlines(t) as int);
    RoundTrip(s, p, line);
    RoundTrip(t, q, line);
  }

  // ------------------------------------------------------------------ single bytes and escapes

  /** The letters a, b, t, n, v, f, r stand for the bytes 7 to 13, in this order, and no other
      character for a control character. */
  lemma ControlLetters(c: Byte)
    ensures var letters := ['a', 'b', 't', 'n', 'v', 'f', 'r'];
      && (forall i :: 0 <= i < 7 ==> Control(letters[i] as int) == Some(7 + i))
      && (Control(c).Some? ==> exists i :: 0 <= i < 7 && c == letters[i] as int)
  {
    var letters := ['a', 'b', 't', 'n', 'v', 'f', 'r'];
    if Control(c).Some? {
      var i := Control(c).value - 7;
      assert 0 <= i < 7 && c == letters[i] as int;
    }
  }

  /** Up to three decimal digits are the byte of that number, if there is one; a line end is a
      newline; all other characters but those letters stand for themselves. */
  lemma Escapes(a: Byte, b: Byte, c: Byte, rest: Bytes)
    requires IsDigit(a) && IsDigit(b) && IsDigit(c)
    ensures var x, y, z := (a - 48) as int, (b - 48) as int, (c - 48) as int;
      && EscapeOf([a, b, c] + rest) == (if 100 * x + 10 * y + z > 255 then TooLarge else Means(100 * x + 10 * y + z, 3, false))
      && (rest == [] || !IsDigit(rest[0]) ==>
          EscapeOf([a, b] + rest) == Means(10 * x + y, 2, false) && EscapeOf([a] + rest) == Means(x, 1, false))
  {
    var t3, t2, t1 := [a, b, c] + rest, [a, b] + rest, [a] + rest;
    assert t3[..3] == [a, b, c] && [a, b, c][..2] == [a, b] && [a, b][..1] == [a] && [a][..0] == [];
    assert Number([]) == 0;
    assert Number([a]) == a - 48;
    assert Number([a, b]) == 10 * Number([a]) + (b - 48);
    assert Number([a, b, c]) == 10 * Number([a, b]) + (c - 48);
    assert Digits(t3) == 3;
    if rest == [] || !IsDigit(rest[0]) {
      assert t2[..2] == [a, b] && t1[..1] == [a];
      assert Digits(t2) == 2 && Digits(t1) == 1;
    }
  }

  lemma OtherEscapes(c: Byte, rest: Bytes)
    ensures c == LF || c == CR ==>
      EscapeOf([c] + rest) == Means(10, if rest != [] && (rest[0] == LF || rest[0] == CR) && rest[0] != c then 2 else 1, true)
    ensures Control(c).None? && c != LF && c != CR && !IsDigit(c) ==> EscapeOf([c] + rest) == Means(c, 1, false)
  {
  }

  /** `%q` puts a backslash in front of quotes, backslashes and newlines, writes carriage returns and
      zeros as `\r` and `\000`, and all other bytes as they are. */
  lemma QuotedForms(c: Byte)
    ensures c in {'"' as int, '\\' as int, 10} ==> QuotedByte(c) == ['\\' as int, c]
    ensures c == 13 ==> QuotedByte(c) == ['\\' as int, 'r' as int]
    ensures c == 0 ==> QuotedByte(c) == ['\\' as int, '0' as int, '0' as int, '0' as int]
    ensures c !in {'"' as int, '\\' as int, 10, 13, 0} ==> QuotedByte(c) == [c]
    ensures Quoted([c]) == ['"' as int] + QuotedByte(c) + ['"' as int]
  {
    assert QuotedBytes([c]) == QuotedByte(c) + QuotedBytes([]) == QuotedByte(c);
  }
}
