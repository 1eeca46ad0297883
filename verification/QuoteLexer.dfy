/** The `%q` printer over its buffer, and the reader of string literals over its stream. */
module QuoteLexer {
  import opened Common
  import opened QuoteText

  class Buffer {
    var contents: Bytes

    constructor ()
      ensures contents == []
    {
      contents := [];
    }

    method AddChar(c: Byte)
      modifies this
      ensures contents == old(contents) + [c]
    {
      contents := contents + [c];
    }

    method AddString(s: Bytes)
      modifies this
      ensures contents == old(contents) + s
    {
      contents := contents + s;
    }

    /** One byte of the string: the cases of `addquoted`. */
    method AddByte(c: Byte)
      modifies this
      ensures contents == old(contents) + QuotedByte(c)
    {
      match c {
        case 34 | 92 | 10 =>
          AddChar(BACKSLASH);
          AddChar(c);
        case 13 => AddString([BACKSLASH, 114]);
        case 0 => AddString([BACKSLASH, 48, 48, 48]);
        case _ => AddChar(c);
      }
    }

    method AddQuoted(s: Bytes)
      modifies this
      ensures contents == old(contents) + Quoted(s)
    {
      hide QuotedByte;
      AddChar(QUOTE);
      var i := 0;
      while i < |s|
        invariant 0 <= i <= |s| && contents == old(contents) + [QUOTE] + QuotedBytes(s[..i])
      {
        QuotedNext(s, i);
        AddByte(s[i]);
        i := i + 1;
      }
      AddChar(QUOTE);
      assert s[..i] == s;
    }
  }

  /** The end of the stream. */
  const EOZ: int := -1

  /** With `acc` already read, going on from `b` at `line` gives what reading all of `b0` gives. */
  ghost predicate Resumes(b0: Bytes, del: Byte, line0: int, acc: Bytes, b: Bytes, line: int) {
    Reading(b0, del, line0) == Before(acc, Reading(b, del, line))
  }

  lemma ResumesThen(b0: Bytes, del: Byte, line0: int, acc: Bytes, b: Bytes, line: int, c: Byte, b1: Bytes, line1: int)
    requires Resumes(b0, del, line0, acc, b, line)
    requires Reading(b, del, line) == Before([c], Reading(b1, del, line1))
    ensures Resumes(b0, del, line0, acc + [c], b1, line1)
  {
    match Reading(b1, del, line1) {
      case Returned(l) => assert acc + ([c] + l.value) == acc + [c] + l.value;
      case Raised(w) =>
    }
  }

  lemma NumberNext(b: Bytes, i: nat)
    requires i < |b|
    ensures Number(b[..i + 1]) == 10 * Number(b[..i]) + (b[i] as int - 48)
  {
    assert b[..i + 1][..i] == b[..i];
  }

  class LexState {
    /** The current character, or the end of the stream. */
    var current: int
    /** What the stream still holds. */
    var z: Bytes
    var linenumber: int
    /** The token buffer. */
    var buff: Bytes

    constructor (z: Bytes, linenumber: int)
      ensures Valid() && Input() == z && this.linenumber == linenumber && buff == []
    {
      this.current := if z == [] then EOZ else z[0];
      this.z := if z == [] then [] else z[1..];
      this.linenumber := linenumber;
      this.buff := [];
    }

    ghost predicate Valid()
      reads this
    {
      -1 <= current < 256 && (current == EOZ ==> z == [])
    }

    /** The characters from the current one on. */
    ghost function Input(): Bytes
      reads this
      requires Valid()
    {
      if current == EOZ then [] else [current as Byte] + z
    }

    method Next()
      requires Valid() && current != EOZ
      modifies this`current, this`z
      ensures Valid() && Input() == old(Input())[1..]
    {
      if z == [] {
        current := EOZ;
      } else {
        current, z := z[0], z[1..];
      }
    }

    method Save(c: Byte)
      modifies this`buff
      ensures buff == old(buff) + [c]
    {
      buff := buff + [c];
    }

    method SaveAndNext()
      requires Valid() && current != EOZ
      modifies this`current, this`z, this`buff
      ensures Valid() && Input() == old(Input())[1..] && buff == old(buff) + [old(Input())[0]]
    {
      Save(current);
      Next();
    }

    /** Skips one line end and counts it. */
    method IncLineNumber() returns (o: Fallible<()>)
      requires Valid() && current != EOZ && IsNewline(current)
      modifies this`current, this`z, this`linenumber
      ensures Valid() && Input() == old(Input())[NewlineSize(old(Input()))..] && linenumber == old(linenumber) + 1
      ensures o == if linenumber >= MAX_INT then Raised(TOO_MANY_LINES) else Returned(())
    {
      var before := current;
      Next();
      if current != EOZ && IsNewline(current) && current != before {
        Next();
      }
      linenumber := linenumber + 1;
      return if linenumber >= MAX_INT then Raised(TOO_MANY_LINES) else Returned(());
    }

    /** Reads up to three decimal digits. */
    method ReadDecimal() returns (c: nat)
      requires Valid() && current != EOZ && IsDigit(current)
      modifies this`current, this`z
      ensures Valid() && Input() == old(Input())[Digits(old(Input()))..] && c == Number(old(Input())[..Digits(old(Input()))])
    {
      ghost var b := Input();
      c := 0;
      var i := 0;
      while true
        invariant Valid() && 0 <= i < 3 && i < |b| && Input() == b[i..] && c == Number(b[..i])
        invariant forall j :: 0 <= j <= i ==> IsDigit(b[j])
        decreases 3 - i
      {
        NumberNext(b, i);
        c := 10 * c + (current - 48);
        Next();
        i := i + 1;
        if !(i < 3 && current != EOZ && IsDigit(current)) { break; }
      }
    }

    /** Reads what stands behind a backslash, and saves what it means. */
    method ReadEscape() returns (o: Fallible<()>)
      requires Valid() && current != EOZ
      modifies this
      ensures Valid()
      ensures match EscapeOf(old(Input()))
              case TooLarge => o == Raised(TOO_LARGE)
              case Means(c, size, newline) =>
                && buff == old(buff) + [c] && Input() == old(Input())[size..]
                && linenumber == old(linenumber) + (if newline then 1 else 0)
                && o == if newline && linenumber >= MAX_INT then Raised(TOO_MANY_LINES) else Returned(())
    {
      match current {
        case 97 => Save(7); Next();
        case 98 => Save(8); Next();
        case 102 => Save(12); Next();
        case 110 => Save(10); Next();
        case 114 => Save(13); Next();
        case 116 => Save(9); Next();
        case 118 => Save(11); Next();
        case 10 | 13 =>
          Save(LF);
          o := IncLineNumber();
          return;
        case _ =>
          if !IsDigit(current) {
            SaveAndNext();
          } else {
            var c := ReadDecimal();
            if c > UCHAR_MAX { return Raised(TOO_LARGE); }
            Save(c);
          }
      }
      return Returned(());
    }

    /** Reads a backslash and what stands behind it. */
    method ReadBackslash() returns (o: Fallible<()>)
      requires Valid() && current == 92
      modifies this
      ensures Valid()
      ensures old(Input()) == [92] ==> o == Raised(UNFINISHED_EOS)
      ensures old(Input()) != [92] ==>
        match EscapeOf(old(Input())[1..])
        case TooLarge => o == Raised(TOO_LARGE)
        case Means(c, size, newline) =>
          && buff == old(buff) + [c] && Input() == old(Input())[1 + size..]
          && linenumber == old(linenumber) + (if newline then 1 else 0)
          && o == if newline && linenumber >= MAX_INT then Raised(TOO_MANY_LINES) else Returned(())
    {
      hide EscapeOf;
      ghost var b := Input();
      Next();
      if current == EOZ { return Raised(UNFINISHED_EOS); }
      o := ReadEscape();
      var e := EscapeOf(b[1..]);
      assert e.Means? ==> b[1..][e.size..] == b[1 + e.size..];
    }

    /** One turn of the loop of `read_string`: reads one character of the literal, `c`, or fails. */
    method ReadItem(del: Byte) returns (o: Fallible<()>, ghost c: Byte)
      requires Valid() && current != del && del in {QUOTE, APOSTROPHE}
      modifies this
      ensures Valid()
      ensures match o
              case Raised(w) => Reading(old(Input()), del, old(linenumber)) == Raised(w)
              case Returned(_) =>
                && buff == old(buff) + [c] && |Input()| < |old(Input())|
                && Reading(old(Input()), del, old(linenumber)) == Before([c], Reading(Input(), del, linenumber))
    {
      hide Reading, EscapeOf;
      ghost var b := Input();
      Unfold(b, del, linenumber);
      c := 0;
      match current {
        case -1 => return Raised(UNFINISHED_EOS), c;
        case 10 | 13 => return Raised(UNFINISHED), c;
        case 92 =>
          o := ReadBackslash();
          if o.Returned? { c := EscapeOf(b[1..]).c; }
        case _ =>
          SaveAndNext();
          return Returned(()), b[0];
      }
    }

    /** Reads a string literal; the current character is its opening delimiter. */
    method ReadString(del: Byte) returns (o: Fallible<Bytes>)
      requires Valid() && current == del && del in {QUOTE, APOSTROPHE} && buff == []
      modifies this
      ensures Valid()
      ensures match Reading(old(Input())[1..], del, old(linenumber))
              case Returned(l) => o == Returned(l.value) && Input() == l.rest && linenumber == l.line
              case Raised(w) => o == Raised(w)
    {
      hide Reading, EscapeOf;
      ghost var b0, line0, acc := Input()[1..], linenumber, [];
      SaveAndNext();
      ResumesStart(b0, del, line0);
      while current != del
        invariant Valid() && buff == [del] + acc && Resumes(b0, del, line0, acc, Input(), linenumber)
        decreases |Input()|
      {
        ghost var b, line, c := Input(), linenumber, 0;
        var turn;
        turn, c := ReadItem(del);
        if turn.Raised? { return Raised(turn.why); }
        ResumesThen(b0, del, line0, acc, b, line, c, Input(), linenumber);
        acc := acc + [c];
      }
      Unfold(Input(), del, linenumber);
      assert acc + [] == acc;
      SaveAndNext();
      assert buff[1..|buff| - 1] == acc;
      return Returned(buff[1..|buff| - 1]);
    }
  }

  lemma ResumesStart(b: Bytes, del: Byte, line: int)
    ensures Resumes(b, del, line, [], b, line)
  {
    match Reading(b, del, line) {
      case Returned(l) => assert [] + l.value == l.value;
      case Raised(w) =>
    }
  }

  /** One step of the reading that is left. */
  lemma Unfold(b: Bytes, del: Byte, line: int)
    requires del in {QUOTE, APOSTROPHE}
    ensures b == [] || b == [BACKSLASH] ==> Reading(b, del, line) == Raised(UNFINISHED_EOS)
    ensures b != [] && b[0] == del ==> Reading(b, del, line) == Returned(Literal([], b[1..], line))
    ensures b != [] && IsNewline(b[0]) ==> Reading(b, del, line) == Raised(UNFINISHED)
    ensures b != [] && b[0] != del && !IsNewline(b[0]) && b[0] != BACKSLASH ==> Reading(b, del, line) == Before([b[0]], Reading(b[1..], del, line))
    ensures |b| > 1 && b[0] == BACKSLASH ==>
      match EscapeOf(b[1..])
      case TooLarge => Reading(b, del, line) == Raised(TOO_LARGE)
      case Means(c, size, newline) =>
        if newline && line + 1 >= MAX_INT then Reading(b, del, line) == Raised(TOO_MANY_LINES)
        else Reading(b, del, line) == Before([c], Reading(b[1 + size..], del, if newline then line + 1 else line))
  {
  }

  /** What `%q` prints is read as the string it was printed for. */
  method PrintAndRead(s: Bytes, rest: Bytes, line: int) returns (o: Fallible<Bytes>)
    ensures o == if Newlines(s) > 0 && line + Newlines(s) >= MAX_INT then Raised(TOO_MANY_LINES) else Returned(s)
  {
    var b := new Buffer();
    b.AddQuoted(s);
    assert b.contents == Quoted(s);
    RoundTrip(s, rest, line);
    var ls := new LexState(b.contents + rest, line);
    assert ls.Input()[0] == QUOTE;
    o := ls.ReadString(QUOTE);
  }
}
