/** The bytes of a chunk, written out: the order of the fields, the order of their bytes and the tags. */
module DmpSample {
  import opened Common
  import opened DmpFormat

  /** Four bytes, the least significant one first; a negative number is 2^32 larger. */
  lemma FourBytes(x: Int32)
    ensures var n := if x < 0 then x + 0x1_0000_0000 else x;
      EncInt(x) == [n % 256, n / 256 % 256, n / 65536 % 256, n / 16777216]
  {
    var n: nat := if x < 0 then x + 0x1_0000_0000 else x;
    assert ToLE(n / 16777216, 1) == [n / 16777216] + ToLE(n / 16777216 / 256, 0);
    assert n / 256 / 256 == n / 65536 && n / 65536 / 256 == n / 16777216;
    assert ToLE(n / 65536, 2) == [n / 65536 % 256] + ToLE(n / 65536 / 256, 1);
    assert ToLE(n / 256, 3) == [n / 256 % 256] + ToLE(n / 256 / 256, 2);
  }

  /** A string, with its length in eight bytes and a zero behind it; and no string. */
  lemma Strings(t: Text)
    requires |t| + 1 < 256
    ensures EncString(Some(t)) == [|t| + 1, 0, 0, 0, 0, 0, 0, 0] + t + [0]
    ensures EncString(None) == [0, 0, 0, 0, 0, 0, 0, 0]
  {
    EightBytes(|t| + 1);
    EightBytes(0);
  }

  lemma EightBytes(n: nat)
    requires n < 256
    ensures EncSize(n) == [n, 0, 0, 0, 0, 0, 0, 0]
  {
    assert ToLE(0, 1) == [0] + ToLE(0, 0);
    assert ToLE(0, 3) == [0] + ToLE(0, 2) == [0, 0, 0];
    assert ToLE(0, 5) == [0, 0] + ToLE(0, 3);
    assert ToLE(0, 7) == [0, 0] + ToLE(0, 5) == [0, 0, 0, 0, 0, 0, 0];
    assert ToLE(n, 8) == [n] + ToLE(0, 7);
  }

  lemma Small(n: nat)
    requires n < 256
    ensures EncCount(n) == EncInt(n) == EncWord(n) == [n, 0, 0, 0]
  {
    FourBytes(n);
  }

  lemma One<T>(enc: T -> Bytes, x: T)
    ensures EncList(enc, [x]) == [1, 0, 0, 0] + enc(x)
    ensures EncList(enc, []) == [0, 0, 0, 0]
  {
    Small(1);
    Small(0);
    assert EncAll(enc, [x]) == enc(x) + EncAll(enc, [x][1..]) && [x][1..] == [];
  }

  /** A function with one of everything but functions; `a` is the text of its source and of all names. */
  function Sample(a: Byte): Proto {
    var name := Some([a]);
    Proto(name, 1, 2, 3, 4, 5, 6, [7], [KString(name)], [], [8], [LocVar(name, 9, 10)], [name])
  }

  function Name(a: Byte): Bytes {
    [2, 0, 0, 0, 0, 0, 0, 0, a, 0]
  }

  lemma SampleFront(a: Byte, strip: bool)
    ensures EncSource(Sample(a), None, strip) == if strip then [0, 0, 0, 0, 0, 0, 0, 0] else Name(a)
    ensures EncFixed(Sample(a)) == [1, 0, 0, 0, 2, 0, 0, 0, 3, 4, 5, 6]
  {
    hide ToLE, EncString, EncInt;
    Strings([a]);
    Small(1);
    Small(2);
  }

  lemma SampleLists(a: Byte)
    ensures EncList(EncWord, Sample(a).code) == [1, 0, 0, 0, 7, 0, 0, 0]
    ensures EncList(EncConstant, Sample(a).k) == [1, 0, 0, 0, 4] + Name(a)
  {
    hide ToLE, EncString, EncInt, EncList, EncWord;
    Strings([a]);
    Small(7);
    One(EncWord, 7 as Word);
    One(EncConstant, KString(Some([a])));
  }

  lemma SampleDebug(a: Byte, strip: bool)
    ensures EncList(EncInt, if strip then [] else Sample(a).lineinfo) == if strip then [0, 0, 0, 0] else [1, 0, 0, 0, 8, 0, 0, 0]
    ensures EncList(EncLocVar, if strip then [] else Sample(a).locvars)
         == if strip then [0, 0, 0, 0] else [1, 0, 0, 0] + (Name(a) + [9, 0, 0, 0] + [10, 0, 0, 0])
    ensures EncList(EncString, if strip then [] else Sample(a).upvalues) == if strip then [0, 0, 0, 0] else [1, 0, 0, 0] + Name(a)
  {
    hide ToLE, EncString, EncInt, EncList;
    var name: Option<Text> := Some([a]);
    Strings([a]);
    Small(8);
    Small(9);
    Small(10);
    One(EncInt, 8 as Int32);
    One(EncLocVar, LocVar(name, 9, 10));
    One(EncString, name);
  }

  /** Source, lines, the four small numbers, code, constants, functions; then unless it is stripped
      the line of each instruction, the local variables and the names of the upvalues. */
  lemma SampleBytes(a: Byte, strip: bool)
    ensures var none: Bytes := [0, 0, 0, 0];
      var source := if strip then [0, 0, 0, 0, 0, 0, 0, 0] else Name(a);
      var numbers, code, constants := [1, 0, 0, 0, 2, 0, 0, 0, 3, 4, 5, 6], [1, 0, 0, 0, 7, 0, 0, 0], [1, 0, 0, 0, 4] + Name(a);
      var lines := if strip then none else [1, 0, 0, 0, 8, 0, 0, 0];
      var variables := if strip then none else [1, 0, 0, 0] + (Name(a) + [9, 0, 0, 0] + [10, 0, 0, 0]);
      var upvalues := if strip then none else [1, 0, 0, 0] + Name(a);
      EncProto(Sample(a), None, strip) == source + numbers + code + constants + none + (lines + variables + upvalues)
  {
    hide ToLE, EncList, EncSource, EncFixed, EncCount, EncString, EncInt, EncWord, EncConstant, EncLocVar, Name;
    SampleFront(a, strip);
    SampleLists(a);
    SampleDebug(a, strip);
    Small(0);
  }

  /** The four tags of constants. */
  lemma Tags(b: bool, n: Number, s: Option<Text>)
    ensures EncConstant(KNil) == [0] && EncConstant(KBool(b)) == [1, if b then 1 else 0]
    ensures EncConstant(KNumber(n)) == [3] + n && EncConstant(KString(s)) == [4] + EncString(s)
  {
  }

  /** The header: the signature `\27Lua`, version 5.1, format 0, little-endian, then the sizes of int,
      size_t, instructions and numbers, which are not integral. A function has its own source. */
  lemma HeaderFirst(f: Proto, strip: bool)
    ensures Dump(f, strip) == [27] + ['L' as int, 'u' as int, 'a' as int] + [5 * 16 + 1, 0, 1] + [4, 8, 4, 8] + [0] + EncProto(f, None, strip)
  {
    hide EncProto;
  }
}
