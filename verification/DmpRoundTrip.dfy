/** Reading what has been written. */
module DmpRoundTrip {
  import opened Common
  import opened DmpFormat

  // ------------------------------------------------------------- elements

  /** Reading an encoding succeeds exactly for the values that satisfy `ok`, and gives them back. */
  ghost predicate Codec<T(!new)>(enc: T -> Bytes, dec: Bytes -> Read<T>, ok: T -> bool) {
    forall x, rest {:trigger dec(enc(x) + rest)} :: if ok(x) then dec(enc(x) + rest) == Ok(x, rest) else dec(enc(x) + rest).Bad?
  }

  lemma BlockOf(b: Bytes, rest: Bytes)
    ensures Block(b + rest, |b|) == Ok(b, rest)
  {
  }

  lemma RawCodec()
    ensures Codec(EncInt, DecRaw, (x: Int32) => true)
  {
    forall x: Int32, rest ensures DecRaw(EncInt(x) + rest) == Ok(x, rest) {
      Four();
      BlockOf(EncInt(x), rest);
      LERoundTrip(if x < 0 then x + 0x1_0000_0000 else x, 4);
    }
  }

  predicate NonNegative(x: Int32) { x >= 0 }

  lemma IntCodec()
    ensures Codec(EncInt, DecInt, NonNegative)
  {
    RawCodec();
    forall x: Int32, rest ensures DecRaw(EncInt(x) + rest) == Ok(x, rest) { }
  }

  lemma WordCodec()
    ensures Codec(EncWord, DecWord, (x: Word) => true)
  {
    forall x: Word, rest ensures DecWord(EncWord(x) + rest) == Ok(x, rest) {
      Four();
      BlockOf(EncWord(x), rest);
      LERoundTrip(x, 4);
    }
  }

  lemma StringRead(s: Option<Text>, rest: Bytes)
    ensures DecString(EncString(s) + rest) == Ok(s, rest)
  {
    Four();
    match s {
      case None =>
        BlockOf(EncSize(0), rest);
        LERoundTrip(0, 8);
      case Some(t) =>
        LERoundTrip(|t| + 1, 8);
        assert EncString(s) + rest == EncSize(|t| + 1) + (t + [0] + rest);
        BlockOf(EncSize(|t| + 1), t + [0] + rest);
        BlockOf(t + [0], rest);
        assert (t + [0])[..|t|] == t;
    }
  }

  lemma StringCodec()
    ensures Codec(EncString, DecString, (s: Option<Text>) => true)
  {
    forall s: Option<Text>, rest ensures DecString(EncString(s) + rest) == Ok(s, rest) { StringRead(s, rest); }
  }

  lemma ConstantRead(c: Constant, rest: Bytes)
    ensures DecConstant(EncConstant(c) + rest) == Ok(c, rest)
  {
    match c {
      case KNil => BlockOf([0], rest);
      case KBool(b) =>
        assert EncConstant(c) + rest == [1] + ([if b then 1 else 0] + rest);
        BlockOf([1], [if b then 1 else 0] + rest);
        BlockOf([if b then 1 else 0], rest);
      case KNumber(n) =>
        assert EncConstant(c) + rest == [3] + (n + rest);
        BlockOf([3], n + rest);
        BlockOf(n, rest);
      case KString(s) =>
        assert EncConstant(c) + rest == [4] + (EncString(s) + rest);
        BlockOf([4], EncString(s) + rest);
        StringRead(s, rest);
    }
  }

  lemma ConstantCodec()
    ensures Codec(EncConstant, DecConstant, (c: Constant) => true)
  {
    forall c: Constant, rest ensures DecConstant(EncConstant(c) + rest) == Ok(c, rest) { ConstantRead(c, rest); }
  }

  predicate Ranged(v: LocVar) { v.startpc >= 0 && v.endpc >= 0 }

  lemma LocVarCodec()
    ensures Codec(EncLocVar, DecLocVar, Ranged)
  {
    forall v: LocVar, rest ensures if Ranged(v) then DecLocVar(EncLocVar(v) + rest) == Ok(v, rest) else DecLocVar(EncLocVar(v) + rest).Bad? {
      var b1 := EncInt(v.startpc) + (EncInt(v.endpc) + rest);
      assert EncLocVar(v) + rest == EncString(v.varname) + b1;
      StringRead(v.varname, b1);
      IntRead(v.startpc, EncInt(v.endpc) + rest);
      IntRead(v.endpc, rest);
    }
  }

  lemma IntRead(x: Int32, rest: Bytes)
    ensures if x >= 0 then DecInt(EncInt(x) + rest) == Ok(x, rest) else DecInt(EncInt(x) + rest).Bad?
  {
    IntCodec();
    assert NonNegative(x) <==> x >= 0;
  }

  // ------------------------------------------------------------- lists

  ghost predicate AllOk<T(!new)>(ok: T -> bool, l: seq<T>) {
    forall i :: 0 <= i < |l| ==> ok(l[i])
  }

  lemma {:induction false} ManyRead<T(!new)>(enc: T -> Bytes, dec: Bytes -> Read<T>, ok: T -> bool, l: seq<T>, rest: Bytes)
    requires Codec(enc, dec, ok)
    ensures if AllOk(ok, l) then DecMany(dec, |l|, EncAll(enc, l) + rest) == Ok(l, rest) else DecMany(dec, |l|, EncAll(enc, l) + rest).Bad?
  {
    if l != [] {
      var b1 := EncAll(enc, l[1..]) + rest;
      assert EncAll(enc, l) + rest == enc(l[0]) + b1;
      ManyRead(enc, dec, ok, l[1..], rest);
      assert [l[0]] + l[1..] == l;
      if ok(l[0]) && AllOk(ok, l[1..]) {
        forall i | 0 <= i < |l| ensures ok(l[i]) { if i > 0 { assert l[i] == l[1..][i - 1]; } }
      } else if !AllOk(ok, l[1..]) {
        var i :| 0 <= i < |l[1..]| && !ok(l[1..][i]);
        assert !ok(l[i + 1]);
      }
    }
  }

  lemma CountRead(n: nat, rest: Bytes)
    requires n < 0x8000_0000
    ensures DecInt(EncCount(n) + rest) == Ok(n, rest)
  {
    assert EncCount(n) == EncInt(n);
    IntRead(n, rest);
  }

  lemma ListRead<T(!new)>(enc: T -> Bytes, dec: Bytes -> Read<T>, ok: T -> bool, l: seq<T>, rest: Bytes)
    requires Codec(enc, dec, ok) && |l| < 0x8000_0000
    ensures if AllOk(ok, l) then DecList(dec, EncList(enc, l) + rest) == Ok(l, rest) else DecList(dec, EncList(enc, l) + rest).Bad?
  {
    assert EncList(enc, l) + rest == EncCount(|l|) + (EncAll(enc, l) + rest);
    CountRead(|l|, EncAll(enc, l) + rest);
    ManyRead(enc, dec, ok, l, rest);
  }

  // ------------------------------------------------------------- functions

  function LoadedSource(f: Proto, parent: Option<Text>, inherit: Option<Text>, strip: bool): Option<Text> {
    if f.source == parent || strip || f.source == None then inherit else f.source
  }

  /** What becomes of a function: an omitted source is inherited, and stripping drops the
      sources and the debug data. */
  function Loaded(f: Proto, parent: Option<Text>, inherit: Option<Text>, strip: bool): Proto
    decreases f
  {
    var source := LoadedSource(f, parent, inherit, strip);
    f.(source := source, p := LoadedAll(f.p, f.source, source, strip),
       lineinfo := if strip then [] else f.lineinfo, locvars := if strip then [] else f.locvars, upvalues := if strip then [] else f.upvalues)
  }

  function LoadedAll(l: seq<Proto>, parent: Option<Text>, inherit: Option<Text>, strip: bool): seq<Proto>
    decreases l
  {
    if l == [] then [] else [Loaded(l[0], parent, inherit, strip)] + LoadedAll(l[1..], parent, inherit, strip)
  }

  /** The sizes are C integers. */
  predicate Sized(f: Proto)
    decreases f
  {
    && |f.code| < 0x8000_0000 && |f.k| < 0x8000_0000 && |f.p| < 0x8000_0000
    && |f.lineinfo| < 0x8000_0000 && |f.locvars| < 0x8000_0000 && |f.upvalues| < 0x8000_0000
    && SizedAll(f.p)
  }

  predicate SizedAll(l: seq<Proto>)
    decreases l
  {
    l == [] || (Sized(l[0]) && SizedAll(l[1..]))
  }

  /** The reader accepts the function: no negative line or program counter, at most 200
      nested levels, and every loaded function passes the code check. */
  ghost predicate Loadable(f: Proto, parent: Option<Text>, inherit: Option<Text>, strip: bool, depth: nat, check: Proto -> bool)
    decreases f
  {
    && depth + 1 <= LUAI_MAXCCALLS && f.linedefined >= 0 && f.lastlinedefined >= 0
    && (strip || AllOk(Ranged, f.locvars))
    && LoadableAll(f.p, f.source, LoadedSource(f, parent, inherit, strip), strip, depth + 1, check)
    && check(Loaded(f, parent, inherit, strip))
  }

  ghost predicate LoadableAll(l: seq<Proto>, parent: Option<Text>, inherit: Option<Text>, strip: bool, depth: nat, check: Proto -> bool)
    decreases l
  {
    l == [] || (Loadable(l[0], parent, inherit, strip, depth, check) && LoadableAll(l[1..], parent, inherit, strip, depth, check))
  }

  lemma DebugRead(f: Proto, strip: bool, rest: Bytes)
    requires Sized(f)
    ensures var r := DecDebug(EncDebug(f, strip) + rest);
      if strip then r == Ok(Debug([], [], []), rest)
      else if AllOk(Ranged, f.locvars) then r == Ok(Debug(f.lineinfo, f.locvars, f.upvalues), rest) else r.Bad?
  {
    var lines: seq<Int32>, vars: seq<LocVar>, ups: seq<Option<Text>> := [], [], [];
    if !strip { lines, vars, ups := f.lineinfo, f.locvars, f.upvalues; }
    var b2 := EncList(EncString, ups) + rest;
    var b1 := EncList(EncLocVar, vars) + b2;
    assert EncDebug(f, strip) + rest == EncList(EncInt, lines) + b1;
    RawCodec();
    ListRead(EncInt, DecRaw, (x: Int32) => true, lines, b1);
    LocVarCodec();
    ListRead(EncLocVar, DecLocVar, Ranged, vars, b2);
    StringCodec();
    ListRead(EncString, DecString, (s: Option<Text>) => true, ups, rest);
  }

  lemma CodeRead(l: seq<Word>, rest: Bytes)
    requires |l| < 0x8000_0000
    ensures DecList(DecWord, EncList(EncWord, l) + rest) == Ok(l, rest)
  {
    WordCodec();
    ListRead(EncWord, DecWord, (x: Word) => true, l, rest);
  }

  lemma ConstantsRead(l: seq<Constant>, rest: Bytes)
    requires |l| < 0x8000_0000
    ensures DecList(DecConstant, EncList(EncConstant, l) + rest) == Ok(l, rest)
  {
    ConstantCodec();
    ListRead(EncConstant, DecConstant, (c: Constant) => true, l, rest);
  }

  lemma HeadRead(f: Proto, parent: Option<Text>, inherit: Option<Text>, strip: bool, rest: Bytes)
    requires Sized(f)
    ensures var r := DecHead(EncSource(f, parent, strip) + EncFixed(f) + EncList(EncWord, f.code) + EncList(EncConstant, f.k) + rest, inherit);
      if f.linedefined >= 0 && f.lastlinedefined >= 0
      then r == Ok(Head(LoadedSource(f, parent, inherit, strip), f.linedefined, f.lastlinedefined,
                        f.nups, f.numparams, f.isVararg, f.maxstacksize, f.code, f.k), rest)
      else r.Bad?
  {
    hide EncList, EncInt, EncString, DecInt, DecString, DecList, Block, SizedAll;
    var q: Bytes := [f.nups, f.numparams, f.isVararg, f.maxstacksize];
    var b5 := EncList(EncConstant, f.k) + rest;
    var b4 := EncList(EncWord, f.code) + b5;
    var b3 := q + b4;
    var b2 := EncInt(f.lastlinedefined) + b3;
    var b1 := EncInt(f.linedefined) + b2;
    assert EncSource(f, parent, strip) + EncFixed(f) + EncList(EncWord, f.code) + EncList(EncConstant, f.k) + rest
        == EncSource(f, parent, strip) + b1;
    StringRead(if f.source == parent || strip then None else f.source, b1);
    IntRead(f.linedefined, b2);
    IntRead(f.lastlinedefined, b3);
    BlockOf(q, b4);
    CodeRead(f.code, b5);
    ConstantsRead(f.k, rest);
  }

  /** Reading a written function succeeds exactly if it is loadable, and gives what
      `Loaded` says. */
  lemma {:induction false} ProtoRead(f: Proto, parent: Option<Text>, inherit: Option<Text>, strip: bool, depth: nat, check: Proto -> bool, rest: Bytes)
    requires Sized(f)
    ensures var r := DecProto(EncProto(f, parent, strip) + rest, inherit, depth, check);
      if Loadable(f, parent, inherit, strip, depth, check) then r == Ok(Loaded(f, parent, inherit, strip), rest) else r.Bad?
    decreases f
  {
    hide DecHead, DecInt, DecDebug, EncDebug, EncCount, EncSource, EncFixed, EncList, EncProtos, DecProtos, AllOk, LoadableAll, LoadedAll, LoadedSource;
    var source := LoadedSource(f, parent, inherit, strip);
    var b3 := EncDebug(f, strip) + rest;
    var b2 := EncProtos(f.p, f.source, strip) + b3;
    var b1 := EncCount(|f.p|) + b2;
    var head := EncSource(f, parent, strip) + EncFixed(f) + EncList(EncWord, f.code) + EncList(EncConstant, f.k);
    assert EncProto(f, parent, strip) + rest == head + b1;
    HeadRead(f, parent, inherit, strip, b1);
    CountRead(|f.p|, b2);
    ProtosRead(f.p, f.source, source, strip, depth + 1, check, b3);
    DebugRead(f, strip, rest);
  }

  lemma {:induction false} ProtosRead(l: seq<Proto>, parent: Option<Text>, inherit: Option<Text>, strip: bool, depth: nat, check: Proto -> bool, rest: Bytes)
    requires SizedAll(l)
    ensures var r := DecProtos(|l|, EncProtos(l, parent, strip) + rest, inherit, depth, check);
      if LoadableAll(l, parent, inherit, strip, depth, check) then r == Ok(LoadedAll(l, parent, inherit, strip), rest) else r.Bad?
    decreases l
  {
    hide EncProto, DecProto, Loadable, Loaded, Sized;
    if l != [] {
      var b1 := EncProtos(l[1..], parent, strip) + rest;
      assert EncProtos(l, parent, strip) + rest == EncProto(l[0], parent, strip) + b1;
      ProtoRead(l[0], parent, inherit, strip, depth, check, b1);
      ProtosRead(l[1..], parent, inherit, strip, depth, check, rest);
    }
  }

  // ------------------------------------------------------------- the theorems

  /** For every function: undumping its dump succeeds exactly if it is loadable, and gives the
      function with inherited sources, without debug data if stripped. */
  lemma DumpUndump(f: Proto, strip: bool, depth: nat, check: Proto -> bool)
    requires Sized(f)
    ensures var r := Undump(Dump(f, strip), depth, check);
      if Loadable(f, None, Some(UNKNOWN), strip, depth, check) then r == Ok(Loaded(f, None, Some(UNKNOWN), strip), []) else r.Bad?
  {
    BlockOf(HEADER, EncProto(f, None, strip));
    assert EncProto(f, None, strip) + [] == EncProto(f, None, strip);
    ProtoRead(f, None, Some(UNKNOWN), strip, depth, check, []);
  }

  /** Every function of the tree has a source. */
  predicate Sourced(f: Proto)
    decreases f
  {
    f.source.Some? && SourcedAll(f.p)
  }

  predicate SourcedAll(l: seq<Proto>)
    decreases l
  {
    l == [] || (Sourced(l[0]) && SourcedAll(l[1..]))
  }

  lemma {:induction false} SameIffSourced(f: Proto, parent: Option<Text>, inherit: Option<Text>)
    requires inherit.Some? && (parent == None || parent == inherit)
    ensures Loaded(f, parent, inherit, false) == f <==> Sourced(f)
    decreases f
  {
    var source := LoadedSource(f, parent, inherit, false);
    if f.source.Some? {
      assert source == f.source;
      SameIffSourcedAll(f.p, f.source, source);
    }
  }

  lemma {:induction false} SameIffSourcedAll(l: seq<Proto>, parent: Option<Text>, inherit: Option<Text>)
    requires inherit.Some? && parent == inherit
    ensures LoadedAll(l, parent, inherit, false) == l <==> SourcedAll(l)
    decreases l
  {
    if l != [] {
      SameIffSourced(l[0], parent, inherit);
      SameIffSourcedAll(l[1..], parent, inherit);
      var m := LoadedAll(l, parent, inherit, false);
      assert m[0] == Loaded(l[0], parent, inherit, false) && m[1..] == LoadedAll(l[1..], parent, inherit, false);
      assert l == [l[0]] + l[1..];
    }
  }

  /** A loadable function comes back unchanged exactly if no source in it is missing. */
  lemma RoundTrip(f: Proto, depth: nat, check: Proto -> bool)
    requires Sized(f) && Loadable(f, None, Some(UNKNOWN), false, depth, check)
    ensures Undump(Dump(f, false), depth, check) == Ok(f, []) <==> Sourced(f)
  {
    DumpUndump(f, false, depth, check);
    SameIffSourced(f, None, Some(UNKNOWN));
  }

  /** In a stripped function every source is "=?" and there is no debug data. */
  predicate Bare(f: Proto)
    decreases f
  {
    f.source == Some(UNKNOWN) && f.lineinfo == [] && f.locvars == [] && f.upvalues == [] && BareAll(f.p)
  }

  predicate BareAll(l: seq<Proto>)
    decreases l
  {
    l == [] || (Bare(l[0]) && BareAll(l[1..]))
  }

  lemma {:induction false} StripBare(f: Proto, parent: Option<Text>)
    ensures Bare(Loaded(f, parent, Some(UNKNOWN), true))
    decreases f
  {
    StripBareAll(f.p, f.source);
  }

  lemma {:induction false} StripBareAll(l: seq<Proto>, parent: Option<Text>)
    ensures BareAll(LoadedAll(l, parent, Some(UNKNOWN), true))
    decreases l
  {
    if l != [] {
      StripBare(l[0], parent);
      StripBareAll(l[1..], parent);
      var m := LoadedAll(l, parent, Some(UNKNOWN), true);
      assert m[0] == Loaded(l[0], parent, Some(UNKNOWN), true) && m[1..] == LoadedAll(l[1..], parent, Some(UNKNOWN), true);
    }
  }
}
