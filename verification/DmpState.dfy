/** The writer of precompiled chunks. */
module DmpState {
  import opened Common
  import opened DmpFormat
  import opened DmpRoundTrip

  // ------------------------------------------------------------------ writer

  function Joined(bs: seq<Bytes>): Bytes {
    if bs == [] then [] else bs[0] + Joined(bs[1..])
  }

  /** What has been written and the status after the blocks `bs`: each one goes to the writer, whose
      answer is the new status, unless the status is an error already. */
  function Ran(writer: Bytes -> int, w: Bytes, s: int, bs: seq<Bytes>): (Bytes, int)
    decreases |bs|
  {
    if bs == [] || s != 0 then (w, s) else Ran(writer, w + bs[0], writer(bs[0]), bs[1..])
  }

  /** The bytes `b`, in blocks, have been handed to the writer. */
  ghost predicate Sent(writer: Bytes -> int, w0: Bytes, s0: int, b: Bytes, w: Bytes, s: int) {
    exists bs :: Joined(bs) == b && Ran(writer, w0, s0, bs) == (w, s)
  }

  lemma {:induction false} JoinedBoth(a: seq<Bytes>, b: seq<Bytes>)
    ensures Joined(a + b) == Joined(a) + Joined(b)
  {
    if a == [] {
      assert a + b == b;
    } else {
      JoinedBoth(a[1..], b);
      assert (a + b)[1..] == a[1..] + b;
    }
  }

  lemma {:induction false} RanBoth(writer: Bytes -> int, w: Bytes, s: int, a: seq<Bytes>, b: seq<Bytes>)
    ensures var m := Ran(writer, w, s, a); Ran(writer, w, s, a + b) == Ran(writer, m.0, m.1, b)
    decreases |a|
  {
    if a == [] {
      assert a + b == b;
    } else if s == 0 {
      RanBoth(writer, w + a[0], writer(a[0]), a[1..], b);
      assert (a + b)[0] == a[0] && (a + b)[1..] == a[1..] + b;
    }
  }

  lemma SentThen(writer: Bytes -> int, w0: Bytes, s0: int, b1: Bytes, w1: Bytes, s1: int, b2: Bytes, w2: Bytes, s2: int)
    requires Sent(writer, w0, s0, b1, w1, s1) && Sent(writer, w1, s1, b2, w2, s2)
    ensures Sent(writer, w0, s0, b1 + b2, w2, s2)
  {
    hide Joined, Ran;
    var x :| Joined(x) == b1 && Ran(writer, w0, s0, x) == (w1, s1);
    var y :| Joined(y) == b2 && Ran(writer, w1, s1, y) == (w2, s2);
    JoinedBoth(x, y);
    RanBoth(writer, w0, s0, x, y);
    assert Joined(x + y) == b1 + b2;
  }

  /** A block, or nothing after an error. */
  lemma SentOne(writer: Bytes -> int, w0: Bytes, s0: int, b: Bytes)
    ensures Sent(writer, w0, s0, b, if s0 == 0 then w0 + b else w0, if s0 == 0 then writer(b) else s0)
  {
    var bs := [b];
    assert bs[1..] == [] && Joined(bs) == b + [] == b;
    assert Ran(writer, w0 + b, writer(b), []) == (w0 + b, writer(b));
    assert Ran(writer, w0, s0, bs) == if s0 == 0 then (w0 + b, writer(b)) else (w0, s0);
  }

  /** Without an error everything has been written; with one a prefix, whose last block was refused. */
  lemma {:induction false} RanPrefix(writer: Bytes -> int, w: Bytes, bs: seq<Bytes>)
    ensures var r := Ran(writer, w, 0, bs);
      if r.1 == 0 then r.0 == w + Joined(bs)
      else w <= r.0 <= w + Joined(bs) && exists k :: 0 <= k < |bs| && writer(bs[k]) == r.1 && r.0 == w + Joined(bs[..k + 1])
    decreases |bs|
  {
    if bs != [] {
      assert w + Joined(bs) == w + bs[0] + Joined(bs[1..]);
      if writer(bs[0]) == 0 {
        RanPrefix(writer, w + bs[0], bs[1..]);
        var r := Ran(writer, w, 0, bs);
        if r.1 != 0 {
          var k :| 0 <= k < |bs[1..]| && writer(bs[1..][k]) == r.1 && r.0 == w + bs[0] + Joined(bs[1..][..k + 1]);
          assert bs[..k + 2][1..] == bs[1..][..k + 1];
          assert writer(bs[k + 1]) == r.1 && r.0 == w + Joined(bs[..k + 2]);
        }
      } else {
        assert bs[..1][1..] == [] && Joined(bs[..1]) == bs[0] + [];
        assert w + bs[0] <= w + bs[0] + Joined(bs[1..]);
        assert writer(bs[0]) == Ran(writer, w, 0, bs).1 && Ran(writer, w, 0, bs).0 == w + Joined(bs[..0 + 1]);
      }
    }
  }

  lemma SentPrefix(writer: Bytes -> int, b: Bytes, w: Bytes, s: int)
    requires Sent(writer, [], 0, b, w, s)
    ensures if s == 0 then w == b else w <= b
  {
    var bs :| Joined(bs) == b && Ran(writer, [], 0, bs) == (w, s);
    RanPrefix(writer, [], bs);
    assert [] + b == b;
  }

  class DumpState {
    /** What the chunk writer answers for a block; anything but 0 stops the dump. */
    const writer: Bytes -> int
    const strip: bool
    var status: int
    /** The blocks that have been handed to the writer. */
    var written: Bytes

    constructor (writer: Bytes -> int, strip: bool)
      ensures this.writer == writer && this.strip == strip && status == 0 && written == []
    {
      this.writer, this.strip, status, written := writer, strip, 0, [];
    }

    twostate predicate Wrote(b: Bytes)
      reads this
    {
      Sent(writer, old(written), old(status), b, written, status)
    }

    method DumpBlock(b: Bytes)
      modifies this
      ensures Wrote(b)
    {
      SentOne(writer, written, status, b);
      if status == 0 {
        written := written + b;
        status := writer(b);
      }
    }

    method DumpChar(c: Byte)
      modifies this
      ensures Wrote([c])
    {
      DumpBlock([c]);
    }

    method DumpInt(x: Int32)
      modifies this
      ensures Wrote(EncInt(x))
    {
      DumpBlock(EncInt(x));
    }

    /** A size that fits a C integer. */
    method DumpCount(n: nat)
      requires n < 0x8000_0000
      modifies this
      ensures Wrote(EncCount(n))
    {
      hide Sent, ToLE;
      DumpBlock(EncInt(n));
    }

    method DumpString(s: Option<Text>)
      modifies this
      ensures Wrote(EncString(s))
    {
      hide EncSize, Sent;
      ghost var w0, s0 := written, status;
      match s {
        case None => DumpBlock(EncSize(0));
        case Some(t) =>
          DumpBlock(EncSize(|t| + 1));
          ghost var w1, s1 := written, status;
          DumpBlock(t + [0]);
          SentThen(writer, w0, s0, EncSize(|t| + 1), w1, s1, t + [0], written, status);
          assert EncString(s) == EncSize(|t| + 1) + (t + [0]);
      }
    }

    method DumpCode(code: seq<Word>)
      requires |code| < 0x8000_0000
      modifies this
      ensures Wrote(EncList(EncWord, code))
    {
      hide EncCount, Sent;
      ghost var w0, s0 := written, status;
      DumpCount(|code|);
      ghost var w1, s1 := written, status;
      DumpBlock(EncAll(EncWord, code));
      SentThen(writer, w0, s0, EncCount(|code|), w1, s1, EncAll(EncWord, code), written, status);
    }

    method DumpConstant(c: Constant)
      modifies this
      ensures Wrote(EncConstant(c))
    {
      hide EncString, Sent;
      ghost var w0, s0 := written, status;
      match c {
        case KNil => DumpChar(0);
        case KBool(b) =>
          DumpChar(1);
          ghost var w1, s1 := written, status;
          DumpChar(if b then 1 else 0);
          SentThen(writer, w0, s0, [1], w1, s1, [if b then 1 else 0], written, status);
          assert EncConstant(c) == [1] + [if b then 1 else 0];
        case KNumber(n) =>
          DumpChar(3);
          ghost var w1, s1 := written, status;
          DumpBlock(n);
          SentThen(writer, w0, s0, [3], w1, s1, n, written, status);
        case KString(s) =>
          DumpChar(4);
          ghost var w1, s1 := written, status;
          DumpString(s);
          SentThen(writer, w0, s0, [4], w1, s1, EncString(s), written, status);
      }
    }

    method DumpLocVar(v: LocVar)
      modifies this
      ensures Wrote(EncLocVar(v))
    {
      hide EncString, EncInt, Sent;
      ghost var w0, s0 := written, status;
      DumpString(v.varname);
      ghost var w1, s1 := written, status;
      DumpInt(v.startpc);
      ghost var w2, s2 := written, status;
      SentThen(writer, w0, s0, EncString(v.varname), w1, s1, EncInt(v.startpc), w2, s2);
      DumpInt(v.endpc);
      SentThen(writer, w0, s0, EncString(v.varname) + EncInt(v.startpc), w2, s2, EncInt(v.endpc), written, status);
    }

    /** The list of constants. */
    method DumpConstants(k: seq<Constant>)
      requires |k| < 0x8000_0000
      modifies this
      ensures Wrote(EncList(EncConstant, k))
    {
      hide EncCount, EncConstant, Sent;
      ghost var w0, s0 := written, status;
      DumpCount(|k|);
      var i := 0;
      ghost var done := EncCount(|k|);
      while i < |k|
        invariant 0 <= i <= |k| && done == EncCount(|k|) + EncAll(EncConstant, k[..i])
        invariant Wrote(done)
      {
        ghost var w1, s1 := written, status;
        DumpConstant(k[i]);
        SentThen(writer, w0, s0, done, w1, s1, EncConstant(k[i]), written, status);
        done := done + EncConstant(k[i]);
        EncNext(EncConstant, k, i);
        i := i + 1;
      }
      assert k[..i] == k;
    }

    /** The nested functions, behind the constants. */
    method DumpProtos(p: seq<Proto>, source: Option<Text>)
      requires |p| < 0x8000_0000 && SizedAll(p)
      modifies this
      ensures Wrote(EncCount(|p|) + EncProtos(p, source, strip))
      decreases p
    {
      hide EncCount, EncProto, Sent, Sized;
      ghost var w0, s0 := written, status;
      DumpCount(|p|);
      var i := 0;
      ghost var done := EncCount(|p|);
      while i < |p|
        invariant 0 <= i <= |p| && done == EncCount(|p|) + EncProtos(p[..i], source, strip)
        invariant Wrote(done)
      {
        SizedAt(p, i);
        ghost var w1, s1 := written, status;
        DumpFunction(p[i], source);
        SentThen(writer, w0, s0, done, w1, s1, EncProto(p[i], source, strip), written, status);
        done := done + EncProto(p[i], source, strip);
        ProtosNext(p, source, strip, i);
        i := i + 1;
      }
      assert p[..i] == p;
    }

    method DumpLocVars(l: seq<LocVar>)
      requires |l| < 0x8000_0000
      modifies this
      ensures Wrote(EncList(EncLocVar, l))
    {
      hide EncCount, EncLocVar, Sent;
      ghost var w0, s0 := written, status;
      DumpCount(|l|);
      var i := 0;
      ghost var done := EncCount(|l|);
      while i < |l|
        invariant 0 <= i <= |l| && done == EncCount(|l|) + EncAll(EncLocVar, l[..i])
        invariant Wrote(done)
      {
        ghost var w1, s1 := written, status;
        DumpLocVar(l[i]);
        SentThen(writer, w0, s0, done, w1, s1, EncLocVar(l[i]), written, status);
        done := done + EncLocVar(l[i]);
        EncNext(EncLocVar, l, i);
        i := i + 1;
      }
      assert l[..i] == l;
    }

    method DumpUpvalues(l: seq<Option<Text>>)
      requires |l| < 0x8000_0000
      modifies this
      ensures Wrote(EncList(EncString, l))
    {
      hide EncCount, EncString, Sent;
      ghost var w0, s0 := written, status;
      DumpCount(|l|);
      var i := 0;
      ghost var done := EncCount(|l|);
      while i < |l|
        invariant 0 <= i <= |l| && done == EncCount(|l|) + EncAll(EncString, l[..i])
        invariant Wrote(done)
      {
        ghost var w1, s1 := written, status;
        DumpString(l[i]);
        SentThen(writer, w0, s0, done, w1, s1, EncString(l[i]), written, status);
        done := done + EncString(l[i]);
        EncNext(EncString, l, i);
        i := i + 1;
      }
      assert l[..i] == l;
    }

    method DumpDebug(f: Proto)
      requires Sized(f)
      modifies this
      ensures Wrote(EncDebug(f, strip))
    {
      hide EncCount, EncString, EncLocVar, EncAll, Sent;
      ghost var w0, s0 := written, status;
      var lines: seq<Int32>, vars: seq<LocVar>, ups: seq<Option<Text>> := [], [], [];
      if !strip { lines, vars, ups := f.lineinfo, f.locvars, f.upvalues; }
      DumpCount(|lines|);
      ghost var w1, s1 := written, status;
      DumpBlock(EncAll(EncInt, lines));
      ghost var w2, s2 := written, status;
      SentThen(writer, w0, s0, EncCount(|lines|), w1, s1, EncAll(EncInt, lines), w2, s2);
      DumpLocVars(vars);
      ghost var w3, s3 := written, status;
      SentThen(writer, w0, s0, EncList(EncInt, lines), w2, s2, EncList(EncLocVar, vars), w3, s3);
      DumpUpvalues(ups);
      SentThen(writer, w0, s0, EncList(EncInt, lines) + EncList(EncLocVar, vars), w3, s3, EncList(EncString, ups), written, status);
    }

    /** The fields of fixed size. */
    method DumpFixed(f: Proto)
      modifies this
      ensures Wrote(EncFixed(f))
    {
      hide EncInt, Sent;
      ghost var w0, s0 := written, status;
      DumpInt(f.linedefined);
      ghost var w1, s1 := written, status;
      DumpInt(f.lastlinedefined);
      ghost var w2, s2, b := written, status, EncInt(f.linedefined) + EncInt(f.lastlinedefined);
      SentThen(writer, w0, s0, EncInt(f.linedefined), w1, s1, EncInt(f.lastlinedefined), w2, s2);
      DumpChar(f.nups);
      SentThen(writer, w0, s0, b, w2, s2, [f.nups], written, status);
      w2, s2 := written, status;
      DumpChar(f.numparams);
      SentThen(writer, w0, s0, b + [f.nups], w2, s2, [f.numparams], written, status);
      w2, s2 := written, status;
      DumpChar(f.isVararg);
      SentThen(writer, w0, s0, b + [f.nups] + [f.numparams], w2, s2, [f.isVararg], written, status);
      w2, s2 := written, status;
      DumpChar(f.maxstacksize);
      SentThen(writer, w0, s0, b + [f.nups] + [f.numparams] + [f.isVararg], w2, s2, [f.maxstacksize], written, status);
      assert EncFixed(f) == b + [f.nups] + [f.numparams] + [f.isVararg] + [f.maxstacksize];
    }

    method DumpFunction(f: Proto, parent: Option<Text>)
      requires Sized(f)
      modifies this
      ensures Wrote(EncProto(f, parent, strip))
      decreases f
    {
      hide EncFixed, EncList, EncCount, EncDebug, EncString, EncProtos, Sent, SizedAll;
      ghost var w0, s0, b := written, status, EncSource(f, parent, strip);
      DumpString(if f.source == parent || strip then None else f.source);
      ghost var w1, s1 := written, status;
      DumpFixed(f);
      SentThen(writer, w0, s0, b, w1, s1, EncFixed(f), written, status);
      w1, s1, b := written, status, b + EncFixed(f);
      DumpCode(f.code);
      SentThen(writer, w0, s0, b, w1, s1, EncList(EncWord, f.code), written, status);
      w1, s1, b := written, status, b + EncList(EncWord, f.code);
      DumpConstants(f.k);
      SentThen(writer, w0, s0, b, w1, s1, EncList(EncConstant, f.k), written, status);
      w1, s1, b := written, status, b + EncList(EncConstant, f.k);
      DumpProtos(f.p, f.source);
      SentThen(writer, w0, s0, b, w1, s1, EncCount(|f.p|) + EncProtos(f.p, f.source, strip), written, status);
      w1, s1, b := written, status, b + (EncCount(|f.p|) + EncProtos(f.p, f.source, strip));
      DumpDebug(f);
      SentThen(writer, w0, s0, b, w1, s1, EncDebug(f, strip), written, status);
      assert EncProto(f, parent, strip) == b + EncDebug(f, strip);
    }

    /** `luaU_dump`: the chunk goes to the writer in blocks. Without a writer error all of it has been
        written, otherwise a prefix. */
    method DumpChunk(f: Proto)
      requires Sized(f) && status == 0 && written == []
      modifies this
      ensures Wrote(Dump(f, strip))
      ensures if status == 0 then written == Dump(f, strip) else written <= Dump(f, strip)
    {
      hide EncProto, Sent;
      DumpBlock(HEADER);
      ghost var w1, s1 := written, status;
      DumpFunction(f, None);
      SentThen(writer, [], 0, HEADER, w1, s1, EncProto(f, None, strip), written, status);
      SentPrefix(writer, Dump(f, strip), written, status);
    }
  }

  lemma {:induction false} EncNext<T>(enc: T -> Bytes, l: seq<T>, i: nat)
    requires i < |l|
    ensures EncAll(enc, l[..i + 1]) == EncAll(enc, l[..i]) + enc(l[i])
    decreases i
  {
    if i > 0 {
      EncNext(enc, l[1..], i - 1);
      assert l[..i + 1][1..] == l[1..][..i] && l[..i][1..] == l[1..][..i - 1];
    }
  }

  lemma {:induction false} ProtosNext(l: seq<Proto>, parent: Option<Text>, strip: bool, i: nat)
    requires i < |l|
    ensures EncProtos(l[..i + 1], parent, strip) == EncProtos(l[..i], parent, strip) + EncProto(l[i], parent, strip)
    decreases i
  {
    hide EncProto;
    if i > 0 {
      ProtosNext(l[1..], parent, strip, i - 1);
      assert l[..i + 1][1..] == l[1..][..i] && l[..i][1..] == l[1..][..i - 1];
    }
  }

  lemma {:induction false} SizedAt(l: seq<Proto>, i: nat)
    requires SizedAll(l) && i < |l|
    ensures Sized(l[i])
  {
    if i > 0 { SizedAt(l[1..], i - 1); }
  }
}
