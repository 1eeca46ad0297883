/** The reader of precompiled chunks: a cursor over the bytes that are left. */
module DmpReader {
  import opened Common
  import opened DmpFormat

  // ------------------------------------------------------------------ vectors

  type Quad = b: Bytes | |b| == 4 witness [0, 0, 0, 0]

  function WordOf(b: Quad): Word {
    Four();
    FromLE(b)
  }

  function IntOf(b: Quad): Int32 {
    Four();
    Signed(FromLE(b))
  }

  /** A block of memory seen as a vector of 4-byte elements. */
  function Vector<T>(of: Quad -> T, n: nat, b: Bytes): (v: seq<T>)
    requires |b| == 4 * n
    ensures |v| == n && forall i :: 0 <= i < n ==> v[i] == of(b[4 * i..4 * i + 4])
  {
    if n == 0 then [] else
      var v := Vector(of, n - 1, b[4..]);
      assert forall i :: 0 < i < n ==> b[4..][4 * (i - 1)..4 * (i - 1) + 4] == b[4 * i..4 * i + 4];
      [of(b[..4])] + v
  }

  ghost predicate Reads<T(!new)>(dec: Bytes -> Read<T>, of: Quad -> T) {
    forall b: Bytes :: dec(b) == if |b| < 4 then Bad("unexpected end") else Ok(of(b[..4]), b[4..])
  }

  /** Reading the vector as one block is reading its elements one by one. */
  lemma {:induction false} VectorIsMany<T(!new)>(dec: Bytes -> Read<T>, of: Quad -> T, n: nat, b: Bytes)
    requires Reads(dec, of)
    ensures DecMany(dec, n, b) == match Block(b, 4 * n) case Ok(v, rest) => Ok(Vector(of, n, v), rest) case Bad(w) => Bad(w)
    decreases n
  {
    if n > 0 && |b| >= 4 {
      VectorIsMany(dec, of, n - 1, b[4..]);
      if |b| >= 4 * n {
        assert b[..4 * n][4..] == b[4..][..4 * (n - 1)] && b[..4 * n][..4] == b[..4] && b[4..][4 * (n - 1)..] == b[4 * n..];
      }
    }
  }

  lemma WordReads()
    ensures Reads(DecWord, WordOf)
  {
    hide FromLE;
  }

  lemma IntReads()
    ensures Reads(DecRaw, IntOf)
  {
    hide FromLE;
  }

  // ------------------------------------------------------------------ loops

  /** After reading `done` from `b0`, reading the `m` elements that are left from `b` ends as
      reading all `n` from `b0` does. */
  ghost predicate Resumes<T>(dec: Bytes -> Read<T>, n: nat, b0: Bytes, done: seq<T>, m: nat, b: Bytes) {
    DecMany(dec, n, b0) == match DecMany(dec, m, b) case Ok(l, rest) => Ok(done + l, rest) case Bad(w) => Bad(w)
  }

  lemma ResumeStart<T>(dec: Bytes -> Read<T>, n: nat, b: Bytes)
    ensures Resumes(dec, n, b, [], n, b)
  {
    match DecMany(dec, n, b) {
      case Ok(l, rest) => assert [] + l == l;
      case Bad(w) =>
    }
  }

  lemma ResumeStep<T>(dec: Bytes -> Read<T>, n: nat, b0: Bytes, done: seq<T>, m: nat, b: Bytes)
    requires Resumes(dec, n, b0, done, m, b) && m > 0
    ensures match dec(b) case Ok(x, rest) => Resumes(dec, n, b0, done + [x], m - 1, rest) case Bad(w) => DecMany(dec, n, b0) == Bad(w)
  {
    match dec(b) {
      case Ok(x, rest) =>
        match DecMany(dec, m - 1, rest) {
          case Ok(l, _) => assert done + ([x] + l) == done + [x] + l;
          case Bad(w) =>
        }
      case Bad(w) =>
    }
  }

  lemma ResumeEnd<T>(dec: Bytes -> Read<T>, n: nat, b0: Bytes, done: seq<T>, b: Bytes)
    requires Resumes(dec, n, b0, done, 0, b)
    ensures DecMany(dec, n, b0) == Ok(done, b)
  {
    assert done + [] == done;
  }

  /** The same for the nested functions. */
  ghost predicate ResumesProtos(n: nat, b0: Bytes, parent: Option<Text>, depth: nat, check: Proto -> bool, done: seq<Proto>, m: nat, b: Bytes) {
    DecProtos(n, b0, parent, depth, check)
      == match DecProtos(m, b, parent, depth, check) case Ok(l, rest) => Ok(done + l, rest) case Bad(w) => Bad(w)
  }

  lemma ProtosStart(n: nat, b: Bytes, parent: Option<Text>, depth: nat, check: Proto -> bool)
    ensures ResumesProtos(n, b, parent, depth, check, [], n, b)
  {
    hide DecProtos;
    match DecProtos(n, b, parent, depth, check) {
      case Ok(l, rest) => assert [] + l == l;
      case Bad(w) =>
    }
  }

  lemma ProtosStep(n: nat, b0: Bytes, parent: Option<Text>, depth: nat, check: Proto -> bool, done: seq<Proto>, m: nat, b: Bytes)
    requires ResumesProtos(n, b0, parent, depth, check, done, m, b) && m > 0
    ensures match DecProto(b, parent, depth, check)
            case Ok(x, rest) => ResumesProtos(n, b0, parent, depth, check, done + [x], m - 1, rest)
            case Bad(w) => DecProtos(n, b0, parent, depth, check) == Bad(w)
  {
    hide DecProto;
    match DecProto(b, parent, depth, check) {
      case Ok(x, rest) =>
        match DecProtos(m - 1, rest, parent, depth, check) {
          case Ok(l, _) => assert done + ([x] + l) == done + [x] + l;
          case Bad(w) =>
        }
      case Bad(w) =>
    }
  }

  lemma ProtosEnd(n: nat, b0: Bytes, parent: Option<Text>, depth: nat, check: Proto -> bool, done: seq<Proto>, b: Bytes)
    requires ResumesProtos(n, b0, parent, depth, check, done, 0, b)
    ensures DecProtos(n, b0, parent, depth, check) == Ok(done, b)
  {
    assert done + [] == done;
  }

  // ------------------------------------------------------------------ the reader

  /** The answer `o` and the bytes `z` left are those of the reading `r`. */
  ghost predicate Yields<T>(r: Read<T>, o: Fallible<T>, z: Bytes) {
    match r
    case Ok(v, rest) => o == Returned(v) && z == rest
    case Bad(w) => o == Raised(w)
  }

  class LoadState {
    /** What the stream still holds. */
    var z: Bytes
    /** The depth of nested C calls. */
    var nCcalls: nat
    /** The code checker. */
    const check: Proto -> bool

    constructor (z: Bytes, nCcalls: nat, check: Proto -> bool)
      ensures this.z == z && this.nCcalls == nCcalls && this.check == check
    {
      this.z, this.nCcalls, this.check := z, nCcalls, check;
    }

    method LoadBlock(n: nat) returns (o: Fallible<Bytes>)
      modifies this`z
      ensures Yields(Block(old(z), n), o, z)
    {
      if |z| < n { return Raised("unexpected end"); }
      o := Returned(z[..n]);
      z := z[n..];
    }

    method LoadChar() returns (o: Fallible<Byte>)
      modifies this`z
      ensures Yields(DecByte(old(z)), o, z)
    {
      var b :- LoadBlock(1);
      return Returned(b[0]);
    }

    method LoadInt() returns (o: Fallible<Int32>)
      modifies this`z
      ensures Yields(DecInt(old(z)), o, z)
    {
      var b :- LoadBlock(4);
      var x := IntOf(b);
      if x < 0 { return Raised("bad integer"); }
      return Returned(x);
    }

    method LoadNumber() returns (o: Fallible<Number>)
      modifies this`z
      ensures Yields(DecNumber(old(z)), o, z)
    {
      var b :- LoadBlock(8);
      var x: Number := b;
      return Returned(x);
    }

    method LoadString() returns (o: Fallible<Option<Text>>)
      modifies this`z
      ensures Yields(DecString(old(z)), o, z)
    {
      Four();
      var b :- LoadBlock(8);
      var size := FromLE(b);
      if size == 0 { return Returned(None); }
      var s :- LoadBlock(size);
      return Returned(Some(s[..size - 1]));
    }

    method LoadCode() returns (o: Fallible<seq<Word>>)
      modifies this`z
      ensures Yields(DecList(DecWord, old(z)), o, z)
    {
      hide DecWord, WordOf, DecInt, DecMany, Vector, Reads;
      var x :- LoadInt();
      var n: nat := x;
      WordReads();
      VectorIsMany(DecWord, WordOf, n, z);
      var b :- LoadBlock(4 * n);
      return Returned(Vector(WordOf, n, b));
    }

    method LoadLines() returns (o: Fallible<seq<Int32>>)
      modifies this`z
      ensures Yields(DecList(DecRaw, old(z)), o, z)
    {
      hide DecRaw, IntOf, DecInt, DecMany, Vector, Reads;
      var x :- LoadInt();
      var n: nat := x;
      IntReads();
      VectorIsMany(DecRaw, IntOf, n, z);
      var b :- LoadBlock(4 * n);
      return Returned(Vector(IntOf, n, b));
    }

    method LoadConstant() returns (o: Fallible<Constant>)
      modifies this`z
      ensures Yields(DecConstant(old(z)), o, z)
    {
      hide DecString;
      var t :- LoadChar();
      match t {
        case 0 => return Returned(KNil);
        case 1 => var b :- LoadChar(); return Returned(KBool(b != 0));
        case 3 => var n :- LoadNumber(); return Returned(KNumber(n));
        case 4 => var s :- LoadString(); return Returned(KString(s));
        case _ => return Raised("bad constant");
      }
    }

    method LoadConstants() returns (o: Fallible<seq<Constant>>)
      modifies this`z
      ensures Yields(DecList(DecConstant, old(z)), o, z)
    {
      hide DecConstant, DecMany, Resumes;
      var n :- LoadInt();
      ghost var b0 := z;
      var k: seq<Constant>, i := [], 0;
      ResumeStart(DecConstant, n, z);
      while i < n
        invariant 0 <= i <= n && Resumes(DecConstant, n, b0, k, n - i, z)
      {
        ResumeStep(DecConstant, n, b0, k, n - i, z);
        var c :- LoadConstant();
        k, i := k + [c], i + 1;
      }
      ResumeEnd(DecConstant, n, b0, k, z);
      return Returned(k);
    }

    method LoadLocVar() returns (o: Fallible<LocVar>)
      modifies this`z
      ensures Yields(DecLocVar(old(z)), o, z)
    {
      hide DecString, DecInt;
      var name :- LoadString();
      var start :- LoadInt();
      var end :- LoadInt();
      return Returned(LocVar(name, start, end));
    }

    method LoadLocVars() returns (o: Fallible<seq<LocVar>>)
      modifies this`z
      ensures Yields(DecList(DecLocVar, old(z)), o, z)
    {
      hide DecLocVar, DecMany, Resumes;
      var n :- LoadInt();
      ghost var b0 := z;
      var l: seq<LocVar>, i := [], 0;
      ResumeStart(DecLocVar, n, z);
      while i < n
        invariant 0 <= i <= n && Resumes(DecLocVar, n, b0, l, n - i, z)
      {
        ResumeStep(DecLocVar, n, b0, l, n - i, z);
        var v :- LoadLocVar();
        l, i := l + [v], i + 1;
      }
      ResumeEnd(DecLocVar, n, b0, l, z);
      return Returned(l);
    }

    method LoadUpvalues() returns (o: Fallible<seq<Option<Text>>>)
      modifies this`z
      ensures Yields(DecList(DecString, old(z)), o, z)
    {
      hide DecString, DecMany, Resumes;
      var n :- LoadInt();
      ghost var b0 := z;
      var l: seq<Option<Text>>, i := [], 0;
      ResumeStart(DecString, n, z);
      while i < n
        invariant 0 <= i <= n && Resumes(DecString, n, b0, l, n - i, z)
      {
        ResumeStep(DecString, n, b0, l, n - i, z);
        var s :- LoadString();
        l, i := l + [s], i + 1;
      }
      ResumeEnd(DecString, n, b0, l, z);
      return Returned(l);
    }

    method LoadDebug() returns (o: Fallible<Debug>)
      modifies this`z
      ensures Yields(DecDebug(old(z)), o, z)
    {
      hide DecList;
      var lines :- LoadLines();
      var vars :- LoadLocVars();
      var ups :- LoadUpvalues();
      return Returned(Debug(lines, vars, ups));
    }

    /** The part of a function before its nested functions. */
    method LoadHead(parent: Option<Text>) returns (o: Fallible<Head>)
      modifies this`z
      ensures Yields(DecHead(old(z), parent), o, z)
    {
      hide DecString, DecInt, DecList;
      var source :- LoadString();
      if source == None { source := parent; }
      var linedefined :- LoadInt();
      var lastlinedefined :- LoadInt();
      var q :- LoadFour();
      var code :- LoadCode();
      var k :- LoadConstants();
      return Returned(Head(source, linedefined, lastlinedefined, q[0], q[1], q[2], q[3], code, k));
    }

    /** The four one-byte fields. */
    method LoadFour() returns (o: Fallible<Bytes>)
      modifies this`z
      ensures Yields(Block(old(z), 4), o, z)
    {
      var nups :- LoadChar();
      var numparams :- LoadChar();
      var isVararg :- LoadChar();
      var maxstacksize :- LoadChar();
      assert [nups, numparams, isVararg, maxstacksize] == old(z)[..4];
      return Returned([nups, numparams, isVararg, maxstacksize]);
    }

    /** `n` nested functions, behind the constants. */
    method LoadProtos(n: nat, source: Option<Text>) returns (o: Fallible<seq<Proto>>)
      requires nCcalls <= LUAI_MAXCCALLS
      modifies this`z, this`nCcalls
      ensures Yields(DecProtos(n, old(z), source, old(nCcalls), check), o, z)
      ensures o.Returned? ==> nCcalls == old(nCcalls)
      decreases LUAI_MAXCCALLS - nCcalls, 1
    {
      hide DecProto, DecProtos, ResumesProtos;
      ghost var b0, depth := z, nCcalls;
      var p: seq<Proto>, i := [], 0;
      ProtosStart(n, z, source, depth, check);
      while i < n
        invariant 0 <= i <= n && nCcalls == depth
        invariant ResumesProtos(n, b0, source, depth, check, p, n - i, z)
      {
        ProtosStep(n, b0, source, depth, check, p, n - i, z);
        var f :- LoadFunction(source);
        p, i := p + [f], i + 1;
      }
      ProtosEnd(n, b0, source, depth, check, p, z);
      return Returned(p);
    }

    method LoadFunction(parent: Option<Text>) returns (o: Fallible<Proto>)
      modifies this`z, this`nCcalls
      ensures Yields(DecProto(old(z), parent, old(nCcalls), check), o, z)
      ensures o.Returned? ==> nCcalls == old(nCcalls)
      decreases LUAI_MAXCCALLS - nCcalls, 0
    {
      hide DecHead, DecInt, DecProtos, DecDebug;
      nCcalls := nCcalls + 1;
      if nCcalls > LUAI_MAXCCALLS { return Raised("code too deep"); }
      var h :- LoadHead(parent);
      var n :- LoadInt();
      var p :- LoadProtos(n, h.source);
      var d :- LoadDebug();
      var f := Assemble(h, p, d);
      if !check(f) { return Raised("bad code"); }
      nCcalls := nCcalls - 1;
      return Returned(f);
    }

    method LoadHeader() returns (o: Fallible<()>)
      modifies this`z
      ensures Yields(match Block(old(z), |HEADER|) case Bad(w) => Bad(w) case Ok(h, rest) => if h != HEADER then Bad("bad header") else Ok((), rest), o, z)
    {
      var s :- LoadBlock(|HEADER|);
      if s != HEADER { return Raised("bad header"); }
      return Returned(());
    }

    /** `luaU_undump`. */
    method LoadChunk() returns (o: Fallible<Proto>)
      modifies this`z, this`nCcalls
      ensures Yields(Undump(old(z), old(nCcalls), check), o, z)
      ensures o.Returned? ==> nCcalls == old(nCcalls)
    {
      hide DecProto;
      var _ :- LoadHeader();
      o := LoadFunction(Some(UNKNOWN));
    }
  }
}
