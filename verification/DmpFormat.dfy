/** The format of precompiled chunks: function prototypes as bytes and back. */
module DmpFormat {
  import opened Common

  type Int32 = x: int | -0x8000_0000 <= x < 0x8000_0000

  type Word = x: nat | x < 0x1_0000_0000

  const MAX_SIZE: nat := 0x1_0000_0000_0000_0000
  const LUAI_MAXCCALLS: nat := 200

  /** A string of the program; its length fits a `size_t`. */
  type Text = s: Bytes | |s| + 1 < MAX_SIZE witness []

  /** A number is the 8 bytes of a double. */
  type Number = s: Bytes | |s| == 8 witness [0, 0, 0, 0, 0, 0, 0, 0]

  datatype Constant = KNil | KBool(b: bool) | KNumber(n: Number) | KString(s: Option<Text>)

  datatype LocVar = LocVar(varname: Option<Text>, startpc: Int32, endpc: Int32)

  datatype Proto = Proto(
    source: Option<Text>, linedefined: Int32, lastlinedefined: Int32,
    nups: Byte, numparams: Byte, isVararg: Byte, maxstacksize: Byte,
    code: seq<Word>, k: seq<Constant>, p: seq<Proto>,
    lineinfo: seq<Int32>, locvars: seq<LocVar>, upvalues: seq<Option<Text>>)

  // ------------------------------------------------------------------ numbers

  function Pow256(w: nat): (p: nat)
    ensures p >= 1
  {
    if w == 0 then 1 else 256 * Pow256(w - 1)
  }

  /** `w` bytes, the least significant one first. */
  function ToLE(n: nat, w: nat): (b: Bytes)
    ensures |b| == w
  {
    if w == 0 then [] else [n % 256] + ToLE(n / 256, w - 1)
  }

  function FromLE(b: Bytes): (n: nat)
    ensures n < Pow256(|b|)
  {
    if b == [] then 0 else b[0] + 256 * FromLE(b[1..])
  }

  lemma {:induction false} LERoundTrip(n: nat, w: nat)
    requires n < Pow256(w)
    ensures FromLE(ToLE(n, w)) == n
  {
    if w > 0 {
      LERoundTrip(n / 256, w - 1);
      assert ToLE(n, w)[1..] == ToLE(n / 256, w - 1);
    }
  }

  // ------------------------------------------------------------------ writing

  function EncInt(x: Int32): Bytes {
    ToLE(if x < 0 then x + 0x1_0000_0000 else x, 4)
  }

  function EncSize(n: nat): Bytes {
    ToLE(n, 8)
  }

  function EncString(s: Option<Text>): Bytes {
    match s
    case None => EncSize(0)
    case Some(t) => EncSize(|t| + 1) + t + [0]
  }

  function EncWord(w: Word): Bytes {
    ToLE(w, 4)
  }

  function EncConstant(c: Constant): Bytes {
    match c
    case KNil => [0]
    case KBool(b) => [1, if b then 1 else 0]
    case KNumber(n) => [3] + n
    case KString(s) => [4] + EncString(s)
  }

  function EncLocVar(v: LocVar): Bytes {
    EncString(v.varname) + EncInt(v.startpc) + EncInt(v.endpc)
  }

  /** One encoding after the other. */
  function EncAll<T>(enc: T -> Bytes, l: seq<T>): Bytes {
    if l == [] then [] else enc(l[0]) + EncAll(enc, l[1..])
  }

  function EncCount(n: nat): Bytes {
    ToLE(n % 0x1_0000_0000, 4)
  }

  function EncList<T>(enc: T -> Bytes, l: seq<T>): Bytes {
    EncCount(|l|) + EncAll(enc, l)
  }

  /** `DumpDebug`: stripped chunks have no debug data. */
  function EncDebug(f: Proto, strip: bool): Bytes {
    EncList(EncInt, if strip then [] else f.lineinfo)
    + EncList(EncLocVar, if strip then [] else f.locvars)
    + EncList(EncString, if strip then [] else f.upvalues)
  }

  /** The source is left out when it is that of the enclosing function, or stripped. */
  function EncSource(f: Proto, parent: Option<Text>, strip: bool): Bytes {
    EncString(if f.source == parent || strip then None else f.source)
  }

  function EncFixed(f: Proto): Bytes {
    EncInt(f.linedefined) + EncInt(f.lastlinedefined) + [f.nups, f.numparams, f.isVararg, f.maxstacksize]
  }

  /** `DumpFunction`. */
  function EncProto(f: Proto, parent: Option<Text>, strip: bool): Bytes
    decreases f
  {
    EncSource(f, parent, strip) + EncFixed(f) + EncList(EncWord, f.code) + EncList(EncConstant, f.k)
    + EncCount(|f.p|) + EncProtos(f.p, f.source, strip) + EncDebug(f, strip)
  }

  function EncProtos(l: seq<Proto>, parent: Option<Text>, strip: bool): Bytes
    decreases l
  {
    if l == [] then [] else EncProto(l[0], parent, strip) + EncProtos(l[1..], parent, strip)
  }

  /** The signature, version 5.1, format 0, little-endian, and the sizes of int, size_t,
      instructions and numbers; numbers are not integral. */
  const HEADER: Bytes := [27, 76, 117, 97, 0x51, 0, 1, 4, 8, 4, 8, 0]

  function Dump(f: Proto, strip: bool): Bytes {
    HEADER + EncProto(f, None, strip)
  }

  // ------------------------------------------------------------------ reading

  datatype Read<T> = Ok(value: T, rest: Bytes) | Bad(why: string)

  function Block(b: Bytes, n: nat): (r: Read<Bytes>)
    ensures r.Ok? ==> |r.value| == n && b == r.value + r.rest
  {
    if |b| < n then Bad("unexpected end") else Ok(b[..n], b[n..])
  }

  function DecByte(b: Bytes): (r: Read<Byte>)
    ensures r.Ok? ==> |r.rest| < |b|
  {
    match Block(b, 1)
    case Ok(v, rest) => Ok(v[0], rest)
    case Bad(w) => Bad(w)
  }

  function Signed(n: nat): (x: Int32)
    requires n < 0x1_0000_0000
  {
    if n < 0x8000_0000 then n else n - 0x1_0000_0000
  }

  lemma Four()
    ensures Pow256(4) == 0x1_0000_0000 && Pow256(8) == MAX_SIZE
  {
    assert Pow256(2) == 0x1_0000;
    assert Pow256(3) == 0x100_0000;
    assert Pow256(4) == 0x1_0000_0000;
    assert Pow256(6) == 0x1_0000 * Pow256(4);
    assert Pow256(8) == 0x1_0000 * Pow256(6);
  }

  /** An element of a vector of integers, which may be negative. */
  function DecRaw(b: Bytes): (r: Read<Int32>)
    ensures r.Ok? ==> |r.rest| < |b|
  {
    match Block(b, 4)
    case Ok(v, rest) => Four(); Ok(Signed(FromLE(v)), rest)
    case Bad(w) => Bad(w)
  }

  /** `LoadInt` refuses negative numbers. */
  function DecInt(b: Bytes): (r: Read<Int32>)
    ensures r.Ok? ==> r.value >= 0 && |r.rest| < |b|
  {
    match DecRaw(b)
    case Ok(x, rest) => if x < 0 then Bad("bad integer") else Ok(x, rest)
    case Bad(w) => Bad(w)
  }

  function DecWord(b: Bytes): (r: Read<Word>)
    ensures r.Ok? ==> |r.rest| < |b|
  {
    match Block(b, 4)
    case Ok(v, rest) => Four(); Ok(FromLE(v), rest)
    case Bad(w) => Bad(w)
  }

  /** The last byte of a string is dropped, whatever it is. */
  function DecString(b: Bytes): (r: Read<Option<Text>>)
    ensures r.Ok? ==> |r.rest| < |b|
  {
    match Block(b, 8)
    case Bad(w) => Bad(w)
    case Ok(v, rest) =>
      Four();
      var size := FromLE(v);
      if size == 0 then Ok(None, rest)
      else
        match Block(rest, size)
        case Bad(w) => Bad(w)
        case Ok(s, rest') => Ok(Some(s[..size - 1]), rest')
  }

  function DecNumber(b: Bytes): (r: Read<Number>)
    ensures r.Ok? ==> |r.rest| < |b|
  {
    match Block(b, 8)
    case Ok(v, rest) => var n: Number := v; Ok(n, rest)
    case Bad(w) => Bad(w)
  }

  function DecConstant(b: Bytes): (r: Read<Constant>)
    ensures r.Ok? ==> |r.rest| < |b|
  {
    match DecByte(b)
    case Bad(w) => Bad(w)
    case Ok(t, rest) =>
      if t == 0 then Ok(KNil, rest)
      else if t == 1 then (match DecByte(rest) case Ok(v, rest') => Ok(KBool(v != 0), rest') case Bad(w) => Bad(w))
      else if t == 3 then (match DecNumber(rest) case Ok(v, rest') => Ok(KNumber(v), rest') case Bad(w) => Bad(w))
      else if t == 4 then (match DecString(rest) case Ok(s, rest') => Ok(KString(s), rest') case Bad(w) => Bad(w))
      else Bad("bad constant")
  }

  function DecLocVar(b: Bytes): (r: Read<LocVar>)
    ensures r.Ok? ==> |r.rest| < |b|
  {
    match DecString(b)
    case Bad(w) => Bad(w)
    case Ok(name, b1) =>
      match DecInt(b1)
      case Bad(w) => Bad(w)
      case Ok(start, b2) =>
        match DecInt(b2)
        case Bad(w) => Bad(w)
        case Ok(end, b3) => Ok(LocVar(name, start, end), b3)
  }

  function DecMany<T>(dec: Bytes -> Read<T>, n: nat, b: Bytes): Read<seq<T>>
    decreases n
  {
    if n == 0 then Ok([], b)
    else
      match dec(b)
      case Bad(w) => Bad(w)
      case Ok(x, rest) =>
        match DecMany(dec, n - 1, rest)
        case Bad(w) => Bad(w)
        case Ok(l, rest') => Ok([x] + l, rest')
  }

  function DecList<T>(dec: Bytes -> Read<T>, b: Bytes): Read<seq<T>> {
    match DecInt(b)
    case Bad(w) => Bad(w)
    case Ok(n, rest) => DecMany(dec, n, rest)
  }

  datatype Debug = Debug(lineinfo: seq<Int32>, locvars: seq<LocVar>, upvalues: seq<Option<Text>>)

  /** `LoadDebug`. */
  function DecDebug(b: Bytes): Read<Debug> {
    match DecList(DecRaw, b)
    case Bad(w) => Bad(w)
    case Ok(lines, b1) =>
      match DecList(DecLocVar, b1)
      case Bad(w) => Bad(w)
      case Ok(vars, b2) =>
        match DecList(DecString, b2)
        case Bad(w) => Bad(w)
        case Ok(ups, b3) => Ok(Debug(lines, vars, ups), b3)
  }

  datatype Head = Head(source: Option<Text>, linedefined: Int32, lastlinedefined: Int32,
                       nups: Byte, numparams: Byte, isVararg: Byte, maxstacksize: Byte, code: seq<Word>, k: seq<Constant>)

  /** The part of a function before its nested functions. */
  function DecHead(b: Bytes, parent: Option<Text>): Read<Head> {
    match DecString(b)
    case Bad(w) => Bad(w)
    case Ok(s, b1) =>
      match DecInt(b1)
      case Bad(w) => Bad(w)
      case Ok(ld, b2) =>
        match DecInt(b2)
        case Bad(w) => Bad(w)
        case Ok(lld, b3) =>
          match Block(b3, 4)
          case Bad(w) => Bad(w)
          case Ok(q, b4) =>
            match DecList(DecWord, b4)
            case Bad(w) => Bad(w)
            case Ok(code, b5) =>
              match DecList(DecConstant, b5)
              case Bad(w) => Bad(w)
              case Ok(k, b6) => Ok(Head(if s == None then parent else s, ld, lld, q[0], q[1], q[2], q[3], code, k), b6)
  }

  function Assemble(h: Head, p: seq<Proto>, d: Debug): Proto {
    Proto(h.source, h.linedefined, h.lastlinedefined, h.nups, h.numparams, h.isVararg, h.maxstacksize,
      h.code, h.k, p, d.lineinfo, d.locvars, d.upvalues)
  }

  /** `LoadFunction` at nesting depth `depth`; `check` stands for `luaG_checkcode`. */
  function DecProto(b: Bytes, parent: Option<Text>, depth: nat, check: Proto -> bool): Read<Proto>
    decreases LUAI_MAXCCALLS - depth, 0
  {
    if depth + 1 > LUAI_MAXCCALLS then Bad("code too deep")
    else
      match DecHead(b, parent)
      case Bad(w) => Bad(w)
      case Ok(h, b1) =>
        match DecInt(b1)
        case Bad(w) => Bad(w)
        case Ok(n, b2) =>
          match DecProtos(n, b2, h.source, depth + 1, check)
          case Bad(w) => Bad(w)
          case Ok(p, b3) =>
            match DecDebug(b3)
            case Bad(w) => Bad(w)
            case Ok(d, b4) => if check(Assemble(h, p, d)) then Ok(Assemble(h, p, d), b4) else Bad("bad code")
  }

  function DecProtos(n: nat, b: Bytes, parent: Option<Text>, depth: nat, check: Proto -> bool): Read<seq<Proto>>
    decreases LUAI_MAXCCALLS - depth, n + 1
  {
    if n == 0 then Ok([], b)
    else
      match DecProto(b, parent, depth, check)
      case Bad(w) => Bad(w)
      case Ok(f, rest) =>
        match DecProtos(n - 1, rest, parent, depth, check)
        case Bad(w) => Bad(w)
        case Ok(l, rest') => Ok([f] + l, rest')
  }

  const UNKNOWN: Text := [61, 63]

  /** `luaU_undump`, called at C-call depth `depth`. */
  function Undump(b: Bytes, depth: nat, check: Proto -> bool): Read<Proto> {
    match Block(b, |HEADER|)
    case Bad(w) => Bad(w)
    case Ok(h, rest) => if h != HEADER then Bad("bad header") else DecProto(rest, Some(UNKNOWN), depth, check)
  }
}
