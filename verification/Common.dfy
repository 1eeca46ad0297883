/** Types and notions that several parts share. */
module Common {
  type Byte = n: nat | n < 256 witness 0

  type Bytes = seq<Byte>

  /** The largest integer of the C code, less two for safety. */
  const MAX_INT: int := 0x7FFF_FFFF - 2

  datatype Option<T> = None | Some(value: T)

  /** The answer of code that may raise an error, which abandons everything it was called from. */
  datatype Fallible<T> = Returned(value: T) | Raised(why: string) {
    predicate IsFailure() { Raised? }

    function PropagateFailure<U>(): Fallible<U>
      requires Raised?
    {
      Raised(why)
    }

    function Extract(): T
      requires Returned?
    {
      value
    }
  }

  predicate IsDigit(c: Byte) { 48 <= c <= 57 }

  ghost predicate NoDup(l: seq<nat>) {
    forall i, j :: 0 <= i < j < |l| ==> l[i] != l[j]
  }

  function Pow2(i: nat): (p: nat)
    ensures p >= 1
  {
    if i == 0 then 1 else 2 * Pow2(i - 1)
  }

  lemma {:induction false} SubsetSize<T>(a: set<T>, b: set<T>)
    requires a <= b
    ensures |a| <= |b|
    decreases |a|
  {
    if a != {} {
      var x :| x in a;
      SubsetSize(a - {x}, b - {x});
    }
  }
}
