/** The best size of the array part, and the counts it is computed from. */
module TblSizes {
  import opened Common
  import opened TblModel

  lemma {:induction false} Pow2Mono(i: nat, k: nat)
    requires i <= k
    ensures Pow2(i) <= Pow2(k)
    ensures i < k ==> 2 * Pow2(i) <= Pow2(k)
    decreases k - i
  {
    if i < k { Pow2Mono(i, k - 1); }
  }

  lemma Pow2Max()
    ensures Pow2(MAXBITS) == MAXASIZE
  {
    assert Pow2(10) == 1024;
    assert Pow2(20) == 1024 * Pow2(10) by {
      assert Pow2(15) == 32 * Pow2(10);
      assert Pow2(20) == 32 * Pow2(15);
    }
    assert Pow2(26) == 64 * Pow2(20);
  }

  /** `ceillog2`: the slice that holds `x`. */
  function CeilLog2(x: nat): (i: nat)
    requires x >= 1
    ensures Pow2(i) / 2 < x <= Pow2(i)
  {
    if x == 1 then 0 else CeilLog2((x + 1) / 2) + 1
  }

  lemma CeilLog2Bound(x: nat, b: nat)
    requires 1 <= x
    ensures CeilLog2(x) <= b <==> x <= Pow2(b)
  {
    if CeilLog2(x) <= b { Pow2Mono(CeilLog2(x), b); } else { Pow2Mono(b, CeilLog2(x)); }
  }

  // ------------------------------------------------------------------ counts

  /** The keys of slice `i`: between 2^(i-1), exclusive, and 2^i. */
  function Slice(keys: set<nat>, i: nat): set<nat> {
    set k | k in keys && Pow2(i) / 2 < k <= Pow2(i)
  }

  function Upto(keys: set<nat>, n: nat): set<nat> {
    set k | k in keys && 1 <= k <= n
  }

  predicate InRange(keys: set<nat>) {
    forall k :: k in keys ==> 1 <= k <= MAXASIZE
  }

  /** `nums` counts the keys slice by slice. */
  ghost predicate Counts(nums: seq<nat>, keys: set<nat>) {
    |nums| == MAXBITS + 1 && forall i :: 0 <= i < |nums| ==> nums[i] == |Slice(keys, i)|
  }

  lemma SameCount(a: set<nat>, b: set<nat>)
    requires a <= b && |a| == |b|
    ensures a == b
  {
    if b - a != {} {
      var x :| x in b - a;
      SubsetSize(a, b - {x});
    }
  }

  lemma {:induction false} IntervalCount(keys: set<nat>, n: nat)
    requires forall k :: k in keys ==> 1 <= k <= n
    ensures |keys| <= n
    decreases n
  {
    if n == 0 {
      assert forall k :: k !in keys;
      assert keys == {};
    } else {
      IntervalCount(keys - {n}, n - 1);
    }
  }

  lemma UptoSlice(keys: set<nat>, i: nat)
    ensures |Upto(keys, Pow2(i))| == |Upto(keys, Pow2(i) / 2)| + |Slice(keys, i)|
  {
    assert Upto(keys, Pow2(i)) == Upto(keys, Pow2(i) / 2) + Slice(keys, i);
    assert Upto(keys, Pow2(i) / 2) !! Slice(keys, i);
  }

  lemma UptoCount(keys: set<nat>, n: nat)
    ensures |Upto(keys, n)| <= n && |Upto(keys, n)| <= |keys|
  {
    IntervalCount(Upto(keys, n), n);
    SubsetSize(Upto(keys, n), keys);
  }

  lemma UptoAll(keys: set<nat>, n: nat, m: nat)
    requires |Upto(keys, n)| == |keys| && n <= m
    ensures |Upto(keys, m)| == |keys|
  {
    SameCount(Upto(keys, n), keys);
    assert Upto(keys, m) == keys;
  }

  lemma CountOne(nums: seq<nat>, keys: set<nat>, k: nat)
    requires Counts(nums, keys) && k !in keys && 1 <= k <= MAXASIZE
    ensures CeilLog2(k) <= MAXBITS
    ensures Counts(nums[CeilLog2(k) := nums[CeilLog2(k)] + 1], keys + {k})
  {
    var l := CeilLog2(k);
    Pow2Max();
    CeilLog2Bound(k, MAXBITS);
    forall i | 0 <= i <= MAXBITS ensures |Slice(keys + {k}, i)| == |Slice(keys, i)| + (if i == l then 1 else 0) {
      SliceUnique(k, i);
      if i == l {
        assert Slice(keys + {k}, i) == Slice(keys, i) + {k};
      } else {
        assert Slice(keys + {k}, i) == Slice(keys, i);
      }
    }
  }

  lemma SliceUnique(k: nat, i: nat)
    requires 1 <= k
    ensures Pow2(i) / 2 < k <= Pow2(i) <==> i == CeilLog2(k)
  {
    var l := CeilLog2(k);
    if i < l { Pow2Mono(i, l); } else if l < i { Pow2Mono(l, i); }
  }

  // ------------------------------------------------------------ the best size

  /** The largest power of two `n` such that more than half of 1..n are keys, or 0. */
  ghost predicate Best(keys: set<nat>, n: nat) {
    && (n == 0 || exists i: nat :: i <= MAXBITS && n == Pow2(i))
    && (n > 0 ==> |Upto(keys, n)| > n / 2)
    && forall i: nat :: Pow2(i) > n ==> |Upto(keys, Pow2(i))| <= Pow2(i) / 2
  }

  /** There is only one. */
  lemma BestUnique(keys: set<nat>, n: nat, m: nat)
    requires Best(keys, n) && Best(keys, m)
    ensures n == m
  {
    assert forall i: nat :: i <= MAXBITS && (m == Pow2(i) || n == Pow2(i)) ==> Pow2(i) <= n && Pow2(i) <= m;
  }

  /** The best size among the first `i` powers of two. */
  ghost predicate BestBelow(keys: set<nat>, n: nat, i: nat) {
    && (n == 0 || exists k: nat :: k < i && k <= MAXBITS && n == Pow2(k))
    && (n > 0 ==> |Upto(keys, n)| > n / 2)
    && forall k: nat :: k < i && Pow2(k) > n ==> |Upto(keys, Pow2(k))| <= Pow2(k) / 2
  }

  lemma BelowNext(keys: set<nat>, n: nat, i: nat)
    requires BestBelow(keys, n, i) && i <= MAXBITS
    ensures BestBelow(keys, if |Upto(keys, Pow2(i))| > Pow2(i) / 2 then Pow2(i) else n, i + 1)
  {
    hide Upto;
    forall k: nat | k <= i ensures Pow2(k) <= Pow2(i) { Pow2Mono(k, i); }
  }

  lemma BelowBest(keys: set<nat>, n: nat, i: nat)
    requires BestBelow(keys, n, i) && forall k: nat :: k >= i ==> |Upto(keys, Pow2(k))| <= Pow2(k) / 2
    ensures Best(keys, n)
  {
    hide Upto;
  }

  /** `computesizes`: the size of the array part and how many of the keys go there. */
  method ComputeSizes(nums: array<nat>, narray: nat, ghost keys: set<nat>) returns (n: nat, na: nat)
    requires InRange(keys) && Counts(nums[..], keys) && narray == |keys|
    ensures Best(keys, n) && na == |Upto(keys, n)| && n / 2 <= na <= n
  {
    hide BestBelow, Best, Upto, Slice;
    var i, twotoi, a := 0, 1, 0;
    n, na := 0, 0;
    NoneBelow(keys);
    Pow2Max();
    IntervalCount(keys, MAXASIZE);
    ghost var top := 0;
    while twotoi / 2 < narray
      invariant twotoi == Pow2(i) && a == |Upto(keys, Pow2(i) / 2)| && na == |Upto(keys, n)|
      invariant BestBelow(keys, n, i) && top == i && (n > 0 ==> na > n / 2)
      decreases narray - twotoi / 2
    {
      assert i <= MAXBITS by { if i > MAXBITS { Pow2Mono(MAXBITS, i); } }
      UptoSlice(keys, i);
      UptoCount(keys, Pow2(i) / 2);
      BelowNext(keys, n, i);
      assert nums[i] == nums[..][i];
      if nums[i] > 0 {
        a := a + nums[i];
        if a > twotoi / 2 {
          n := twotoi;
          na := a;
        }
      }
      top := i + 1;
      if a == narray {
        AllCounted(keys, i);
        break;
      }
      i, twotoi := i + 1, twotoi * 2;
    }
    if a != narray || twotoi / 2 >= narray { TooFew(keys, i, twotoi); }
    BelowBest(keys, n, top);
    UptoCount(keys, n);
  }

  lemma NoneBelow(keys: set<nat>)
    ensures Upto(keys, 0) == {} && BestBelow(keys, 0, 0)
  {
  }

  lemma AllCounted(keys: set<nat>, i: nat)
    requires |Upto(keys, Pow2(i))| == |keys|
    ensures forall k: nat :: k > i ==> |Upto(keys, Pow2(k))| <= Pow2(k) / 2
  {
    UptoCount(keys, Pow2(i));
    forall k: nat | k > i ensures |Upto(keys, Pow2(k))| <= Pow2(k) / 2 {
      Pow2Mono(i, k);
      UptoAll(keys, Pow2(i), Pow2(k));
    }
  }

  lemma TooFew(keys: set<nat>, i: nat, twotoi: nat)
    requires twotoi == Pow2(i) && twotoi / 2 >= |keys|
    ensures forall k: nat :: k >= i ==> |Upto(keys, Pow2(k))| <= Pow2(k) / 2
  {
    forall k: nat | k >= i ensures |Upto(keys, Pow2(k))| <= Pow2(k) / 2 {
      Pow2Mono(i, k);
      UptoCount(keys, Pow2(k));
    }
  }

  // ------------------------------------------------------------ lists

  ghost function FromOne(m: nat): (s: set<nat>)
    ensures |s| == m && forall k :: k in s <==> 1 <= k <= m
  {
    if m == 0 then {} else FromOne(m - 1) + {m}
  }

  /** The elements 1 to m of a list all go to an array part of the least power of two that holds them. */
  lemma ListInArray(m: nat)
    requires 1 <= m <= MAXASIZE
    ensures Best(FromOne(m), Pow2(CeilLog2(m))) && Upto(FromOne(m), Pow2(CeilLog2(m))) == FromOne(m)
    ensures Pow2(CeilLog2(m)) / 2 < m <= Pow2(CeilLog2(m))
  {
    hide Pow2;
    var keys, lg := FromOne(m), CeilLog2(m);
    Pow2Max();
    CeilLog2Bound(m, MAXBITS);
    assert Upto(keys, Pow2(lg)) == keys;
    forall i: nat | Pow2(i) > Pow2(lg) ensures |Upto(keys, Pow2(i))| <= Pow2(i) / 2 {
      if i <= lg { Pow2Mono(i, lg); } else { Pow2Mono(lg, i); }
      assert Upto(keys, Pow2(i)) == keys;
    }
  }
}
