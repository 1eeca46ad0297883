/** The in-place quicksort of `table.sort`, for every comparison function. Position k of the array
    is index k of the table; the slots 0 and n + 1 next to the n elements are part of it. */
module Sort {
  import opened Common

  // ------------------------------------------------------------------ order

  /** No value is before itself. */
  ghost predicate Irreflexive<T(!new)>(lt: (T, T) -> bool) {
    forall x {:trigger lt(x, x)} :: !lt(x, x)
  }

  /** No two values are each before the other. */
  ghost predicate Asymmetric<T(!new)>(lt: (T, T) -> bool) {
    forall x, y {:trigger lt(x, y)} :: lt(x, y) ==> !lt(y, x)
  }

  /** Two elements of a part, or one with itself, are each before the other. */
  ghost predicate Mutual<T(!new)>(s: seq<T>, lt: (T, T) -> bool, l: int, u: int) {
    exists i, j {:trigger lt(s[i], s[j])} :: 0 <= i < |s| && 0 <= j < |s| && l <= i <= u && l <= j <= u && lt(s[i], s[j]) && lt(s[j], s[i])
  }

  /** Every element of a part is before every one, itself included. */
  ghost predicate AllBefore<T(!new)>(s: seq<T>, lt: (T, T) -> bool, l: int, u: int) {
    forall i, j {:trigger lt(s[i], s[j])} :: 0 <= i < |s| && 0 <= j < |s| && l <= i <= u && l <= j <= u ==> lt(s[i], s[j])
  }

  /** With asymmetry it is a strict weak order. */
  ghost predicate Transitive<T(!new)>(lt: (T, T) -> bool) {
    forall x, y, z {:trigger lt(x, y), lt(y, z)} {:trigger lt(x, z), lt(y, z)} {:trigger lt(x, z), lt(x, y)} ::
      !lt(x, y) && !lt(y, z) ==> !lt(x, z)
  }

  /** `x` may stand before `y`. */
  predicate Le<T>(lt: (T, T) -> bool, x: T, y: T) {
    !lt(y, x)
  }

  lemma LeTrans<T(!new)>(lt: (T, T) -> bool, x: T, y: T, z: T)
    requires Transitive(lt) && Le(lt, x, y) && Le(lt, y, z)
    ensures Le(lt, x, z)
  {
  }

  ghost predicate Sorted<T(!new)>(s: seq<T>, lt: (T, T) -> bool, l: int, u: int) {
    forall i, j {:trigger s[i], s[j]} :: 0 <= i < |s| && 0 <= j < |s| && l <= i < j <= u ==> Le(lt, s[i], s[j])
  }

  // ------------------------------------------------------------- permutations

  /** Only the elements between `l` and `u` have been rearranged. */
  ghost predicate Perm<T>(s: seq<T>, s': seq<T>, l: int, u: int) {
    && |s| == |s'| && 0 <= l <= u + 1 <= |s|
    && s[..l] == s'[..l] && s[u + 1..] == s'[u + 1..] && multiset(s[l..u + 1]) == multiset(s'[l..u + 1])
  }

  lemma PermTrans<T>(s: seq<T>, s1: seq<T>, s2: seq<T>, l: int, u: int)
    requires Perm(s, s1, l, u) && Perm(s1, s2, l, u)
    ensures Perm(s, s2, l, u)
  {
  }

  /** A rearrangement of a part is one of the whole. */
  lemma PermWiden<T>(s: seq<T>, s': seq<T>, l: int, u: int, l0: int, u0: int)
    requires Perm(s, s', l, u) && 0 <= l0 <= l && u <= u0 < |s| && l <= u + 1
    ensures Perm(s, s', l0, u0)
  {
    assert s[..l0] == s[..l][..l0] && s'[..l0] == s'[..l][..l0];
    assert s[u0 + 1..] == s[u + 1..][u0 - u..] && s'[u0 + 1..] == s'[u + 1..][u0 - u..];
    assert s[l0..u0 + 1] == s[l0..l] + s[l..u + 1] + s[u + 1..u0 + 1];
    assert s'[l0..u0 + 1] == s'[l0..l] + s'[l..u + 1] + s'[u + 1..u0 + 1];
    assert s[l0..l] == s[..l][l0..] && s'[l0..l] == s'[..l][l0..];
    assert s[u + 1..u0 + 1] == s[u + 1..][..u0 - u] && s'[u + 1..u0 + 1] == s'[u + 1..][..u0 - u];
  }

  function Swapped<T>(s: seq<T>, i: nat, j: nat): (s': seq<T>)
    requires i < |s| && j < |s|
    ensures |s'| == |s|
  {
    s[i := s[j]][j := s[i]]
  }

  lemma SwapPerm<T>(s: seq<T>, i: nat, j: nat, l: int, u: int)
    requires 0 <= l <= i <= j <= u < |s|
    ensures Perm(s, Swapped(s, i, j), l, u)
  {
    var s' := Swapped(s, i, j);
    var m := s[l..u + 1];
    SwapSlices(s, i, j, l, u);
    SwapBag(m, i - l, j - l);
  }

  lemma IsSwapped<T>(s: seq<T>, s': seq<T>, i: nat, j: nat)
    requires i < |s| && j < |s| && s' == s[j := s[i]][i := s[j]]
    ensures s' == Swapped(s, j, i) == Swapped(s, i, j)
  {
  }

  lemma SwapSlices<T>(s: seq<T>, i: nat, j: nat, l: int, u: int)
    requires 0 <= l <= i <= j <= u < |s|
    ensures var s' := Swapped(s, i, j);
      s[..l] == s'[..l] && s[u + 1..] == s'[u + 1..] && s'[l..u + 1] == Swapped(s[l..u + 1], i - l, j - l)
  {
  }

  lemma SwapBag<T>(m: seq<T>, x: nat, y: nat)
    requires x < |m| && y < |m|
    ensures multiset(Swapped(m, x, y)) == multiset(m)
  {
  }

  /** Every element of the rearranged part was in that part before. */
  lemma PermFrom<T>(s: seq<T>, s': seq<T>, l: int, u: int, k: int) returns (k0: int)
    requires Perm(s, s', l, u) && 0 <= l <= k <= u < |s|
    ensures l <= k0 <= u && s[k0] == s'[k]
  {
    var m, m' := s[l..u + 1], s'[l..u + 1];
    assert m'[k - l] in multiset(m');
    assert m'[k - l] in multiset(m);
    var x :| 0 <= x < |m| && m[x] == m'[k - l];
    k0 := x + l;
  }

  lemma PermOutside<T>(s: seq<T>, s': seq<T>, l: int, u: int, k: int)
    requires Perm(s, s', l, u) && 0 <= k < |s| && (k < l || k > u)
    ensures s'[k] == s[k]
  {
    if k < l { assert s[k] == s[..l][k] && s'[k] == s'[..l][k]; }
    else { assert s[k] == s[u + 1..][k - u - 1] && s'[k] == s'[u + 1..][k - u - 1]; }
  }

  /** All elements of a part are between two values. */
  ghost predicate Between<T(!new)>(s: seq<T>, lt: (T, T) -> bool, l: int, u: int, p: T, below: bool) {
    forall k {:trigger s[k]} :: 0 <= k < |s| && l <= k <= u ==> if below then Le(lt, s[k], p) else Le(lt, p, s[k])
  }

  lemma BetweenKept<T(!new)>(s: seq<T>, s': seq<T>, lt: (T, T) -> bool, l: int, u: int, p: T, below: bool)
    requires Perm(s, s', l, u) && Between(s, lt, l, u, p, below)
    ensures Between(s', lt, l, u, p, below)
  {
    forall k | 0 <= k < |s'| && l <= k <= u ensures if below then Le(lt, s'[k], p) else Le(lt, p, s'[k]) {
      var k0 := PermFrom(s, s', l, u, k);
    }
  }

  /** Outside `l..u` everything is in its place. */
  ghost predicate Placed<T(!new)>(s: seq<T>, lt: (T, T) -> bool, l0: int, u0: int, l: int, u: int) {
    forall i, j {:trigger s[i], s[j]} :: 0 <= i < |s| && 0 <= j < |s| && l0 <= i < j <= u0 && (i < l || j > u) ==> Le(lt, s[i], s[j])
  }

  lemma PlacedKept<T(!new)>(s: seq<T>, s': seq<T>, lt: (T, T) -> bool, l0: int, u0: int, l: int, u: int)
    requires Perm(s, s', l, u) && Placed(s, lt, l0, u0, l, u) && l0 <= l && u <= u0
    ensures Placed(s', lt, l0, u0, l, u)
  {
    forall i, j | 0 <= i < |s'| && 0 <= j < |s'| && l0 <= i < j <= u0 && (i < l || j > u) ensures Le(lt, s'[i], s'[j]) {
      var i0, j0 := i, j;
      if l <= i <= u { i0 := PermFrom(s, s', l, u, i); } else { PermOutside(s, s', l, u, i); }
      if l <= j <= u { j0 := PermFrom(s, s', l, u, j); } else { PermOutside(s, s', l, u, j); }
    }
  }

  // -------------------------------------------------------- three elements

  /** The ends and the middle element after the first comparisons of `auxsort`. */
  function Three<T>(s: seq<T>, l: nat, u: nat, lt: (T, T) -> bool): (t: seq<T>)
    requires l < u < |s|
    ensures |t| == |s|
  {
    var s1 := if lt(s[u], s[l]) then Swapped(s, l, u) else s;
    var m := (l + u) / 2;
    if u - l == 1 then s1
    else if lt(s1[m], s1[l]) then Swapped(s1, l, m)
    else if lt(s1[u], s1[m]) then Swapped(s1, m, u) else s1
  }

  lemma ThreePerm<T>(s: seq<T>, l: nat, u: nat, lt: (T, T) -> bool)
    requires l < u < |s|
    ensures Perm(s, Three(s, l, u, lt), l, u)
  {
    hide Perm, Swapped;
    var s1 := if lt(s[u], s[l]) then Swapped(s, l, u) else s;
    var m := (l + u) / 2;
    PermSelf(s, l, u);
    SwapPerm(s, l, u, l, u);
    SwapPerm(s1, l, m, l, u);
    SwapPerm(s1, m, u, l, u);
    PermTrans(s, s1, Swapped(s1, l, m), l, u);
    PermTrans(s, s1, Swapped(s1, m, u), l, u);
  }

  lemma ThreeOrdered<T(!new)>(s: seq<T>, l: nat, u: nat, lt: (T, T) -> bool)
    requires l < u < |s| && Asymmetric(lt)
    ensures var t := Three(s, l, u, lt);
      if u - l == 1 then Le(lt, t[l], t[u]) else Le(lt, t[l], t[(l + u) / 2]) && Le(lt, t[(l + u) / 2], t[u])
  {
  }

  /** The middle element is found before the first one only if both are before each other. */
  lemma ThreeMutual<T(!new)>(s: seq<T>, l: nat, u: nat, lt: (T, T) -> bool)
    requires l + 2 <= u < |s|
    ensures var t := Three(s, l, u, lt); var m := (l + u) / 2; lt(t[m], t[l]) ==> lt(t[l], t[m])
  {
  }

  // ------------------------------------------------------------- the algorithm

  /** `set2` with both values on the stack. */
  method Set2<T>(a: array<T>, i: nat, j: nat, x: T, y: T)
    requires i < a.Length && j < a.Length
    modifies a
    ensures a[..] == old(a[..])[i := x][j := y]
  {
    a[i] := x;
    a[j] := y;
  }

  lemma LtLe<T(!new)>(lt: (T, T) -> bool, x: T, y: T)
    requires Asymmetric(lt)
    ensures lt(x, y) ==> Le(lt, x, y)
  {
  }

  lemma PermSelf<T>(s: seq<T>, l: int, u: int)
    requires 0 <= l <= u + 1 <= |s|
    ensures Perm(s, s, l, u)
  {
  }

  /** The first comparisons of `auxsort`. They put the ends and the middle element in order
      unless two values are each before the other. */
  method SortThree<T(!new)>(a: array<T>, l: nat, u: nat, lt: (T, T) -> bool)
    requires l < u < a.Length
    modifies a
    ensures a[..] == Three(old(a[..]), l, u, lt) && Perm(old(a[..]), a[..], l, u)
    ensures Asymmetric(lt) && u - l == 1 ==> Le(lt, a[l], a[u])
    ensures Asymmetric(lt) && u - l >= 2 ==> var m := (l + u) / 2; Le(lt, a[l], a[m]) && Le(lt, a[m], a[u])
    ensures u - l >= 2 ==> var m := (l + u) / 2; lt(a[m], a[l]) ==> lt(a[l], a[m])
  {
    hide Perm, Asymmetric;
    ghost var s := a[..];
    ThreePerm(s, l, u, lt);
    if Asymmetric(lt) { ThreeOrdered(s, l, u, lt); }
    if u - l >= 2 { ThreeMutual(s, l, u, lt); }
    if lt(a[u], a[l]) { Set2(a, l, u, a[u], a[l]); }
    if u - l == 1 { return; }
    ghost var s1 := a[..];
    var i := (l + u) / 2;
    if lt(a[i], a[l]) {
      Set2(a, i, l, a[l], a[i]);
      assert a[..] == Swapped(s1, l, i);
    } else if lt(a[u], a[i]) {
      Set2(a, i, u, a[u], a[i]);
    }
  }

  /** The upward scan has ended at the first element above `i0` that is not before `p`; or with the
      error, because there is none up to `u + 1`. */
  ghost predicate Upward<T(!new)>(s: seq<T>, u: nat, i0: int, p: T, lt: (T, T) -> bool, r: Fallible<nat>) {
    && 0 <= i0 <= u && u + 1 < |s|
    && (r.Returned? ==> i0 < r.value <= u + 1 && !lt(s[r.value], p) && forall k {:trigger s[k]} :: i0 < k < r.value ==> lt(s[k], p))
    && (r.Raised? ==> forall k {:trigger s[k]} :: i0 < k <= u + 1 ==> lt(s[k], p))
  }

  /** The downward scan has ended at the first element below `j0` that `p` is not before; or with the
      error, because there is none down to `l - 1`. */
  ghost predicate Downward<T(!new)>(s: seq<T>, l: nat, j0: int, p: T, lt: (T, T) -> bool, r: Fallible<nat>) {
    && 1 <= l <= j0 < |s|
    && (r.Returned? ==> l - 1 <= r.value < j0 && !lt(p, s[r.value]) && forall k {:trigger s[k]} :: r.value < k < j0 ==> lt(p, s[k]))
    && (r.Raised? ==> forall k {:trigger s[k]} :: l - 1 <= k < j0 ==> lt(p, s[k]))
  }

  /** Repeats ++i until a[i] >= P. The scan ends at the first such element; beyond `u` there is one
      chance left, at `u + 1`, and then comes the error. */
  method ScanUp<T(!new)>(a: array<T>, u: nat, i0: nat, p: T, lt: (T, T) -> bool) returns (r: Fallible<nat>)
    requires i0 <= u < a.Length - 1
    ensures Upward(a[..], u, i0, p, lt, r) && (r.Returned? ==> i0 < r.value <= u + 1)
  {
    var i := i0 + 1;
    while lt(a[i], p)
      invariant i0 < i <= u + 1 && forall k {:trigger a[k]} :: i0 < k < i ==> lt(a[k], p)
      decreases u + 1 - i
    {
      if i > u { return Raised("invalid order function for sorting"); }
      i := i + 1;
    }
    return Returned(i);
  }

  /** Repeats --j until a[j] <= P, at `l - 1` at the latest. */
  method ScanDown<T(!new)>(a: array<T>, l: nat, j0: nat, p: T, lt: (T, T) -> bool) returns (r: Fallible<nat>)
    requires 1 <= l <= j0 < a.Length
    ensures Downward(a[..], l, j0, p, lt, r) && (r.Returned? ==> l - 1 <= r.value < j0)
  {
    var j := j0 - 1;
    while lt(p, a[j])
      invariant l - 1 <= j < j0 && forall k {:trigger a[k]} :: j < k < j0 ==> lt(p, a[k])
      decreases j
    {
      if j < l { return Raised("invalid order function for sorting"); }
      j := j - 1;
    }
    return Returned(j);
  }

  // ---------------------------------------------------------------- partition

  /** The middle element, the pivot, set aside at `u - 1`. */
  function Aside<T>(t: seq<T>, l: nat, u: nat): (q: seq<T>)
    requires l + 2 < u < |t|
    ensures |q| == |t|
  {
    t[(l + u) / 2 := t[u - 1]][u - 1 := t[(l + u) / 2]]
  }

  /** Everything above `k`, up to the slot behind the part, is before the pivot. */
  ghost predicate AllUp<T(!new)>(q: seq<T>, k: int, u: nat, lt: (T, T) -> bool)
    requires 1 <= u && u + 1 < |q|
  {
    forall i {:trigger q[i]} :: 0 <= i && k < i <= u + 1 ==> lt(q[i], q[u - 1])
  }

  /** The pivot is before everything below `k`, down to the slot in front of the part. */
  ghost predicate AllDown<T(!new)>(q: seq<T>, k: int, l: nat, u: nat, lt: (T, T) -> bool)
    requires 1 <= l && l + 2 < u && u + 1 < |q| && k <= u
  {
    forall i {:trigger q[i]} :: l - 1 <= i < k ==> lt(q[u - 1], q[i])
  }

  /** Both scans stop first at `k`, the only element that keeps its place so far. */
  ghost predicate Meets<T(!new)>(q: seq<T>, k: int, l: nat, u: nat, lt: (T, T) -> bool)
    requires 1 <= l && l + 2 < u && u + 1 < |q|
  {
    && l < k < u - 1 && !lt(q[k], q[u - 1]) && !lt(q[u - 1], q[k])
    && (forall i {:trigger q[i]} :: l < i < k ==> lt(q[i], q[u - 1]))
    && (forall i {:trigger q[i]} :: k < i < u - 1 ==> lt(q[u - 1], q[i]))
  }

  /** When the error for an invalid order function is raised: at once, or after both scans have
      met, a scan finds nothing to stop it in the part nor in the slot next to it. */
  ghost predicate Invalid<T(!new)>(q: seq<T>, l: nat, u: nat, lt: (T, T) -> bool)
    requires 1 <= l && l + 2 < u && u + 1 < |q|
  {
    || AllUp(q, l, u, lt)
    || AllDown(q, u - 1, l, u, lt)
    || exists k :: Meets(q, k, l, u, lt) && (AllUp(q, k, u, lt) || AllDown(q, k, l, u, lt))
  }

  /** The upward scan has passed the pivot and the end of the part and stopped behind it. */
  ghost predicate Overran<T(!new)>(t: seq<T>, l: nat, u: nat, lt: (T, T) -> bool)
    requires l + 2 < u && u + 1 < |t|
  {
    var p := t[(l + u) / 2];
    lt(p, p) && lt(t[u], p) && !lt(t[u + 1], p)
  }

  /** The pivot has left the part, and the element behind the part has come in. */
  function Shifted<T>(t: seq<T>, l: nat, u: nat): (s: seq<T>)
    requires l + 2 < u && u + 1 < |t|
    ensures |s| == |t|
  {
    Aside(t, l, u)[u - 1 := t[u + 1]][u + 1 := t[(l + u) / 2]]
  }

  /** An exchange has left elements at `x` and `y` that stop the scans. */
  ghost predicate Guarded<T(!new)>(q: seq<T>, s: seq<T>, lt: (T, T) -> bool, l: nat, u: nat, i: int, j: int, x: int, y: int)
    requires 1 <= l && l + 2 < u && u + 1 < |q| == |s|
  {
    && l < x <= i <= j <= y < u - 1 && x < y && (i == j ==> x < i < y)
    && !lt(q[u - 1], s[x]) && !lt(s[y], q[u - 1]) && !Invalid(q, l, u, lt)
  }

  /** The invariant of the exchanges, for any comparison. */
  ghost predicate Scanning<T(!new)>(q: seq<T>, s: seq<T>, lt: (T, T) -> bool, l: nat, u: nat, i: int, j: int, x: int, y: int) {
    && 1 <= l && l + 2 < u && u + 1 < |q| == |s| && l <= i <= j <= u - 1
    && Perm(q, s, l, u) && s[u - 1] == q[u - 1] && s[l] == q[l]
    && (Guarded(q, s, lt, l, u, i, j, x, y) || (s == q && ((i == l && j == u - 1) || (i == j && Meets(q, i, l, u, lt)))))
  }

  lemma UpFails<T(!new)>(q: seq<T>, s: seq<T>, lt: (T, T) -> bool, l: nat, u: nat, i: int, j: int, x: int, y: int, r: Fallible<nat>)
    requires Scanning(q, s, lt, l, u, i, j, x, y) && Upward(s, u, i, q[u - 1], lt, r) && r.Raised?
    ensures Invalid(q, l, u, lt) && lt(q[u - 1], q[u - 1])
  {
    hide Perm;
    assert lt(s[u - 1], q[u - 1]);
    assert !Guarded(q, s, lt, l, u, i, j, x, y) by { assert i < y <= u + 1 ==> lt(s[y], q[u - 1]); }
    assert AllUp(q, i, u, lt);
  }

  lemma DownFails<T(!new)>(q: seq<T>, s: seq<T>, lt: (T, T) -> bool, l: nat, u: nat, i: int, j: int, x: int, y: int, r: Fallible<nat>)
    requires Scanning(q, s, lt, l, u, i, j, x, y) && Downward(s, l, j, q[u - 1], lt, r) && r.Raised?
    ensures Invalid(q, l, u, lt) && lt(q[u - 1], q[l])
  {
    hide Perm;
    assert lt(q[u - 1], s[l]);
    assert !Guarded(q, s, lt, l, u, i, j, x, y) by { assert l - 1 <= x < j ==> lt(q[u - 1], s[x]); }
    assert AllDown(q, j, l, u, lt);
  }

  /** The scans have passed each other. */
  lemma Halted<T(!new)>(q: seq<T>, s: seq<T>, lt: (T, T) -> bool, l: nat, u: nat, i0: int, j0: int, x: int, y: int, i: nat, j: nat)
    requires Scanning(q, s, lt, l, u, i0, j0, x, y) && j < i
    requires Upward(s, u, i0, q[u - 1], lt, Returned(i)) && Downward(s, l, j0, q[u - 1], lt, Returned(j))
    ensures !Invalid(q, l, u, lt)
    ensures i >= u ==> s == q && lt(q[u - 1], q[u - 1]) && (i == u + 1 ==> lt(q[u], q[u - 1]) && !lt(q[u + 1], q[u - 1]))
  {
    hide Perm;
    if !Guarded(q, s, lt, l, u, i0, j0, x, y) {
      FirstMeeting(q, lt, l, u, i0, j0, x, y, i, j);
    }
  }

  /** Without an exchange the scans go over the same elements once more at most. */
  lemma FirstMeeting<T(!new)>(q: seq<T>, lt: (T, T) -> bool, l: nat, u: nat, i0: int, j0: int, x: int, y: int, i: nat, j: nat)
    requires Scanning(q, q, lt, l, u, i0, j0, x, y) && !Guarded(q, q, lt, l, u, i0, j0, x, y) && j < i
    requires Upward(q, u, i0, q[u - 1], lt, Returned(i)) && Downward(q, l, j0, q[u - 1], lt, Returned(j))
    ensures !Invalid(q, l, u, lt)
    ensures i >= u ==> lt(q[u - 1], q[u - 1]) && (i == u + 1 ==> lt(q[u], q[u - 1]))
  {
    hide Perm;
    assert !AllUp(q, i0, u, lt) && !AllDown(q, j0, l, u, lt);
  }

  /** Before the first exchange of two elements nothing has been wrong. */
  lemma FirstApart<T(!new)>(q: seq<T>, lt: (T, T) -> bool, l: nat, u: nat, i0: int, j0: int, x: int, y: int, i: nat, j: nat)
    requires Scanning(q, q, lt, l, u, i0, j0, x, y) && !Guarded(q, q, lt, l, u, i0, j0, x, y) && i <= j
    requires Upward(q, u, i0, q[u - 1], lt, Returned(i)) && Downward(q, l, j0, q[u - 1], lt, Returned(j))
    ensures if i < j then !Invalid(q, l, u, lt) else Meets(q, i, l, u, lt)
  {
    hide Perm;
    assert !AllUp(q, i0, u, lt) && !AllDown(q, j0, l, u, lt);
  }

  lemma ExchangeGuarded<T(!new)>(q: seq<T>, s: seq<T>, s': seq<T>, lt: (T, T) -> bool, l: nat, u: nat, i0: int, j0: int,
      x: int, y: int, i: nat, j: nat)
    requires Scanning(q, s, lt, l, u, i0, j0, x, y) && i <= j
    requires Upward(s, u, i0, q[u - 1], lt, Returned(i)) && Downward(s, l, j0, q[u - 1], lt, Returned(j))
    requires l < i && j < u - 1 && s' == s[i := s[j]][j := s[i]]
    ensures var x', y' := if i < j then i else x, if i < j then j else y;
      Guarded(q, s', lt, l, u, i, j, x', y') || (s' == q && i == j && Meets(q, i, l, u, lt))
  {
    hide Perm, Invalid, Meets;
    if !Guarded(q, s, lt, l, u, i0, j0, x, y) { FirstApart(q, lt, l, u, i0, j0, x, y, i, j); }
    if i == j { assert s' == s; }
  }

  lemma InPart<T(!new)>(q: seq<T>, s: seq<T>, lt: (T, T) -> bool, l: nat, u: nat, i0: int, j0: int, x: int, y: int, i: nat, j: nat)
    requires Scanning(q, s, lt, l, u, i0, j0, x, y) && i <= j
    requires Upward(s, u, i0, q[u - 1], lt, Returned(i)) && Downward(s, l, j0, q[u - 1], lt, Returned(j))
    ensures l < i && j < u - 1
  {
    hide Perm, Invalid, Meets;
  }

  lemma AsidePerm<T>(t: seq<T>, l: nat, u: nat)
    requires l + 2 < u < |t|
    ensures Perm(t, Aside(t, l, u), l, u)
  {
    hide Perm;
    SwapPerm(t, (l + u) / 2, u - 1, l, u);
  }

  lemma StartScanning<T(!new)>(q: seq<T>, lt: (T, T) -> bool, l: nat, u: nat)
    requires 1 <= l && l + 2 < u && u + 1 < |q|
    ensures Scanning(q, q, lt, l, u, l, u - 1, 0, 0)
  {
    PermSelf(q, l, u);
  }

  /** With a proper comparison: a[l..i] <= P <= a[j..u]. */
  ghost predicate Divided<T(!new)>(s: seq<T>, lt: (T, T) -> bool, l: nat, u: nat, i: int, j: int, p: T) {
    Between(s, lt, l, i, p, true) && Between(s, lt, j, u, p, false)
  }

  /** The ends enclose the middle element, under a comparison without mutual pairs. */
  ghost predicate Enclosed<T(!new)>(t: seq<T>, lt: (T, T) -> bool, l: nat, u: nat)
    requires l < u < |t|
  {
    Asymmetric(lt) && Le(lt, t[l], t[(l + u) / 2]) && Le(lt, t[(l + u) / 2], t[u])
  }

  lemma StartDivided<T(!new)>(t: seq<T>, lt: (T, T) -> bool, l: nat, u: nat)
    requires l + 2 < u < |t| && Enclosed(t, lt, l, u)
    ensures Divided(Aside(t, l, u), lt, l, u, l, u - 1, t[(l + u) / 2])
  {
  }

  lemma ScannedDivided<T(!new)>(t: seq<T>, s: seq<T>, lt: (T, T) -> bool, l: nat, u: nat, i0: int, j0: int, i: nat, j: nat, p: T)
    requires l < u < |t| && Enclosed(t, lt, l, u) && Divided(s, lt, l, u, i0, j0, p) && l <= i0 && j0 <= u && u + 1 < |s|
    requires Upward(s, u, i0, p, lt, Returned(i)) && Downward(s, l, j0, p, lt, Returned(j))
    ensures Divided(s, lt, l, u, i - 1, j + 1, p) && Le(lt, p, s[i]) && Le(lt, s[j], p)
  {
    forall k | 0 <= k < |s| && l <= k <= i - 1 ensures Le(lt, s[k], p) { LtLe(lt, s[k], p); }
    forall k | 0 <= k < |s| && j + 1 <= k <= u ensures Le(lt, p, s[k]) { LtLe(lt, p, s[k]); }
  }

  lemma ExchangedDivided<T(!new)>(s: seq<T>, s': seq<T>, lt: (T, T) -> bool, l: nat, u: nat, i: nat, j: nat, p: T)
    requires Divided(s, lt, l, u, i - 1, j + 1, p) && i <= j < |s| && Le(lt, p, s[i]) && Le(lt, s[j], p)
    requires s' == s[i := s[j]][j := s[i]]
    ensures Divided(s', lt, l, u, i, j, p)
  {
  }

  /** An exchange keeps the invariant. */
  lemma Exchange<T(!new)>(t: seq<T>, q: seq<T>, s: seq<T>, s': seq<T>, lt: (T, T) -> bool, l: nat, u: nat, i0: int, j0: int,
      x: int, y: int, i: nat, j: nat) returns (x': int, y': int)
    requires Scanning(q, s, lt, l, u, i0, j0, x, y) && i <= j
    requires Upward(s, u, i0, q[u - 1], lt, Returned(i)) && Downward(s, l, j0, q[u - 1], lt, Returned(j))
    requires l <= i0 && j0 <= u < |t| && |q| == |s| && s' == s[i := s[j]][j := s[i]]
    requires l < u && (Enclosed(t, lt, l, u) ==> Divided(s, lt, l, u, i0, j0, q[u - 1]))
    ensures Scanning(q, s', lt, l, u, i, j, x', y') && (Enclosed(t, lt, l, u) ==> Divided(s', lt, l, u, i, j, q[u - 1]))
  {
    hide Perm, Guarded, Invalid, Meets, Upward, Downward, Divided, Enclosed, Le;
    x', y' := if i < j then i else x, if i < j then j else y;
    InPart(q, s, lt, l, u, i0, j0, x, y, i, j);
    ExchangeGuarded(q, s, s', lt, l, u, i0, j0, x, y, i, j);
    SwapPerm(s, i, j, l, u);
    PermTrans(q, s, s', l, u);
    if Enclosed(t, lt, l, u) {
      ScannedDivided(t, s, lt, l, u, i0, j0, i, j, q[u - 1]);
      ExchangedDivided(s, s', lt, l, u, i, j, q[u - 1]);
    }
  }

  lemma PivotDivides<T(!new)>(s: seq<T>, s': seq<T>, lt: (T, T) -> bool, l: nat, u: nat, i: nat, j: nat, p: T)
    requires Divided(s, lt, l, u, i - 1, j + 1, p) && l < i <= u - 1 < |s| - 1 && j < i && s[u - 1] == p
    requires s' == s[u - 1 := s[i]][i := p]
    ensures Between(s', lt, l, i - 1, p, true) && Between(s', lt, i + 1, u, p, false)
  {
    hide Le;
    forall k | 0 <= k < |s'| && i + 1 <= k <= u ensures Le(lt, p, s'[k]) {
      if k == u - 1 { assert Le(lt, p, s[i]); } else { assert Le(lt, p, s[k]); }
    }
  }

  /** The pivot goes to its place in the part. */
  lemma PivotPerm<T>(t: seq<T>, q: seq<T>, s: seq<T>, s': seq<T>, l: nat, u: nat, i: nat)
    requires Perm(t, q, l, u) && Perm(q, s, l, u) && l + 1 < u < |s| && l < i <= u && s' == s[u - 1 := s[i]][i := s[u - 1]]
    ensures Perm(t, s', l, u)
  {
    hide Perm, Swapped;
    PermTrans(t, q, s, l, u);
    IsSwapped(s, s', i, u - 1);
    if i <= u - 1 {
      SwapPerm(s, i, u - 1, l, u);
    } else {
      SwapPerm(s, u - 1, i, l, u);
    }
    PermTrans(t, s, s', l, u);
  }

  /** Divides `a[l..u]` around its middle element. It is said exactly when the error is raised: then
      the pivot is before itself or before the first element. */
  method Partition<T(!new)>(a: array<T>, l: nat, u: nat, lt: (T, T) -> bool) returns (r: Fallible<nat>)
    requires 1 <= l && l + 2 < u < a.Length - 1
    modifies a
    ensures r.Raised? <==> Invalid(Aside(old(a[..]), l, u), l, u, lt)
    ensures r.Raised? ==> Perm(old(a[..]), a[..], l, u)
    ensures r.Raised? ==> var p := old(a[(l + u) / 2]); a[u - 1] == p && a[l] == old(a[l]) && (lt(p, p) || lt(p, a[l]))
    ensures r.Returned? ==> l < r.value <= u + 1 && Parted(old(a[..]), a[..], lt, l, u, r.value)
  {
    hide Perm, Swapped, Asymmetric, Between, Le, Divided, Scanning, Invalid, Enclosed, Upward, Downward, Parted, Guarded, Meets;
    ghost var t := a[..];
    var p := a[(l + u) / 2];
    Set2(a, (l + u) / 2, u - 1, a[u - 1], p);
    ghost var q := a[..];
    AsidePerm(t, l, u);
    StartScanning(q, lt, l, u);
    if Enclosed(t, lt, l, u) { StartDivided(t, lt, l, u); }
    var i, j := l, u - 1;
    ghost var x, y, i0, j0 := 0, 0, i, j;
    while true
      invariant q == Aside(t, l, u) && Scanning(q, a[..], lt, l, u, i, j, x, y) && l <= i <= j <= u - 1
      invariant Enclosed(t, lt, l, u) ==> Divided(a[..], lt, l, u, i, j, p)
      decreases j - i + 1
    {
      i0, j0 := i, j;
      var up := ScanUp(a, u, i, p, lt);
      if up.Raised? {
        UpFails(q, a[..], lt, l, u, i, j, x, y, up);
        RaisedPerm(t, q, a[..], lt, l, u, i, j, x, y);
        return up;
      }
      var down := ScanDown(a, l, j, p, lt);
      if down.Raised? {
        DownFails(q, a[..], lt, l, u, i, j, x, y, down);
        RaisedPerm(t, q, a[..], lt, l, u, i, j, x, y);
        return down;
      }
      ghost var s := a[..];
      i, j := up.value, down.value;
      if j < i { break; }
      Set2(a, i, j, a[j], a[i]);
      x, y := Exchange(t, q, s, a[..], lt, l, u, i0, j0, x, y, i, j);
    }
    ghost var s := a[..];
    Set2(a, u - 1, i, a[i], a[u - 1]);
    PivotBack(t, q, s, a[..], lt, l, u, i0, j0, x, y, i, j);
    return Returned(i);
  }

  /** The part is divided around its middle element, now at `p`. Only the part is rearranged,
      unless the upward scan has passed the pivot, which is then before itself, and the end of the
      part: then the pivot has been exchanged with the element behind the part. */
  ghost predicate Parted<T(!new)>(t: seq<T>, s: seq<T>, lt: (T, T) -> bool, l: nat, u: nat, p: int) {
    && l + 2 < u && u + 1 < |t| == |s| && l < p <= u + 1
    && (p >= u ==> lt(t[(l + u) / 2], t[(l + u) / 2]))
    && (if p <= u then Perm(t, s, l, u) else Overran(t, l, u, lt) && s == Shifted(t, l, u))
    && (Enclosed(t, lt, l, u) ==> p < u && s[p] == t[(l + u) / 2] && Between(s, lt, l, p - 1, s[p], true) && Between(s, lt, p + 1, u, s[p], false))
  }

  /** After the scans have passed each other. */
  lemma PivotBack<T(!new)>(t: seq<T>, q: seq<T>, s: seq<T>, s': seq<T>, lt: (T, T) -> bool, l: nat, u: nat, i0: int, j0: int,
      x: int, y: int, i: nat, j: nat)
    requires l + 2 < u < |t| - 1 && q == Aside(t, l, u) && Scanning(q, s, lt, l, u, i0, j0, x, y) && |s| == |t| && i0 < i <= u + 1 && j < i
    requires Upward(s, u, i0, q[u - 1], lt, Returned(i)) && Downward(s, l, j0, q[u - 1], lt, Returned(j))
    requires Enclosed(t, lt, l, u) ==> Divided(s, lt, l, u, i0, j0, q[u - 1])
    requires l <= i0 && j0 <= u && s' == s[u - 1 := s[i]][i := s[u - 1]]
    ensures Parted(t, s', lt, l, u, i) && !Invalid(q, l, u, lt)
  {
    hide Perm, Swapped, Between, Divided, Guarded, Meets, Le, Upward, Downward, Invalid;
    Halted(q, s, lt, l, u, i0, j0, x, y, i, j);
    RaisedPerm(t, q, s, lt, l, u, i0, j0, x, y);
    if i <= u {
      AsidePerm(t, l, u);
      PivotPerm(t, q, s, s', l, u, i);
    }
    if Enclosed(t, lt, l, u) {
      var p := t[(l + u) / 2];
      LtLe(lt, p, p);
      ScannedDivided(t, s, lt, l, u, i0, j0, i, j, p);
      PivotDivides(s, s', lt, l, u, i, j, p);
    }
  }

  lemma RaisedPerm<T(!new)>(t: seq<T>, q: seq<T>, s: seq<T>, lt: (T, T) -> bool, l: nat, u: nat, i: int, j: int, x: int, y: int)
    requires l + 2 < u < |t| && q == Aside(t, l, u) && Scanning(q, s, lt, l, u, i, j, x, y)
    ensures Perm(t, s, l, u) && |s| == |t| && s[u - 1] == t[(l + u) / 2] && s[l] == t[l]
  {
    hide Perm, Swapped, Guarded, Meets;
    AsidePerm(t, l, u);
    PermTrans(t, q, s, l, u);
  }

  // --------------------------------------------------------------- recursion

  /** One turn of the loop of `auxsort` that leaves `l` and `u` as they were. */
  ghost predicate Stalls<T(!new)>(s: seq<T>, s': seq<T>, lt: (T, T) -> bool, l: nat, u: nat)
    requires l + 2 < u && u + 1 < |s|
  {
    Overran(Three(s, l, u, lt), l, u, lt) && s' == Shifted(Three(s, l, u, lt), l, u)
  }

  /** Whatever the comparison function, the loop does not stall three times in a row. */
  lemma NoThirdStall<T(!new)>(s: seq<T>, s1: seq<T>, s2: seq<T>, lt: (T, T) -> bool, l: nat, u: nat)
    requires l + 2 < u && u + 1 < |s| == |s1| && Stalls(s, s1, lt, l, u) && Stalls(s1, s2, lt, l, u)
    ensures |s2| == |s| && !Overran(Three(s2, l, u, lt), l, u, lt)
  {
  }

  lemma ShiftedSwapped<T>(t: seq<T>, l: nat, u: nat)
    requires l + 2 < u && u + 1 < |t|
    ensures Shifted(t, l, u) == Swapped(Aside(t, l, u), u - 1, u + 1)
  {
  }

  lemma ShiftedPerm<T>(t: seq<T>, l: nat, u: nat)
    requires l + 2 < u && u + 1 < |t|
    ensures Perm(t, Shifted(t, l, u), l, u + 1)
  {
    hide Perm, Swapped, Aside, Shifted;
    var q := Aside(t, l, u);
    ShiftedSwapped(t, l, u);
    AsidePerm(t, l, u);
    PermWiden(t, q, l, u, l, u + 1);
    SwapPerm(q, u - 1, u + 1, l, u + 1);
    PermTrans(t, q, Shifted(t, l, u), l, u + 1);
  }

  /** Nothing is rearranged but the part and the slot behind it; under a comparison for which no
      value is before itself, the part alone. */
  ghost predicate Within<T(!new)>(s: seq<T>, s': seq<T>, lt: (T, T) -> bool, l: int, u: int) {
    Perm(s, s', l, u + 1) && (Irreflexive(lt) && l <= u + 1 ==> Perm(s, s', l, u))
  }

  lemma PermWithin<T(!new)>(s: seq<T>, s': seq<T>, lt: (T, T) -> bool, l: int, u: int)
    requires Perm(s, s', l, u) && 0 <= l <= u + 1 < |s|
    ensures Within(s, s', lt, l, u)
  {
    hide Perm;
    PermWiden(s, s', l, u, l, u + 1);
  }

  lemma WithinTrans<T(!new)>(s0: seq<T>, s: seq<T>, s': seq<T>, lt: (T, T) -> bool, l0: int, u0: int, l: int, u: int)
    requires Within(s0, s, lt, l0, u0) && Within(s, s', lt, l, u) && 0 <= l0 <= l <= u + 2 && u <= u0 && u0 + 1 < |s|
    requires Irreflexive(lt) && l0 <= u0 + 1 ==> l <= u + 1
    ensures Within(s0, s', lt, l0, u0)
  {
    hide Perm, Irreflexive;
    PermWiden(s, s', l, u + 1, l0, u0 + 1);
    PermTrans(s0, s, s', l0, u0 + 1);
    if Irreflexive(lt) && l0 <= u0 + 1 {
      PermWiden(s, s', l, u, l0, u0);
      PermTrans(s0, s, s', l0, u0);
    }
  }

  /** The comparison is a strict weak order. */
  ghost predicate WeakOrder<T(!new)>(lt: (T, T) -> bool) {
    Asymmetric(lt) && Transitive(lt)
  }
  /** Two or three elements in order complete the sort. */
  lemma SmallSorted<T(!new)>(s: seq<T>, lt: (T, T) -> bool, l0: int, u0: int, l: int, u: int)
    requires Transitive(lt) && Placed(s, lt, l0, u0, l, u) && 0 <= l < u < |s| && u - l <= 2
    requires u - l == 1 ==> Le(lt, s[l], s[u])
    requires u - l >= 2 ==> Le(lt, s[l], s[(l + u) / 2]) && Le(lt, s[(l + u) / 2], s[u])
    ensures Sorted(s, lt, l0, u0)
  {
    if u - l == 2 { LeTrans(lt, s[l], s[l + 1], s[u]); }
  }

  lemma PlacedSorted<T(!new)>(s: seq<T>, lt: (T, T) -> bool, l0: int, u0: int, l: int, u: int)
    requires Placed(s, lt, l0, u0, l, u) && l >= u
    ensures Sorted(s, lt, l0, u0)
  {
  }

  /** Sorting one half around the pivot leaves the other half to do. */
  lemma HalfSorted<T(!new)>(s: seq<T>, s': seq<T>, lt: (T, T) -> bool, l0: int, u0: int, l: int, u: int, p: int, j: int, i: int)
    requires Transitive(lt) && Placed(s, lt, l0, u0, l, u)
    requires 0 <= l0 <= l < p < u <= u0 < |s|
    requires Between(s, lt, l, p - 1, s[p], true) && Between(s, lt, p + 1, u, s[p], false)
    requires (j == l && i == p - 1) || (j == p + 1 && i == u)
    requires Perm(s, s', j, i) && Sorted(s', lt, j, i)
    ensures if j == l then Placed(s', lt, l0, u0, p + 1, u) else Placed(s', lt, l0, u0, l, p - 1)
  {
    hide Perm, Placed, Transitive, Le, Between, Sorted;
    PermWiden(s, s', j, i, l, u);
    PlacedKept(s, s', lt, l0, u0, l, u);
    PermOutside(s, s', j, i, p);
    SidesKept(s, s', lt, l, u, p, j, i);
    forall x, y | l <= x < y <= u && (if j == l then x <= p else y >= p) ensures Le(lt, s'[x], s'[y]) {
      Around(s', lt, l, u, p, j, i, x, y);
    }
    HalfPlaced(s', lt, l0, u0, l, u, p, j == l);
  }

  lemma SidesKept<T(!new)>(s: seq<T>, s': seq<T>, lt: (T, T) -> bool, l: int, u: int, p: int, j: int, i: int)
    requires 0 <= l < p < u < |s| && Perm(s, s', j, i) && ((j == l && i == p - 1) || (j == p + 1 && i == u))
    requires Between(s, lt, l, p - 1, s[p], true) && Between(s, lt, p + 1, u, s[p], false)
    ensures |s'| == |s| && Between(s', lt, l, p - 1, s[p], true) && Between(s', lt, p + 1, u, s[p], false)
  {
    BetweenKept(s, s', lt, j, i, s[p], j == l);
    forall k | 0 <= k < |s| && l <= k <= u && !(j <= k <= i) ensures s'[k] == s[k] { PermOutside(s, s', j, i, k); }
  }

  /** Two elements around the pivot, or in the sorted half, are in order. */
  lemma Around<T(!new)>(s: seq<T>, lt: (T, T) -> bool, l: int, u: int, p: int, j: int, i: int, x: int, y: int)
    requires Transitive(lt) && 0 <= l < p < u < |s| && ((j == l && i == p - 1) || (j == p + 1 && i == u))
    requires Between(s, lt, l, p - 1, s[p], true) && Between(s, lt, p + 1, u, s[p], false) && Sorted(s, lt, j, i)
    requires l <= x < y <= u && (if j == l then x <= p else y >= p)
    ensures Le(lt, s[x], s[y])
  {
    hide Transitive;
    if x < p < y { LeTrans(lt, s[x], s[p], s[y]); }
  }

  lemma HalfPlaced<T(!new)>(s: seq<T>, lt: (T, T) -> bool, l0: int, u0: int, l: int, u: int, p: int, left: bool)
    requires Placed(s, lt, l0, u0, l, u) && 0 <= l0 <= l < p < u <= u0 < |s|
    requires forall x, y :: l <= x < y <= u && (if left then x <= p else y >= p) ==> Le(lt, s[x], s[y])
    ensures if left then Placed(s, lt, l0, u0, p + 1, u) else Placed(s, lt, l0, u0, l, p - 1)
  {
  }

  lemma NestSmaller(nest: nat, small: int, all: int)
    requires all >= 3 && 2 * small <= all && all + 1 <= Pow2(nest)
    ensures nest > 0 && small + 1 <= Pow2(nest - 1)
  {
  }

  /** Sorting three leaves what has been achieved outside. */
  lemma ThreeTurn<T(!new)>(s0: seq<T>, s: seq<T>, s': seq<T>, lt: (T, T) -> bool, l0: int, u0: int, l: int, u: int)
    requires Within(s0, s, lt, l0, u0) && Perm(s, s', l, u) && 0 <= l0 <= l <= u <= u0 && u0 + 1 < |s|
    requires WeakOrder(lt) ==> Placed(s, lt, l0, u0, l, u)
    ensures Within(s0, s', lt, l0, u0) && (WeakOrder(lt) ==> Placed(s', lt, l0, u0, l, u))
  {
    hide Perm, Placed, Within, WeakOrder;
    PermWithin(s, s', lt, l, u);
    WithinTrans(s0, s, s', lt, l0, u0, l, u);
    if WeakOrder(lt) { PlacedKept(s, s', lt, l0, u0, l, u); }
  }

  lemma IsMutual<T(!new)>(s: seq<T>, lt: (T, T) -> bool, l: int, u: int, i: int, j: int)
    requires 0 <= l <= i <= u < |s| && l <= j <= u && lt(s[i], s[j]) && lt(s[j], s[i])
    ensures Mutual(s, lt, l, u)
  {
  }

  lemma NoMutual<T(!new)>(s: seq<T>, lt: (T, T) -> bool, l: int, u: int)
    requires WeakOrder(lt)
    ensures !Mutual(s, lt, l, u)
  {
  }

  lemma MutualWider<T(!new)>(s: seq<T>, lt: (T, T) -> bool, l: int, u: int, l0: int, u0: int)
    requires Mutual(s, lt, l, u) && l0 <= l && u <= u0
    ensures Mutual(s, lt, l0, u0) && !WeakOrder(lt)
  {
    hide WeakOrder;
    if WeakOrder(lt) { NoMutual(s, lt, l, u); }
  }

  lemma StartTurns<T(!new)>(s: seq<T>, lt: (T, T) -> bool, l: int, u: int)
    requires 0 <= l <= u + 2 && 0 <= u < |s| - 1
    ensures Within(s, s, lt, l, u) && Placed(s, lt, l, u, l, u)
  {
  }

  lemma SmallTurn<T(!new)>(s: seq<T>, lt: (T, T) -> bool, l0: int, u0: int, l: int, u: int)
    requires 0 <= l < u < |s| && u - l <= 2 && (WeakOrder(lt) ==> Placed(s, lt, l0, u0, l, u))
    requires Asymmetric(lt) && u - l == 1 ==> Le(lt, s[l], s[u])
    requires Asymmetric(lt) && u - l >= 2 ==> Le(lt, s[l], s[(l + u) / 2]) && Le(lt, s[(l + u) / 2], s[u])
    ensures WeakOrder(lt) ==> Sorted(s, lt, l0, u0)
  {
    hide Placed, Sorted, Asymmetric, Transitive, Le;
    if WeakOrder(lt) { SmallSorted(s, lt, l0, u0, l, u); }
  }

  /** The error comes with a pivot that is before itself, or before the first element and behind it. */
  lemma RaisedMutual<T(!new)>(t: seq<T>, s: seq<T>, lt: (T, T) -> bool, l: nat, u: nat, l0: int, u0: int)
    requires l + 2 < u < |t| == |s| && 0 <= l0 <= l && u <= u0 < |s|
    requires lt(t[(l + u) / 2], t[l]) ==> lt(t[l], t[(l + u) / 2])
    requires var p := t[(l + u) / 2]; s[u - 1] == p && s[l] == t[l] && (lt(p, p) || lt(p, s[l]))
    ensures Mutual(s, lt, l0, u0) && !WeakOrder(lt)
  {
    hide Mutual, WeakOrder;
    var p := t[(l + u) / 2];
    IsMutual(s, lt, l0, u0, u - 1, if lt(p, p) then u - 1 else l);
    if WeakOrder(lt) { NoMutual(s, lt, l0, u0); }
  }

  lemma AllInvalid<T(!new)>(s: seq<T>, lt: (T, T) -> bool, l: nat, u: nat)
    requires 1 <= l && l + 2 < u && u + 1 < |s| && AllBefore(s, lt, l, u + 1)
    ensures Invalid(Aside(Three(s, l, u, lt), l, u), l, u, lt)
  {
  }

  lemma PartedWithin<T(!new)>(t: seq<T>, s: seq<T>, lt: (T, T) -> bool, l: nat, u: nat, p: int)
    requires Parted(t, s, lt, l, u, p)
    ensures Within(t, s, lt, l, u) && (Irreflexive(lt) ==> p < u)
  {
    hide Perm, Enclosed, Between, Shifted;
    if p <= u { PermWithin(t, s, lt, l, u); } else { ShiftedPerm(t, l, u); }
  }

  /** `j` and `i` bound the smaller half, and `l'` and `u'` the other one. */
  ghost predicate Halves(l: int, u: int, p: int, j: int, i: int, l': int, u': int) {
    if p - l < u - p then j == l && i == p - 1 && l' == p + 1 && u' == u else j == p + 1 && i == u && l' == l && u' == p - 1
  }

  lemma TurnWithin<T(!new)>(s0: seq<T>, t: seq<T>, s: seq<T>, s': seq<T>, lt: (T, T) -> bool, l0: int, u0: int, l: nat, u: nat, p: int,
      j: int, i: int, l': int, u': int)
    requires Within(s0, t, lt, l0, u0) && Parted(t, s, lt, l, u, p) && Halves(l, u, p, j, i, l', u') && Within(s, s', lt, j, i)
    requires 0 <= l0 <= l && u <= u0 && u0 + 1 < |t|
    ensures Within(s0, s', lt, l0, u0)
  {
    hide Within, Parted, Irreflexive;
    PartedWithin(t, s, lt, l, u, p);
    PartedBounds(t, s, lt, l, u, p);
    WithinTrans(s0, t, s, lt, l0, u0, l, u);
    WithinTrans(s0, s, s', lt, l0, u0, j, i);
  }

  lemma PartedBounds<T(!new)>(t: seq<T>, s: seq<T>, lt: (T, T) -> bool, l: nat, u: nat, p: int)
    requires Parted(t, s, lt, l, u, p)
    ensures l + 2 < u && u + 1 < |t| == |s| && l < p <= u + 1
  {
  }

  lemma TurnPlaced<T(!new)>(t: seq<T>, s: seq<T>, s': seq<T>, lt: (T, T) -> bool, l0: int, u0: int, l: nat, u: nat, p: int,
      j: int, i: int, l': int, u': int)
    requires Parted(t, s, lt, l, u, p) && Halves(l, u, p, j, i, l', u') && Within(s, s', lt, j, i) && Sorted(s', lt, j, i)
    requires 0 <= l0 <= l && u <= u0 < |t| && WeakOrder(lt) && Placed(t, lt, l0, u0, l, u) && Enclosed(t, lt, l, u)
    ensures Placed(s', lt, l0, u0, l', u')
  {
    hide Perm, Sorted, Placed, Between, Enclosed, Transitive;
    assert Irreflexive(lt) by { hide Within, Parted; }
    PlacedKept(t, s, lt, l0, u0, l, u);
    HalfSorted(s, s', lt, l0, u0, l, u, p, j, i);
  }

  lemma IsEnclosed<T(!new)>(t: seq<T>, lt: (T, T) -> bool, l: nat, u: nat)
    requires WeakOrder(lt) && l + 2 <= u < |t|
    requires Asymmetric(lt) ==> Le(lt, t[l], t[(l + u) / 2]) && Le(lt, t[(l + u) / 2], t[u])
    ensures Enclosed(t, lt, l, u)
  {
  }

  /** How often in a row the loop has stalled, and the states before. */
  ghost predicate Stalled<T(!new)>(stalls: nat, before': seq<T>, before: seq<T>, s: seq<T>, lt: (T, T) -> bool, l: int, u: int) {
    && stalls <= 2
    && (stalls > 0 ==> 0 <= l && l + 2 < u && u + 1 < |before| == |s| && Stalls(before, s, lt, l, u))
    && (stalls > 1 ==> |before'| == |s| && Stalls(before', before, lt, l, u))
  }

  lemma NextStall<T(!new)>(stalls: nat, before': seq<T>, before: seq<T>, s: seq<T>, s': seq<T>, lt: (T, T) -> bool, l: nat, u: nat)
    requires l < u < |s| && Stalled(stalls, before', before, s, lt, l, u) && Parted(Three(s, l, u, lt), s', lt, l, u, u + 1)
    ensures stalls < 2 && Stalled(stalls + 1, before, s, s', lt, l, u)
  {
    hide Overran, Shifted, Three;
    if stalls == 2 { NoThirdStall(before', before, s, lt, l, u); }
  }

  lemma NotStalled<T(!new)>(before': seq<T>, before: seq<T>, s: seq<T>, lt: (T, T) -> bool, l: int, u: int)
    ensures Stalled(0, before', before, s, lt, l, u)
  {
  }

  /** One turn, with its recursive call. */
  lemma TurnKeeps<T(!new)>(s0: seq<T>, t: seq<T>, s: seq<T>, s': seq<T>, lt: (T, T) -> bool, l0: int, u0: int, l: nat, u: nat, p: int,
      j: int, i: int, l': int, u': int)
    requires Within(s0, t, lt, l0, u0) && Parted(t, s, lt, l, u, p) && Within(s, s', lt, j, i) && 0 <= l0 <= l && u <= u0 && u0 + 1 < |t|
    requires if p - l < u - p then j == l && i == p - 1 && l' == p + 1 && u' == u else j == p + 1 && i == u && l' == l && u' == p - 1
    requires WeakOrder(lt) ==> Placed(t, lt, l0, u0, l, u) && Sorted(s', lt, j, i)
    requires l + 2 <= u && (Asymmetric(lt) ==> Le(lt, t[l], t[(l + u) / 2]) && Le(lt, t[(l + u) / 2], t[u]))
    ensures Within(s0, s', lt, l0, u0) && (WeakOrder(lt) ==> Placed(s', lt, l0, u0, l', u'))
  {
    hide Within, Parted, WeakOrder, Asymmetric, Placed, Sorted, Le, Enclosed;
    TurnWithin(s0, t, s, s', lt, l0, u0, l, u, p, j, i, l', u');
    if WeakOrder(lt) {
      IsEnclosed(t, lt, l, u);
      TurnPlaced(t, s, s', lt, l0, u0, l, u, p, j, i, l', u');
    }
  }

  /** `auxsort`. It ends for every comparison function. The error is raised only if two elements of
      the part are each before the other; with fewer than four elements it is not raised. A strict
      weak order sorts the part. Because only the smaller half is sorted by a recursive call, fewer than
      2^`nest` elements take at most `nest` nested calls, whatever the comparison. */
  method AuxSort<T(!new)>(a: array<T>, l0: int, u0: int, lt: (T, T) -> bool, ghost nest: nat) returns (r: Fallible<()>)
    requires u0 - l0 + 2 <= Pow2(nest)
    requires 1 <= l0 <= u0 + 2 && 0 <= u0 < a.Length - 1
    modifies a
    ensures Within(old(a[..]), a[..], lt, l0, u0) && (l0 >= u0 ==> a[..] == old(a[..]))
    ensures r.Raised? ==> Mutual(a[..], lt, l0, u0)
    ensures u0 - l0 <= 2 ==> r.Returned?
    ensures u0 - l0 >= 3 && AllBefore(old(a[..]), lt, l0, u0 + 1) ==> r.Raised?
    ensures WeakOrder(lt) ==> Sorted(a[..], lt, l0, u0)
    decreases nest
  {
    hide *;
    ghost var s0 := a[..];
    var l, u := l0, u0;
    r := Returned(());
    ghost var stalls, before, before' := 0, s0, s0;
    StartTurns(s0, lt, l0, u0);
    NotStalled(before', before, s0, lt, l, u);
    while l < u
      invariant l0 <= l <= u + 2 && u <= u0 && r.Returned?
      invariant |s0| == a.Length
      invariant Within(s0, a[..], lt, l0, u0) && (l0 >= u0 ==> a[..] == s0)
      invariant WeakOrder(lt) ==> Placed(a[..], lt, l0, u0, l, u)
      invariant u0 - l0 >= 3 && AllBefore(s0, lt, l0, u0 + 1) ==> a[..] == s0 && l == l0 && u == u0
      invariant stalls <= 2 && Stalled(stalls, before', before, a[..], lt, l, u)
      decreases u - l + 1, 2 - stalls
    {
      ghost var s1 := a[..];
      SortThree(a, l, u, lt);
      ghost var s2 := a[..];
      ThreeTurn(s0, s1, s2, lt, l0, u0, l, u);
      if u - l <= 2 {
        SmallTurn(s2, lt, l0, u0, l, u);
        return;
      }
      if AllBefore(s1, lt, l, u + 1) { AllInvalid(s1, lt, l, u); }
      var part := Partition(a, l, u, lt);
      if part.Raised? {
        ThreeTurn(s0, s2, a[..], lt, l0, u0, l, u);
        RaisedMutual(s2, a[..], lt, l, u, l0, u0);
        return Raised(part.why);
      }
      var i, j := part.value as int, 0;
      ghost var pivot, lo, up := i, l, u;
      if i - l < u - i {
        j := l;
        i := i - 1;
        l := i + 2;
      } else {
        j := i + 1;
        i := u;
        u := j - 2;
      }
      ghost var s3 := a[..];
      NestSmaller(nest, i - j + 1, up - lo + 1);
      r := AuxSort(a, j, i, lt, nest - 1);
      ghost var s4 := a[..];
      TurnKeeps(s0, s2, s3, s4, lt, l0, u0, lo, up, pivot, j, i, l, u);
      if r.Raised? {
        MutualWider(s4, lt, j, i, l0, u0);
        return;
      }
      if pivot == up + 1 {
        NextStall(stalls, before', before, s1, s4, lt, lo, up);
        stalls, before, before' := stalls + 1, s1, before;
      } else {
        stalls := 0;
        NotStalled(before', before, s4, lt, l, u);
      }
    }
    if WeakOrder(lt) { PlacedSorted(a[..], lt, l0, u0, l, u); }
  }

  lemma BagOf<T>(s: seq<T>, s': seq<T>, u: int)
    requires Perm(s, s', 1, u) && u <= |s| - 1
    ensures |s'| == |s| && s'[0] == s[0] && multiset(s'[1..u + 1]) == multiset(s[1..u + 1]) && s'[u + 1..] == s[u + 1..]
  {
    assert s[0] == s[..1][0] && s'[0] == s'[..1][0];
  }

  /** `table.sort` of n elements, `a[1..n]`. Whatever the comparison function, it ends, writes no
      other slots than these and `a[n + 1]`, and loses and doubles nothing among them; if no value is
      before itself, the table holds the same elements. The error is raised only if two elements are
      each before the other, and is raised if there are four or more and all are so, the slot behind
      them included. A strict weak order sorts the table. With fewer than 2^`nest` elements the calls of
      `auxsort` are nested at most `nest` deep below the first one; the code reserves stack for 40. */
  method TableSort<T(!new)>(a: array<T>, n: nat, lt: (T, T) -> bool, ghost nest: nat) returns (r: Fallible<()>)
    requires a.Length == n + 2 && n < Pow2(nest)
    modifies a
    ensures a[0] == old(a[0]) && multiset(a[1..]) == multiset(old(a[1..]))
    ensures Irreflexive(lt) ==> a[n + 1] == old(a[n + 1]) && multiset(a[1..n + 1]) == multiset(old(a[1..n + 1]))
    ensures r.Raised? ==> n >= 4 && Mutual(a[..], lt, 1, n)
    ensures n >= 4 && AllBefore(old(a[..]), lt, 1, n + 1) ==> r.Raised?
    ensures WeakOrder(lt) ==> r.Returned? && forall i, j :: 1 <= i < j <= n ==> !lt(a[j], a[i])
  {
    hide Irreflexive, Perm, AllBefore, Mutual, WeakOrder, Pow2;
    ghost var s := a[..];
    r := AuxSort(a, 1, n, lt, nest);
    BagOf(s, a[..], n + 1);
    assert s[1..n + 2] == s[1..] && a[..][1..n + 2] == a[1..] && old(a[1..]) == s[1..];
    if Irreflexive(lt) { BagOf(s, a[..], n); }
    if WeakOrder(lt) { NoMutual(a[..], lt, 1, n); }
  }

  // ---------------------------------------------------------------- an element gone

  /** Numbers or nil, compared as `a <= b` where both are numbers. */
  predicate AtMost(x: Option<int>, y: Option<int>) {
    x.Some? && y.Some? && x.value <= y.value
  }

  /** A comparison under which equals are before each other can lose elements: of the numbers
      v, w, v, w one has left for the slot behind the table after the first turn of the loop, nil has
      come in between the others, and no error has been raised. */
  lemma ElementLeaves(v: int, w: int)
    requires v <= w
    ensures var s := [None, Some(v), Some(w), Some(v), Some(w), None];
      && !Invalid(Aside(Three(s, 1, 4, AtMost), 1, 4), 1, 4, AtMost)
      && Stalls(s, [None, Some(v), Some(v), None, Some(w), Some(w)], AtMost, 1, 4)
  {
    var s := [None, Some(v), Some(w), Some(v), Some(w), None];
    var q := [None, Some(v), Some(v), Some(w), Some(w), None];
    assert Three(s, 1, 4, AtMost) == s && Aside(s, 1, 4) == q;
    assert q[5] == q[0] == None;
  }
}
