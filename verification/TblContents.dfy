/** Both parts of a table together, the finite map they stand for, and the keys in use. */
module TblContents {
  import opened Common
  import opened TblModel
  import opened TblChain
  import opened TblSizes

  /** An integer between 1 and `n`. */
  predicate Within(k: Key, n: nat) {
    k.KInt? && 1 <= k.i <= n
  }

  /** The map: keys of the array part are found there, all others in the hash part. */
  ghost function Lookup(a: seq<Value>, ns: seq<Node>, k: Key): Value {
    if Within(k, |a|) then a[k.i - 1] else ValOf(ns, k)
  }

  /** Free nodes lie below `lastfree`; the shared dummy node stands for an empty hash part. */
  ghost predicate FreeBelow(ns: seq<Node>, lastfree: int, dummy: bool) {
    if dummy then ns == [FREE] && lastfree <= 0
    else lastfree <= |ns| && forall i {:trigger ns[i]} :: 0 <= i < |ns| && ns[i].key.None? ==> i < lastfree
  }

  ghost predicate Separate(n: nat, ns: seq<Node>) {
    forall i {:trigger ns[i]} :: 0 <= i < |ns| && ns[i].key.Some? ==> !Within(ns[i].key.value, n)
  }

  ghost predicate Hashes(h: Hash, n: nat) {
    forall k :: h(k) < n
  }

  /** The invariant of a table. */
  ghost predicate Sane(a: seq<Value>, ns: seq<Node>, rank: seq<nat>, h: Hash, lastfree: int, dummy: bool) {
    && |a| <= MAXASIZE && Hashes(h, |ns|) && Chained(ns, rank, h)
    && FreeBelow(ns, lastfree, dummy) && Separate(|a|, ns)
  }

  // ------------------------------------------------------------ writing values

  lemma WriteNode(ns: seq<Node>, rank: seq<nat>, h: Hash, i: nat, v: Value)
    requires Chained(ns, rank, h) && i < |ns| && ns[i].key.Some?
    ensures var ns' := ns[i := ns[i].(val := v)];
      && Chained(ns', rank, h) && Used(ns') == Used(ns)
      && forall k :: Has(ns', k) == Has(ns, k) && ValOf(ns', k) == if Some(k) == ns[i].key then v else ValOf(ns, k)
  {
    var ns' := ns[i := ns[i].(val := v)];
    WriteShape(ns, rank, h, i, v);
    hide Linked, FreeApart, Injective, Reachable, Brent;
    forall k ensures Has(ns', k) == Has(ns, k) && ValOf(ns', k) == if Some(k) == ns[i].key then v else ValOf(ns, k) {
      if Has(ns, k) { assert ns'[Find(ns, k)].key == Some(k); ValAt(ns', Find(ns, k)); }
      if Has(ns', k) { assert ns[Find(ns', k)].key == Some(k); }
    }
  }

  /** Keys and links are the same. */
  ghost predicate SameKeys(ns: seq<Node>, ns': seq<Node>) {
    |ns'| == |ns| && forall j {:trigger ns'[j]} {:trigger ns[j]} :: 0 <= j < |ns| ==>
      ns'[j].key == ns[j].key && ns'[j].next == ns[j].next && (ns[j].key.None? ==> ns'[j] == ns[j])
  }

  lemma SameReachable(ns: seq<Node>, ns': seq<Node>, rank: seq<nat>, h: Hash)
    requires Linked(ns, rank) && Reachable(ns, rank, h) && SameKeys(ns, ns')
    ensures Linked(ns', rank) && Reachable(ns', rank, h)
  {
    forall j | 0 <= j < |ns| && ns'[j].key.Some? ensures h(ns'[j].key.value) < |ns| && InChain(ns', rank, h(ns'[j].key.value), j) {
      ChainSame(ns, rank, ns', rank, h(ns[j].key.value), j);
    }
  }

  lemma SameRest(ns: seq<Node>, ns': seq<Node>, h: Hash)
    requires FreeApart(ns) && Injective(ns) && UniqueKeys(ns) && Brent(ns, h) && SameKeys(ns, ns')
    ensures FreeApart(ns') && Injective(ns') && UniqueKeys(ns') && Brent(ns', h)
  {
  }

  lemma WriteShape(ns: seq<Node>, rank: seq<nat>, h: Hash, i: nat, v: Value)
    requires Chained(ns, rank, h) && i < |ns| && ns[i].key.Some?
    ensures Chained(ns[i := ns[i].(val := v)], rank, h)
  {
    hide Linked, FreeApart, Injective, UniqueKeys, Reachable, Brent;
    var ns' := ns[i := ns[i].(val := v)];
    assert SameKeys(ns, ns');
    SameReachable(ns, ns', rank, h);
    SameRest(ns, ns', h);
  }

  /** A fresh hash part. */
  lemma FreshNodes(ns: seq<Node>, h: Hash)
    requires forall i :: 0 <= i < |ns| ==> ns[i] == FREE
    ensures Chained(ns, seq(|ns|, _ => 0), h) && Used(ns) == {} && forall k :: !Has(ns, k)
  {
  }

  // ------------------------------------------------------------- keys in use

  ghost function ArrayKeys(a: seq<Value>, n: nat): set<nat>
    requires n <= |a|
  {
    set i: nat | 1 <= i <= n && Filled(a, i)
  }

  predicate Filled(a: seq<Value>, i: nat) {
    1 <= i <= |a| && a[i - 1] != Nil
  }

  /** The live keys of the nodes from position `i` on. */
  ghost function NodeKeys(ns: seq<Node>, i: nat): set<Key> {
    set j | i <= j < |ns| && ns[j].key.Some? && ns[j].val != Nil :: ns[j].key.value
  }

  ghost function IntKeys(s: set<nat>): set<Key> {
    set i | i in s :: KInt(i)
  }

  ghost function LiveKeys(a: seq<Value>, ns: seq<Node>): set<Key> {
    IntKeys(ArrayKeys(a, |a|)) + NodeKeys(ns, 0)
  }

  /** The integer keys that are candidates for the array part. */
  ghost function Candidates(keys: set<Key>): set<nat> {
    set i: nat | 1 <= i <= MAXASIZE && KInt(i) in keys
  }

  /** The keys that have to go to the hash part when the array part has size `n`. */
  ghost function Hashed(keys: set<Key>, n: nat): set<Key> {
    set k | k in keys && !Within(k, n)
  }

  lemma {:induction false} IntKeysCount(s: set<nat>)
    ensures |IntKeys(s)| == |s|
    decreases |s|
  {
    if s == {} {
      assert IntKeys(s) == {};
    } else {
      var i :| i in s;
      IntKeysCount(s - {i});
      assert IntKeys(s) == IntKeys(s - {i}) + {KInt(i)};
    }
  }

  lemma NodeKeysStep(ns: seq<Node>, i: nat)
    requires UniqueKeys(ns) && i < |ns|
    ensures var live := ns[i].key.Some? && ns[i].val != Nil;
      && (live ==> ns[i].key.value !in NodeKeys(ns, i + 1))
      && NodeKeys(ns, i) == if live then NodeKeys(ns, i + 1) + {ns[i].key.value} else NodeKeys(ns, i + 1)
  {
  }

  /** A key has a value exactly when it is live. */
  lemma LiveIff(a: seq<Value>, ns: seq<Node>, k: Key)
    requires UniqueKeys(ns) && Separate(|a|, ns)
    ensures k in LiveKeys(a, ns) <==> Lookup(a, ns, k) != Nil
  {
    if Within(k, |a|) {
      assert k.i in ArrayKeys(a, |a|) <==> Filled(a, k.i);
      assert k !in NodeKeys(ns, 0);
    } else {
      assert k !in IntKeys(ArrayKeys(a, |a|));
      if Has(ns, k) {
        var i := Find(ns, k);
        assert ns[i].val != Nil <==> k in NodeKeys(ns, 0);
      }
    }
  }

  /** What the two counts of `rehash` leave for the hash part. */
  lemma HashedCount(keys: set<Key>, n: nat)
    requires n <= MAXASIZE
    ensures |Hashed(keys, n)| == |keys| - |Upto(Candidates(keys), n)|
  {
    var u := Upto(Candidates(keys), n);
    IntKeysCount(u);
    assert keys == Hashed(keys, n) + IntKeys(u) by {
      forall k | k in keys ensures k in Hashed(keys, n) || k in IntKeys(u) {
        if Within(k, n) { assert k.i in u; }
      }
    }
    assert Hashed(keys, n) !! IntKeys(u);
  }
}
