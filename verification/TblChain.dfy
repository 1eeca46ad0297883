/** The three ways in which a new key gets into the hash part. */
module TblChain {
  import opened Common
  import opened TblModel

  /** The main position is free, or holds a deleted entry: the key goes there. */
  function Reuse(ns: seq<Node>, mp: nat, key: Key): seq<Node>
    requires mp < |ns|
  {
    ns[mp := ns[mp].(key := Some(key))]
  }

  /** The main position is held by right: the key goes to the free node, next on the chain. */
  function Push(ns: seq<Node>, mp: nat, n: nat, key: Key): seq<Node>
    requires mp < |ns| && n < |ns|
  {
    ns[mp := ns[mp].(next := n)][n := Node(Some(key), ns[n].val, ns[mp].next)]
  }

  /** The main position is held by a key of another chain, whose node before it is `prev`:
      that key moves to the free node. */
  function Evict(ns: seq<Node>, mp: nat, n: nat, prev: nat, key: Key): seq<Node>
    requires mp < |ns| && n < |ns| && prev < |ns|
  {
    ns[prev := ns[prev].(next := n)][n := ns[mp]][mp := Node(Some(key), Nil, -1)]
  }

  /** What each way achieves: the key is in the table, with no value yet, all values are as
      before, and one more node is in use at most. */
  ghost predicate Added(ns: seq<Node>, rank': seq<nat>, ns': seq<Node>, h: Hash, key: Key, at: nat) {
    && |ns'| == |ns| && Chained(ns', rank', h) && at < |ns| && ns'[at].key == Some(key) && ns'[at].val == Nil
    && (forall k :: ValOf(ns', k) == ValOf(ns, k))
    && (forall k :: Has(ns', k) ==> Has(ns, k) || k == key)
    && |Used(ns')| <= |Used(ns)| + 1
    && (forall i :: 0 <= i < |ns| && i != at && ns'[i].key.None? ==> ns[i].key.None?)
  }

  lemma {:induction false} ChainSame(ns: seq<Node>, rank: seq<nat>, ns': seq<Node>, rank': seq<nat>, i: nat, j: nat)
    requires Linked(ns, rank) && Linked(ns', rank') && |ns| == |ns'| && i < |ns|
    requires forall k :: 0 <= k < |ns| ==> ns'[k].next == ns[k].next
    ensures InChain(ns', rank', i, j) == InChain(ns, rank, i, j)
    decreases rank[i]
  {
    if ns[i].next >= 0 { ChainSame(ns, rank, ns', rank', ns[i].next, j); }
  }

  /** Contents after key `gone`, if any, has given way to `key`. */
  lemma ValuesSame(ns: seq<Node>, ns': seq<Node>, key: Key, at: nat, move: nat -> nat)
    requires UniqueKeys(ns) && UniqueKeys(ns') && |ns| == |ns'| && at < |ns| && !Has(ns, key)
    requires ns'[at].key == Some(key) && ns'[at].val == Nil
    requires forall i {:trigger move(i)} :: 0 <= i < |ns| && ns[i].val != Nil && ns[i].key.Some? ==>
      move(i) < |ns| && ns'[move(i)].key == ns[i].key && ns'[move(i)].val == ns[i].val
    requires forall i {:trigger ns'[i]} :: 0 <= i < |ns| && i != at && ns'[i].key.Some? ==>
      exists k {:trigger ns[k]} :: 0 <= k < |ns| && ns[k].key == ns'[i].key && ns[k].val == ns'[i].val
    ensures forall k :: ValOf(ns', k) == ValOf(ns, k)
    ensures forall k :: Has(ns', k) ==> Has(ns, k) || k == key
  {
    forall k ensures ValOf(ns', k) == ValOf(ns, k) && (Has(ns', k) ==> Has(ns, k) || k == key) {
      if Has(ns', k) {
        var i := Find(ns', k);
        if i != at {
          var m :| 0 <= m < |ns| && ns[m].key == ns'[i].key && ns[m].val == ns'[i].val;
          ValAt(ns, m);
        }
      } else if Has(ns, k) {
        var i := Find(ns, k);
        assert ns[i].val != Nil ==> move(i) < |ns|;
      }
    }
  }

  lemma UsedMore(ns: seq<Node>, ns': seq<Node>, i: nat)
    requires |ns| == |ns'| && Used(ns') <= Used(ns) + {i}
    ensures |Used(ns')| <= |Used(ns)| + 1
  {
    SubsetSize(Used(ns'), Used(ns) + {i});
  }

  // -------------------------------------------------------------- reuse

  lemma ReuseAdds(ns: seq<Node>, rank: seq<nat>, h: Hash, mp: nat, key: Key)
    requires Chained(ns, rank, h) && h(key) == mp < |ns| && ns[mp].val == Nil && !Has(ns, key)
    ensures Added(ns, rank, Reuse(ns, mp, key), h, key, mp)
  {
    hide Linked, FreeApart, Injective, Reachable, Brent, UniqueKeys, ValOf, Has, Used;
    ReuseShape(ns, rank, mp, key);
    ReuseKeys(ns, rank, h, mp, key);
    ReuseReachable(ns, rank, h, mp, key);
    ValuesSame(ns, Reuse(ns, mp, key), key, mp, i => i);
    ReuseUse(ns, mp, key);
  }

  lemma ReuseUse(ns: seq<Node>, mp: nat, key: Key)
    requires mp < |ns|
    ensures |Used(Reuse(ns, mp, key))| <= |Used(ns)| + 1
  {
    UsedMore(ns, Reuse(ns, mp, key), mp);
  }

  lemma ReuseShape(ns: seq<Node>, rank: seq<nat>, mp: nat, key: Key)
    requires Linked(ns, rank) && FreeApart(ns) && Injective(ns) && mp < |ns|
    ensures var ns' := Reuse(ns, mp, key); Linked(ns', rank) && FreeApart(ns') && Injective(ns')
  {
    var ns' := Reuse(ns, mp, key);
    forall i, j | 0 <= i < |ns| && 0 <= j < |ns| && ns'[i].next == ns'[j].next >= 0 ensures i == j {
      assert ns[i].next == ns[j].next;
    }
  }

  lemma ReuseKeys(ns: seq<Node>, rank: seq<nat>, h: Hash, mp: nat, key: Key)
    requires UniqueKeys(ns) && Brent(ns, h) && h(key) == mp < |ns| && !Has(ns, key)
    ensures var ns' := Reuse(ns, mp, key); UniqueKeys(ns') && Brent(ns', h)
  {
    var ns' := Reuse(ns, mp, key);
    forall i, j | 0 <= i < |ns| && 0 <= j < |ns| && ns'[i].key == ns'[j].key && ns'[i].key.Some? ensures i == j {
      assert ns[i].key != Some(key) && ns[j].key != Some(key);
    }
  }

  lemma ReuseReachable(ns: seq<Node>, rank: seq<nat>, h: Hash, mp: nat, key: Key)
    requires Linked(ns, rank) && Reachable(ns, rank, h) && h(key) == mp < |ns|
    requires Linked(Reuse(ns, mp, key), rank)
    ensures Reachable(Reuse(ns, mp, key), rank, h)
  {
    var ns' := Reuse(ns, mp, key);
    forall i | 0 <= i < |ns| && ns'[i].key.Some? ensures h(ns'[i].key.value) < |ns| && InChain(ns', rank, h(ns'[i].key.value), i) {
      if i != mp {
        assert ns'[i] == ns[i];
        ChainSame(ns, rank, ns', rank, h(ns'[i].key.value), i);
      }
    }
  }

  // --------------------------------------------------------------- push

  /** Room for one more rank below each. */
  function PushRank(rank: seq<nat>, mp: nat, n: nat): seq<nat>
    requires mp < |rank|
  {
    seq(|rank|, i requires 0 <= i < |rank| => if i == n then 2 * rank[mp] else 2 * rank[i] + 1)
  }

  lemma PushAdds(ns: seq<Node>, rank: seq<nat>, h: Hash, mp: nat, n: nat, key: Key)
    requires Chained(ns, rank, h) && h(key) == mp < |ns| && !Has(ns, key)
    requires n < |ns| && ns[n] == FREE && ns[mp].key.Some? && h(ns[mp].key.value) == mp
    ensures Added(ns, PushRank(rank, mp, n), Push(ns, mp, n, key), h, key, n)
  {
    hide Linked, FreeApart, Injective, Reachable, Brent, UniqueKeys, ValOf, Has, Used, PushRank;
    PushShape(ns, rank, mp, n, key);
    PushKeys(ns, h, mp, n, key);
    PushReachable(ns, rank, h, mp, n, key);
    ValuesSame(ns, Push(ns, mp, n, key), key, n, i => i);
    PushUse(ns, mp, n, key);
  }

  lemma PushUse(ns: seq<Node>, mp: nat, n: nat, key: Key)
    requires mp < |ns| && n < |ns|
    ensures |Used(Push(ns, mp, n, key))| <= |Used(ns)| + 1
  {
    UsedMore(ns, Push(ns, mp, n, key), n);
  }

  lemma PushShape(ns: seq<Node>, rank: seq<nat>, mp: nat, n: nat, key: Key)
    requires Linked(ns, rank) && FreeApart(ns) && Injective(ns)
    requires mp < |ns| && n < |ns| && ns[n] == FREE && ns[mp].key.Some?
    ensures var ns' := Push(ns, mp, n, key); Linked(ns', PushRank(rank, mp, n)) && FreeApart(ns') && Injective(ns')
  {
    var ns' := Push(ns, mp, n, key);
    forall i | 0 <= i < |ns| ensures ns[i].next != n {
      assert ns[i] == ns[i];
    }
    forall i, j | 0 <= i < |ns| && 0 <= j < |ns| && ns'[i].next == ns'[j].next >= 0 ensures i == j {
      assert ns[i].next == ns[i].next && ns[j] == ns[j] && ns[mp] == ns[mp];
    }
  }

  lemma PushKeys(ns: seq<Node>, h: Hash, mp: nat, n: nat, key: Key)
    requires UniqueKeys(ns) && Brent(ns, h) && h(key) == mp < |ns| && !Has(ns, key)
    requires n < |ns| && ns[n] == FREE && ns[mp].key.Some? && h(ns[mp].key.value) == mp
    ensures var ns' := Push(ns, mp, n, key); UniqueKeys(ns') && Brent(ns', h)
  {
    var ns' := Push(ns, mp, n, key);
    forall i, j | 0 <= i < |ns| && 0 <= j < |ns| && ns'[i].key == ns'[j].key && ns'[i].key.Some? ensures i == j {
      assert ns[i].key != Some(key) && ns[j].key != Some(key);
    }
  }

  lemma PushReachable(ns: seq<Node>, rank: seq<nat>, h: Hash, mp: nat, n: nat, key: Key)
    requires Linked(ns, rank) && FreeApart(ns) && Reachable(ns, rank, h) && h(key) == mp < |ns|
    requires n < |ns| && ns[n] == FREE && ns[mp].key.Some?
    requires Linked(Push(ns, mp, n, key), PushRank(rank, mp, n))
    ensures Reachable(Push(ns, mp, n, key), PushRank(rank, mp, n), h)
  {
    var ns', rank' := Push(ns, mp, n, key), PushRank(rank, mp, n);
    assert ns[n].next == -1;
    forall i | 0 <= i < |ns| && ns'[i].key.Some? ensures h(ns'[i].key.value) < |ns| && InChain(ns', rank', h(ns'[i].key.value), i) {
      if i == n {
        assert InChain(ns', rank', n, n) && ns'[mp].next == n;
      } else {
        assert ns'[i].key == ns[i].key && ns[i] == ns[i];
        PushChain(ns, rank, mp, n, key, h(ns[i].key.value), i);
      }
    }
  }

  lemma {:induction false} PushChain(ns: seq<Node>, rank: seq<nat>, mp: nat, n: nat, key: Key, i: nat, j: nat)
    requires Linked(ns, rank) && FreeApart(ns) && mp < |ns| && n < |ns| && ns[n] == FREE && n != mp
    requires Linked(Push(ns, mp, n, key), PushRank(rank, mp, n))
    requires i < |ns| && i != n && InChain(ns, rank, i, j)
    ensures InChain(Push(ns, mp, n, key), PushRank(rank, mp, n), i, j)
    decreases rank[i]
  {
    var ns', rank' := Push(ns, mp, n, key), PushRank(rank, mp, n);
    if i != j {
      var k := ns[i].next;
      assert k != n by { assert ns[i] == ns[i]; }
      PushChain(ns, rank, mp, n, key, k, j);
      if i == mp { assert InChain(ns', rank', n, j); }
    }
  }

  // --------------------------------------------------------------- evict

  function EvictRank(rank: seq<nat>, mp: nat, n: nat): seq<nat>
    requires mp < |rank| && n < |rank|
  {
    rank[n := rank[mp]]
  }

  lemma EvictAdds(ns: seq<Node>, rank: seq<nat>, h: Hash, mp: nat, n: nat, prev: nat, key: Key)
    requires Chained(ns, rank, h) && h(key) == mp < |ns| && !Has(ns, key)
    requires n < |ns| && ns[n] == FREE && ns[mp].key.Some? && h(ns[mp].key.value) != mp
    requires prev < |ns| && ns[prev].next == mp
    ensures Added(ns, EvictRank(rank, mp, n), Evict(ns, mp, n, prev, key), h, key, mp)
  {
    assert n != mp && prev != n && prev != mp by { assert ns[prev] == ns[prev]; }
    hide Linked, FreeApart, Injective, Reachable, Brent, UniqueKeys, ValOf, Has, Evict, EvictRank, Used;
    EvictShape(ns, rank, mp, n, prev, key);
    EvictKeys(ns, h, mp, n, prev, key);
    EvictReachable(ns, rank, h, mp, n, prev, key);
    EvictValues(ns, mp, n, prev, key);
    EvictUse(ns, mp, n, prev, key);
  }

  lemma EvictUse(ns: seq<Node>, mp: nat, n: nat, prev: nat, key: Key)
    requires mp < |ns| && n < |ns| && prev < |ns| && ns[n] == FREE && prev != mp && prev != n && mp != n && ns[mp].key.Some?
    ensures var ns' := Evict(ns, mp, n, prev, key);
      && |ns'| == |ns| && ns'[mp].key == Some(key) && ns'[mp].val == Nil && |Used(ns')| <= |Used(ns)| + 1
      && forall i :: 0 <= i < |ns| && i != mp && ns'[i].key.None? ==> ns[i].key.None?
  {
    UsedMore(ns, Evict(ns, mp, n, prev, key), n);
  }

  lemma EvictValues(ns: seq<Node>, mp: nat, n: nat, prev: nat, key: Key)
    requires mp < |ns| && n < |ns| && prev < |ns| && ns[n] == FREE && prev != mp && prev != n && mp != n
    requires UniqueKeys(ns) && UniqueKeys(Evict(ns, mp, n, prev, key)) && !Has(ns, key)
    ensures var ns' := Evict(ns, mp, n, prev, key);
      (forall k :: ValOf(ns', k) == ValOf(ns, k)) && (forall k :: Has(ns', k) ==> Has(ns, k) || k == key)
  {
    var ns' := Evict(ns, mp, n, prev, key);
    forall i | 0 <= i < |ns| && i != mp && ns'[i].key.Some?
      ensures exists k {:trigger ns[k]} :: 0 <= k < |ns| && ns[k].key == ns'[i].key && ns[k].val == ns'[i].val
    {
      var o := if i == n then mp else i;
      assert ns[o].key == ns'[i].key && ns[o].val == ns'[i].val;
    }
    hide UniqueKeys, Has;
    ValuesSame(ns, ns', key, mp, i => if i == mp then n else i);
  }

  lemma EvictLinked(ns: seq<Node>, rank: seq<nat>, mp: nat, n: nat, prev: nat, key: Key)
    requires Linked(ns, rank) && FreeApart(ns)
    requires mp < |ns| && n < |ns| && prev < |ns| && ns[n] == FREE && ns[prev].next == mp && prev != mp
    requires forall i :: 0 <= i < |ns| ==> ns[i].next != n && (ns[i].next == mp ==> i == prev)
    ensures Linked(Evict(ns, mp, n, prev, key), EvictRank(rank, mp, n))
  {
  }

  lemma EvictApart(ns: seq<Node>, mp: nat, n: nat, prev: nat, key: Key)
    requires FreeApart(ns) && mp < |ns| && n < |ns| && prev < |ns| && ns[n] == FREE && ns[mp].key.Some? && prev != mp && ns[prev].next == mp
    ensures FreeApart(Evict(ns, mp, n, prev, key))
  {
  }

  lemma EvictShape(ns: seq<Node>, rank: seq<nat>, mp: nat, n: nat, prev: nat, key: Key)
    requires Linked(ns, rank) && FreeApart(ns) && Injective(ns)
    requires mp < |ns| && n < |ns| && prev < |ns| && ns[n] == FREE && ns[mp].key.Some? && ns[prev].next == mp && prev != mp
    ensures var ns' := Evict(ns, mp, n, prev, key); Linked(ns', EvictRank(rank, mp, n)) && FreeApart(ns') && Injective(ns')
  {
    hide Linked;
    var ns' := Evict(ns, mp, n, prev, key);
    forall i | 0 <= i < |ns| ensures ns[i].next != n && (ns[i].next == mp ==> i == prev) {
      assert ns[i] == ns[i] && ns[prev] == ns[prev];
    }
    EvictLinked(ns, rank, mp, n, prev, key);
    EvictApart(ns, mp, n, prev, key);
    forall i, j | 0 <= i < |ns| && 0 <= j < |ns| && ns'[i].next == ns'[j].next >= 0 ensures i == j {
      assert ns[i].next == ns[i].next && ns[j] == ns[j] && ns[mp] == ns[mp];
    }
  }

  lemma EvictKeys(ns: seq<Node>, h: Hash, mp: nat, n: nat, prev: nat, key: Key)
    requires UniqueKeys(ns) && Brent(ns, h) && h(key) == mp < |ns| && !Has(ns, key)
    requires n < |ns| && ns[n] == FREE && ns[mp].key.Some? && h(ns[mp].key.value) != mp && prev < |ns| && prev != n && prev != mp
    ensures var ns' := Evict(ns, mp, n, prev, key); UniqueKeys(ns') && Brent(ns', h)
  {
    var ns' := Evict(ns, mp, n, prev, key);
    forall i, j | 0 <= i < |ns| && 0 <= j < |ns| && ns'[i].key == ns'[j].key && ns'[i].key.Some? ensures i == j {
      assert ns[i].key != Some(key) && ns[j].key != Some(key) && ns[mp].key != Some(key);
    }
    forall i | 0 <= i < |ns| && ns'[i].key.Some?
      ensures var m := h(ns'[i].key.value); m < |ns| && ns'[m].key.Some? && h(ns'[m].key.value) == m
    {
      var o := if i == n then mp else i;
      assert i != mp ==> ns'[i].key == ns[o].key;
      assert i != mp ==> ns[o] == ns[o];
    }
  }

  lemma EvictReachable(ns: seq<Node>, rank: seq<nat>, h: Hash, mp: nat, n: nat, prev: nat, key: Key)
    requires Linked(ns, rank) && FreeApart(ns) && Injective(ns) && Reachable(ns, rank, h) && Brent(ns, h) && h(key) == mp < |ns|
    requires n < |ns| && ns[n] == FREE && ns[mp].key.Some? && h(ns[mp].key.value) != mp
    requires prev < |ns| && ns[prev].next == mp && prev != mp
    requires Linked(Evict(ns, mp, n, prev, key), EvictRank(rank, mp, n))
    ensures Reachable(Evict(ns, mp, n, prev, key), EvictRank(rank, mp, n), h)
  {
    var ns', rank' := Evict(ns, mp, n, prev, key), EvictRank(rank, mp, n);
    assert ns[n].next == -1;
    forall i | 0 <= i < |ns| && ns'[i].key.Some? ensures h(ns'[i].key.value) < |ns| && InChain(ns', rank', h(ns'[i].key.value), i) {
      if i != mp {
        var o := if i == n then mp else i;
        assert ns'[i].key == ns[o].key && ns[o] == ns[o];
        var a := h(ns[o].key.value);
        assert a != mp;
        EvictChain(ns, rank, mp, n, prev, key, a, o);
      }
    }
  }

  lemma {:induction false} EvictChain(ns: seq<Node>, rank: seq<nat>, mp: nat, n: nat, prev: nat, key: Key, i: nat, j: nat)
    requires Linked(ns, rank) && FreeApart(ns) && Injective(ns)
    requires mp < |ns| && n < |ns| && ns[n] == FREE && n != mp && prev < |ns| && ns[prev].next == mp && prev != mp
    requires Linked(Evict(ns, mp, n, prev, key), EvictRank(rank, mp, n))
    requires i < |ns| && i != n && InChain(ns, rank, i, j)
    ensures var ns', rank' := Evict(ns, mp, n, prev, key), EvictRank(rank, mp, n);
      InChain(ns', rank', if i == mp then n else i, if j == mp then n else j)
    decreases rank[i]
  {
    var ns', rank' := Evict(ns, mp, n, prev, key), EvictRank(rank, mp, n);
    if i != j {
      var k := ns[i].next;
      assert k != n && (k == mp ==> i == prev) by { assert ns[i] == ns[i] && ns[prev] == ns[prev]; }
      EvictChain(ns, rank, mp, n, prev, key, k, j);
      assert ns'[if i == mp then n else i].next == if k == mp then n else k;
    }
  }
}
