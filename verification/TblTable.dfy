/** Tables: an array part and a hash part that together hold one finite map. */
module TblTable {
  import opened Common
  import opened TblModel
  import opened TblChain
  import opened TblSizes
  import opened TblContents

  datatype Status = Ok | Overflow | IndexIsNil | IndexIsNaN

  /** What a program may index a table with. */
  datatype Index = NilIndex | NaNIndex | KeyIndex(key: Key)

  /** The address of a value in a table. */
  datatype Slot = Missing | InArray(i: nat) | InNode(i: nat)

  /** `sizenode`: the hash part has 2^`lg` nodes, and `lg` fits its byte. */
  ghost predicate LogSize(n: nat, lg: nat) {
    lg <= MAXBITS && n == Pow2(lg)
  }

  /** Even with the best size of the array part, too many keys go to the hash part. */
  ghost predicate Crowded(keys: set<Key>) {
    exists n :: Best(Candidates(keys), n) && |Hashed(keys, n)| > MAXASIZE
  }

  /** No more keys than the limit of one part are never too many. */
  lemma FewFit(keys: set<Key>)
    requires |keys| <= MAXASIZE
    ensures !Crowded(keys)
  {
    forall n | Best(Candidates(keys), n) ensures |Hashed(keys, n)| <= MAXASIZE { SubsetSize(Hashed(keys, n), keys); }
  }

  /** How a table lies in memory: the array part, the nodes, and whether these are the shared one. */
  datatype Layout = Layout(a: seq<Value>, ns: seq<Node>, dummy: bool) {
    ghost function At(k: Key): Value {
      Lookup(a, ns, k)
    }

    ghost function Live(): set<Key> {
      LiveKeys(a, ns)
    }
  }

  /** The value that a sequence of assignments leaves for a key. */
  function LastValue(ops: seq<(Key, Value)>, k: Key, start: Value): Value {
    if ops == [] then start
    else if ops[|ops| - 1].0 == k then ops[|ops| - 1].1
    else LastValue(ops[..|ops| - 1], k, start)
  }

  class Table {
    /** The node that all tables without a hash part share; nobody may write it. */
    const dummynode: array<Node>
    /** `mainposition`, for a key and a size of the hash part. */
    const mainposition: (Key, nat) -> nat

    var arr: array<Value>
    var sizearray: nat
    var node: array<Node>
    var lastfree: int
    var lsizenode: nat
    ghost var rank: seq<nat>

    ghost function Owned(): set<object>
      reads this
    {
      if node == dummynode then {arr as object} else {arr as object, node}
    }

    ghost function HashOf(n: nat): Hash {
      k => mainposition(k, n)
    }

    ghost predicate Hashing() {
      forall k, n: nat :: n > 0 ==> mainposition(k, n) < n
    }

    ghost predicate Valid()
      reads this, arr, node, dummynode
    {
      && Hashing() && dummynode.Length == 1 && dummynode[..] == [FREE]
      && sizearray <= arr.Length && LogSize(node.Length, lsizenode)
      && Sane(arr[..sizearray], node[..], rank, HashOf(node.Length), lastfree, node == dummynode)
    }

    /** The value of a key. */
    ghost function At(k: Key): Value
      reads this, arr, node
      requires sizearray <= arr.Length
    {
      Lookup(arr[..sizearray], node[..], k)
    }

    /** A free node is left, whatever main positions may be taken. */
    ghost predicate Room()
      reads this, node
    {
      node != dummynode && |Used(node[..])| < node.Length
    }

    /** No node is free. */
    ghost predicate Full()
      reads this, node
    {
      node == dummynode || forall i :: 0 <= i < node.Length ==> node[i].key.Some?
    }

    ghost function Lies(): Layout
      reads this, arr, node
      requires sizearray <= arr.Length
    {
      Layout(arr[..sizearray], node[..], node == dummynode)
    }

    /** The key has no slot, its main position is taken, no node is free, and even the best sizes
        with the key added need too large a hash part. */
    ghost predicate Blocks(l: Layout, key: Key) {
      && !Within(key, |l.a|) && !Has(l.ns, key)
      && (l.dummy || (
            && (mainposition(key, |l.ns|) < |l.ns| ==> l.ns[mainposition(key, |l.ns|)].val != Nil)
            && forall n :: n in l.ns ==> n.key.Some?))
      && Crowded(l.Live() + {key})
    }

    ghost predicate Blocked(key: Key)
      reads this, arr, node
      requires sizearray <= arr.Length
    {
      Blocks(Lies(), key)
    }

    /** The slot of the key, which is present. */
    ghost predicate SlotOf(p: Slot, key: Key)
      reads this, arr, node
    {
      match p
      case Missing => false
      case InArray(i) => key == KInt(i + 1) && i < sizearray <= arr.Length
      case InNode(i) => i < node.Length && node[i].key == Some(key) && node != dummynode
    }

    // ---------------------------------------------------------------- search

    /** Follows the chain of the key's main position. */
    method Search(key: Key) returns (i: int)
      requires Valid()
      ensures i >= 0 ==> i < node.Length && node[i].key == Some(key)
      ensures i < 0 ==> !Has(node[..], key)
    {
      var start := mainposition(key, node.Length);
      ghost var ns, h := node[..], HashOf(node.Length);
      assert h(key) == start;
      i := start;
      while i >= 0
        invariant -1 <= i < node.Length
        invariant forall j :: 0 <= j < |ns| && InChain(ns, rank, start, j) ==>
          ns[j].key != Some(key) || (i >= 0 && InChain(ns, rank, i, j))
        decreases if i >= 0 then rank[i] + 1 else 0
      {
        assert ns[i] == node[i];
        if node[i].key == Some(key) { return i; }
        i := node[i].next;
      }
      NotFound(ns, rank, h, key);
    }

    /** `luaH_get`: array part first, then the chain. */
    method Get(key: Key) returns (p: Slot)
      requires Valid()
      ensures p.Missing? ==> !Within(key, sizearray) && !Has(node[..], key)
      ensures !p.Missing? ==> SlotOf(p, key) && (p.InArray? <==> Within(key, sizearray)) && (p.InNode? ==> Has(node[..], key))
    {
      if key.KInt? && 1 <= key.i <= sizearray {
        return InArray(key.i - 1);
      }
      var i := Search(key);
      return if i >= 0 then InNode(i) else Missing;
    }

    /** The value at the address that `luaH_get` returns is the map's value. */
    method Read(key: Key) returns (v: Value)
      requires Valid()
      ensures v == At(key)
    {
      var p := Get(key);
      match p {
        case Missing => v := Nil;
        case InArray(i) => v := arr[i];
        case InNode(i) =>
          ValAt(node[..], i);
          v := node[i].val;
      }
    }

    method Store(p: Slot, key: Key, v: Value)
      requires Valid() && SlotOf(p, key)
      modifies Owned()
      ensures Valid() && forall k :: At(k) == if k == key then v else old(At(k))
      ensures forall k :: Has(node[..], k) == old(Has(node[..], k))
      ensures Used(node[..]) == old(Used(node[..]))
      ensures p.InNode? ==> arr[..] == old(arr[..])
      ensures p.InArray? ==> node[..] == old(node[..])
    {
      hide Sane, Has, Lookup, Used;
      ghost var a, ns := arr[..sizearray], node[..];
      match p {
        case InArray(i) =>
          WriteArraySane(a, ns, rank, HashOf(node.Length), lastfree, node == dummynode, i, v);
          arr[i] := v;
          assert arr[..sizearray] == a[i := v] && node[..] == ns;
        case InNode(i) =>
          WriteNodeSane(a, ns, rank, HashOf(node.Length), lastfree, i, v);
          node[i] := node[i].(val := v);
          assert node[..] == ns[i := ns[i].(val := v)];
      }
    }

    // ---------------------------------------------------------------- new keys

    /** `getfreepos`: searches down from `lastfree`. */
    method GetFreePos() returns (n: int)
      requires Valid()
      modifies `lastfree
      ensures n >= 0 ==> n < node.Length && node != dummynode && node[n] == FREE
      ensures n >= 0 ==> forall i {:trigger node[i]} :: 0 <= i < node.Length && node[i].key.None? ==> i < lastfree || i == n
      ensures n < 0 ==> Valid() && !Room()
      ensures n < 0 <==> Full()
      ensures lastfree <= node.Length
    {
      while lastfree > 0
        invariant lastfree <= node.Length
        invariant FreeBelow(node[..], lastfree, node == dummynode)
        decreases lastfree
      {
        lastfree := lastfree - 1;
        if node[lastfree].key.None? {
          assert node[..][lastfree] == FREE;
          return lastfree;
        }
      }
      lastfree := lastfree - 1;
      if node != dummynode {
        assert forall i :: 0 <= i < node.Length ==> node[..][i].key.Some?;
        FullCount(node[..]);
      }
      return -1;
    }

    // The hash part is in order and `n` is a free node for `key`, whose main position `mp` is taken.
    ghost predicate Ready(key: Key, mp: nat, n: nat)
      reads this, node
    {
      && Chained(node[..], rank, HashOf(node.Length)) && !Has(node[..], key)
      && mp == mainposition(key, node.Length) < node.Length && node[mp].key.Some?
      && n < node.Length && node[n] == FREE
    }

    /** The colliding node moves to the free node, which takes its place on its chain. */
    method MoveColliding(key: Key, mp: nat, othern: nat, n: nat)
      requires Ready(key, mp, n) && othern == mainposition(node[mp].key.value, node.Length) != mp
      modifies node, `rank
      ensures Added(old(node[..]), rank, node[..], HashOf(node.Length), key, mp) && node[n].key.Some?
    {
      hide Chained, Linked, Added, Has, InChain, Evict, EvictRank;
      ghost var ns, h := node[..], HashOf(node.Length);
      assert ns[mp] == node[mp] && h(ns[mp].key.value) == othern;
      OnChain(ns, rank, h, mp);
      var prev := Previous(othern, mp);
      EvictAdds(ns, rank, h, mp, n, prev, key);
      rank := EvictRank(rank, mp, n);
      node[prev] := node[prev].(next := n);
      node[n] := node[mp];
      node[mp] := node[mp].(next := -1, val := Nil);
      node[mp] := node[mp].(key := Some(key));
      Evicted(ns, node[..], mp, n, prev, key);
    }

    /** The new node goes to the free node, right behind the main position. */
    method ChainBehind(key: Key, mp: nat, n: nat)
      requires Ready(key, mp, n) && mainposition(node[mp].key.value, node.Length) == mp
      modifies node, `rank
      ensures Added(old(node[..]), rank, node[..], HashOf(node.Length), key, n) && node[n].key.Some?
    {
      ghost var ns, h := node[..], HashOf(node.Length);
      assert ns[mp] == node[mp] && h(ns[mp].key.value) == mp;
      PushAdds(ns, rank, h, mp, n, key);
      hide Chained, Added, Has;
      rank := PushRank(rank, mp, n);
      node[n] := node[n].(next := node[mp].next);
      node[mp] := node[mp].(next := n);
      node[n] := node[n].(key := Some(key));
      assert node[..] == Push(ns, mp, n, key);
    }

    /** Uses the free node for the new key or for the colliding one. */
    method TakeFree(key: Key, mp: nat, n: nat) returns (at: nat)
      requires Ready(key, mp, n)
      modifies node, `rank
      ensures Added(old(node[..]), rank, node[..], HashOf(node.Length), key, at) && node[n].key.Some?
    {
      hide Chained, Added;
      var othern := mainposition(node[mp].key.value, node.Length);
      if othern != mp {
        MoveColliding(key, mp, othern, n);
        at := mp;
      } else {
        ChainBehind(key, mp, n);
        at := n;
      }
    }

    /** `newkey`: a slot for a key that has none. With room left it only moves nodes; otherwise
        the table is rehashed once, after which there is room. */
    method NewKey(key: Key, ghost room: bool) returns (st: Status, p: Slot)
      requires Valid() && !Within(key, sizearray) && !Has(node[..], key) && (room ==> Room())
      modifies this, Owned()
      ensures st.Ok? ==> Valid() && SlotOf(p, key) && fresh(Owned() - old(Owned())) && forall k :: At(k) == old(At(k))
      ensures room ==> st.Ok? && Grown(key)
      ensures st == if old(Blocked(key)) then Overflow else Ok
      decreases if room then 0 else 1, 3
    {
      hide Sane, Chained, Added, FreeBelow, Has, Lookup, Used, Reuse;
      ghost var ns, h, a, r, lf, d := node[..], HashOf(node.Length), arr[..sizearray], rank, lastfree, node == dummynode;
      var mp := mainposition(key, node.Length);
      SaneNode(a, ns, r, h, lf, d, key);
      if node[mp].val != Nil || node == dummynode {
        var n := GetFreePos();
        if n < 0 {
          assert !room;
          st, p := Regrow(key);
          return st, p;
        }
        mp := TakeFree(key, mp, n);
        AddedLow(ns, rank, node[..], h, key, mp, n, lastfree);
      } else {
        ReuseAdds(ns, rank, h, mp, key);
        node[mp] := node[mp].(key := Some(key));
        Reused(ns, node[..], mp, key, lastfree);
      }
      AddedSane(a, ns, r, lf, d, rank, node[..], h, key, mp, lastfree);
      return Ok, InNode(mp);
    }

    /** Makes room for the key and sets it. */
    method Regrow(key: Key) returns (st: Status, p: Slot)
      requires Valid() && !Within(key, sizearray) && !Has(node[..], key)
      modifies this, Owned()
      ensures st.Ok? ==> Valid() && SlotOf(p, key) && fresh(Owned() - old(Owned())) && forall k :: At(k) == old(At(k))
      ensures st == if old(TooBig(key)) then Overflow else Ok
      decreases 1, 2
    {
      hide Sane, Has, Lookup, Used, SlotOf, LiveKeys, Best, Hashed, Candidates;
      p := Missing;
      st := Rehash(key);
      if st == Ok { st, p := Set(key, true); }
    }

    /** The node before `mp` on the chain that starts at `othern`. */
    method Previous(othern: nat, mp: nat) returns (prev: nat)
      requires Linked(node[..], rank) && othern < node.Length && mp < node.Length && othern != mp && InChain(node[..], rank, othern, mp)
      ensures prev < node.Length && node[prev].next == mp
    {
      prev := othern;
      while node[prev].next != mp
        invariant prev < node.Length && prev != mp && InChain(node[..], rank, prev, mp)
        decreases rank[prev]
      {
        assert node[..][prev] == node[prev];
        prev := node[prev].next;
      }
    }

    /** `luaH_set`: the slot of a key, made if there is none. */
    method Set(key: Key, ghost room: bool) returns (st: Status, p: Slot)
      requires Valid() && (room && !Within(key, sizearray) && !Has(node[..], key) ==> Room())
      modifies this, Owned()
      ensures st.Ok? ==> Valid() && SlotOf(p, key) && fresh(Owned() - old(Owned())) && forall k :: At(k) == old(At(k))
      ensures room ==> st.Ok? && Grown(key)
      ensures room && old(Within(key, sizearray)) ==> node[..] == old(node[..]) && p.InArray?
      ensures room && !old(Within(key, sizearray)) ==> p.InNode?
      ensures st == if old(Blocked(key)) then Overflow else Ok
      decreases if room then 0 else 1, 4
    {
      hide Chained, Sane, Has, Lookup, Used;
      p := Get(key);
      if !p.Missing? { return Ok, p; }
      st, p := NewKey(key, room);
    }

    // ------------------------------------------------------------------ rehash

    /** Counts the keys of the array part slice by slice. */
    method NumUseArray(nums: array<nat>) returns (ause: nat)
      requires Valid() && nums.Length == MAXBITS + 1 && forall i :: 0 <= i < nums.Length ==> nums[i] == 0
      modifies nums
      ensures Counts(nums[..], ArrayKeys(arr[..sizearray], sizearray))
      ensures ause == |ArrayKeys(arr[..sizearray], sizearray)|
    {
      hide Counts, Sane, ArrayKeys;
      ghost var a := arr[..sizearray];
      var lg, ttlg, i := 0, 1, 1;
      ause := 0;
      SaneKeys(a, node[..], rank, HashOf(node.Length), lastfree, node == dummynode);
      EmptyCounts(nums[..]);
      NoArrayKeys(a);
      Pow2Max();
      while lg <= MAXBITS
        invariant 0 <= lg <= MAXBITS + 1 && ttlg == Pow2(lg) && 1 <= i <= sizearray + 1
        invariant i == ttlg / 2 + 1 || i == sizearray + 1 <= ttlg / 2 + 1
        invariant Counts(nums[..], ArrayKeys(a, i - 1)) && ause == |ArrayKeys(a, i - 1)|
        decreases MAXBITS + 1 - lg
      {
        var lc, lim := 0, ttlg;
        if lim > sizearray {
          lim := sizearray;
          if i > lim { break; }
        }
        ghost var before, from := nums[..], i;
        assert before[lg := before[lg] + 0] == before;
        while i <= lim
          invariant from <= i <= lim + 1 && nums[..] == before
          invariant Counts(before[lg := before[lg] + lc], ArrayKeys(a, i - 1)) && ause + lc == |ArrayKeys(a, i - 1)|
          decreases lim + 1 - i
        {
          ArrayStep(a, i, before[lg := before[lg] + lc], lg);
          assert before[lg := before[lg] + lc][lg := before[lg] + lc + 1] == before[lg := before[lg] + (lc + 1)];
          if arr[i - 1] != Nil { lc := lc + 1; }
          i := i + 1;
        }
        nums[lg] := nums[lg] + lc;
        assert nums[..] == before[lg := before[lg] + lc];
        ause := ause + lc;
        lg, ttlg := lg + 1, ttlg * 2;
      }
    }

    /** `countint`. */
    method CountInt(key: Key, nums: array<nat>, ghost keys: set<nat>) returns (c: nat)
      requires Counts(nums[..], keys) && (key.KInt? && key.i >= 0 ==> key.i !in keys)
      modifies nums
      ensures c == if Within(key, MAXASIZE) then 1 else 0
      ensures Counts(nums[..], if Within(key, MAXASIZE) then keys + {key.i} else keys)
    {
      if key.KInt? && 0 < key.i <= MAXASIZE {
        CountOne(nums[..], keys, key.i);
        var l := CeilLog2(key.i);
        ghost var before := nums[..];
        nums[l] := nums[l] + 1;
        assert nums[..] == before[l := before[l] + 1];
        return 1;
      }
      return 0;
    }

    /** Counts the keys of the hash part, and those of them that may go to the array part. */
    method NumUseHash(nums: array<nat>, ghost keys: set<nat>) returns (totaluse: nat, ause: nat)
      requires Valid() && Counts(nums[..], keys) && InRange(keys) && forall k :: k in keys ==> k <= sizearray
      modifies nums
      ensures totaluse == |NodeKeys(node[..], 0)|
      ensures Counts(nums[..], keys + Candidates(NodeKeys(node[..], 0))) && ause == |Candidates(NodeKeys(node[..], 0))|
    {
      hide Chained, Counts;
      ghost var ns := node[..];
      var i := node.Length;
      totaluse, ause := 0, 0;
      NoKeys(ns, keys);
      while i > 0
        invariant 0 <= i <= node.Length
        invariant totaluse == |NodeKeys(ns, i)| && ause == |Candidates(NodeKeys(ns, i))|
        invariant Counts(nums[..], keys + Candidates(NodeKeys(ns, i)))
      {
        i := i - 1;
        NodeCounted(ns, sizearray, rank, HashOf(node.Length), keys, i);
        assert ns[i] == node[i];
        if node[i].val != Nil {
          CandidatesAdd(NodeKeys(ns, i + 1), node[i].key.value);
          Together(keys, Candidates(NodeKeys(ns, i + 1)), node[i].key.value);
          var c := CountInt(node[i].key.value, nums, keys + Candidates(NodeKeys(ns, i + 1)));
          ause := ause + c;
          totaluse := totaluse + 1;
        }
      }
    }

    // ------------------------------------------------------------------ resize

    /** `luaM_reallocvector` of the array part: the elements that fit stay, the rest is nil. */
    method SetArrayVector(size: nat)
      requires sizearray <= arr.Length
      modifies `arr, `sizearray
      ensures fresh(arr) && arr.Length == size == sizearray
      ensures forall i :: 0 <= i < size ==> arr[i] == if i < old(sizearray) then old(arr[i]) else Nil
    {
      var a := new Value[size];
      var i := 0;
      while i < size
        invariant 0 <= i <= size && arr == old(arr) && sizearray == old(sizearray)
        invariant forall m :: 0 <= m < i ==> a[m] == if m < sizearray then arr[m] else Nil
      {
        a[i] := if i < sizearray then arr[i] else Nil;
        i := i + 1;
      }
      arr, sizearray := a, size;
    }

    method SetNodeVector(size: nat) returns (st: Status)
      requires dummynode.Length == 1 && dummynode[..] == [FREE]
      modifies `node, `lastfree, `lsizenode, `rank
      ensures st == if size > MAXASIZE then Overflow else Ok
      ensures st == Overflow ==> node == old(node) && lastfree == old(lastfree) && lsizenode == old(lsizenode) && rank == old(rank)
      ensures st == Ok ==> rank == seq(node.Length, _ => 0) && FreeBelow(node[..], lastfree, node == dummynode)
      ensures st == Ok ==> (forall i :: 0 <= i < node.Length ==> node[i] == FREE) && node.Length >= 1
      ensures st == Ok ==> LogSize(node.Length, lsizenode) && (if size == 0 then node == dummynode else fresh(node))
      ensures st == Ok && size > 0 ==> node.Length / 2 < size <= node.Length
    {
      Pow2Max();
      var lsize := 0;
      if size == 0 {
        node, lastfree := dummynode, 0;
        assert node[0] == node[..][0];
      } else {
        lsize := CeilLog2(size);
        CeilLog2Bound(size, MAXBITS);
        if lsize > MAXBITS { return Overflow; }
        var n := new Node[Pow2(lsize)](_ => FREE);
        node, lastfree := n, n.Length;
      }
      lsizenode := lsize;
      rank := seq(node.Length, _ => 0);
      return Ok;
    }

    /** While a table is rebuilt from array part `a0` and nodes `ns0`, it holds what its array
        part of size `n` has kept and the keys `done`. */
    ghost predicate Rebuilt(a0: seq<Value>, ns0: seq<Node>, n: nat, done: set<Key>)
      reads this, arr, node, dummynode
    {
      && Valid() && sizearray == n && UniqueKeys(ns0) && Separate(|a0|, ns0)
      && (forall k :: At(k) == if k in done || (Within(k, n) && Within(k, |a0|)) then Lookup(a0, ns0, k) else Nil)
      && (forall k :: Has(node[..], k) ==> k in done && !Within(k, n))
      && |Used(node[..])| <= |Hashed(done, n)| && done <= LiveKeys(a0, ns0)
    }

    /** The new hash part is large enough for all keys that have to go there. */
    ghost predicate HashRoom(a0: seq<Value>, ns0: seq<Node>, n: nat)
      reads this, node
    {
      |Hashed(LiveKeys(a0, ns0), n)| <= if node == dummynode then 0 else node.Length
    }

    /** Sets a key that is not in the table while there is a place for it. */
    method Reinsert(key: Key, v: Value, ghost a0: seq<Value>, ghost ns0: seq<Node>, ghost n: nat, ghost done: set<Key>)
      requires Rebuilt(a0, ns0, n, done) && key in LiveKeys(a0, ns0) && key !in done && v == Lookup(a0, ns0, key)
      requires !(Within(key, n) && Within(key, |a0|))
      requires HashRoom(a0, ns0, n)
      modifies this, Owned()
      ensures Rebuilt(a0, ns0, n, done + {key}) && node == old(node) && arr == old(arr)
      ensures !Within(key, n) ==> arr[..] == old(arr[..])
      decreases 0, 5
    {
      hide Sane, Has, Lookup, Used, LiveKeys, Hashed;
      HashedAdd(LiveKeys(a0, ns0), done, key, n);
      var st, p := Set(key, true);
      Store(p, key, v);
    }

    /** Sets the elements of the vanishing slice again. */
    method ReinsertArray(oldasize: nat, ghost a0: seq<Value>, ghost ns0: seq<Node>) returns (ghost done: set<Key>)
      requires Rebuilt(a0, ns0, sizearray, {}) && sizearray <= oldasize == |a0| <= arr.Length && arr[..oldasize] == a0
      requires HashRoom(a0, ns0, sizearray)
      modifies this, Owned()
      ensures Rebuilt(a0, ns0, old(sizearray), done) && done == Vanishing(a0, old(sizearray), oldasize)
      ensures node == old(node) && arr == old(arr)
      decreases 0, 6
    {
      hide Sane, Has, Lookup, Used, LiveKeys, Hashed, Chained;
      ghost var n := sizearray;
      done := {};
      var i := sizearray;
      NoneVanished(a0, n);
      while i < oldasize
        invariant n <= i <= oldasize && node == old(node) && arr == old(arr)
        invariant Rebuilt(a0, ns0, n, done) && oldasize <= arr.Length && arr[..oldasize] == a0 && done == Vanishing(a0, n, i)
      {
        VanishingStep(a0, ns0, n, i);
        assert arr[i] == arr[..oldasize][i];
        if arr[i] != Nil {
          ghost var all := arr[..];
          Reinsert(KInt(i + 1), arr[i], a0, ns0, n, done);
          assert arr[..oldasize] == all[..oldasize];
          done := done + {KInt(i + 1)};
        }
        i := i + 1;
      }
    }

    /** Sets the elements of the old hash part again. */
    method ReinsertNodes(nold: array<Node>, ghost a0: seq<Value>, ghost ns0: seq<Node>, ghost van: set<Key>)
      requires Rebuilt(a0, ns0, sizearray, van) && nold[..] == ns0 && nold !in Owned()
      requires van == if sizearray < |a0| then Vanishing(a0, sizearray, |a0|) else {}
      requires forall m :: 0 <= m < |ns0| && ns0[m].val != Nil ==> ns0[m].key.Some?
      requires HashRoom(a0, ns0, sizearray)
      modifies this, Owned()
      ensures Rebuilt(a0, ns0, old(sizearray), van + NodeKeys(ns0, 0))
      ensures node == old(node) && arr == old(arr)
      decreases 0, 6
    {
      hide Sane, Has, Lookup, Used, LiveKeys, Hashed, Chained;
      ghost var n, done := sizearray, van;
      NodesStart(a0, ns0, n, van);
      var i := nold.Length;
      while i > 0
        invariant 0 <= i <= nold.Length && node == old(node) && arr == old(arr)
        invariant Rebuilt(a0, ns0, n, done) && nold[..] == ns0 && done == van + NodeKeys(ns0, i)
      {
        i := i - 1;
        NodesStep(a0, ns0, i, van);
        assert nold[i] == ns0[i];
        if nold[i].val != Nil {
          Reinsert(nold[i].key.value, nold[i].val, a0, ns0, n, done);
          done := done + {nold[i].key.value};
        }
      }
    }

    /** `resize`: both parts get new sizes and every value is set again in its new place; no
        further rehash happens. */
    method Resize(nasize: nat, nhsize: nat) returns (st: Status)
      requires Valid() && nasize <= MAXASIZE
      requires |Hashed(LiveKeys(arr[..sizearray], node[..]), nasize)| <= nhsize
      modifies this, Owned()
      ensures st == if nhsize > MAXASIZE then Overflow else Ok
      ensures st.Ok? ==> Valid() && fresh(Owned() - old(Owned())) && forall k :: At(k) == old(At(k))
      ensures st.Ok? ==> sizearray == nasize && forall k :: Has(node[..], k) ==> !Within(k, nasize)
      ensures st.Ok? && nasize != old(sizearray) ==> arr.Length == nasize
      ensures st.Ok? ==> |Used(node[..])| <= old(|Hashed(LiveKeys(arr[..sizearray], node[..]), nasize)|)
      ensures st.Ok? ==> (node == dummynode <==> nhsize == 0) && (nhsize > 0 ==> node.Length / 2 < nhsize <= node.Length)
      decreases 1, 0
    {
      hide Sane, Has, Lookup, Used, LiveKeys, Hashed, Chained, FreeBelow, NodeKeys, Vanishing, UniqueKeys;
      ghost var a0, ns0 := arr[..sizearray], node[..];
      var oldasize, nold := sizearray, node;
      SaneKeys(a0, ns0, rank, HashOf(node.Length), lastfree, node == dummynode);
      st := NewParts(nasize, nhsize);
      if st == Overflow { return; }
      ghost var van := {};
      if nasize < oldasize {
        van := ReinsertArray(oldasize, a0, ns0);
        Shrink(a0, ns0, van);
      }
      ReinsertNodes(nold, a0, ns0, van);
      AllDone(a0, ns0, nasize, van);
      HashedMono(van + NodeKeys(ns0, 0), LiveKeys(a0, ns0), nasize);
    }

    /** The first half of `resize`: the array part has its new size, in front, and the hash
        part is new and empty. */
    method NewParts(nasize: nat, nhsize: nat) returns (st: Status)
      requires Valid() && nasize <= MAXASIZE
      requires |Hashed(LiveKeys(arr[..sizearray], node[..]), nasize)| <= nhsize
      modifies this
      ensures st == if nhsize > MAXASIZE then Overflow else Ok
      ensures st.Ok? ==> Rebuilt(old(arr[..sizearray]), old(node[..]), nasize, {})
      ensures st.Ok? ==> HashRoom(old(arr[..sizearray]), old(node[..]), nasize) && fresh(Owned() - old(Owned()))
      ensures st.Ok? && nasize < old(sizearray) ==> arr == old(arr)
      ensures st.Ok? && nasize > old(sizearray) ==> arr.Length == nasize
      ensures st.Ok? ==> (node == dummynode <==> nhsize == 0) && (nhsize > 0 ==> node.Length / 2 < nhsize <= node.Length)
      ensures st.Ok? ==> old(node) !in Owned()
    {
      hide Sane, Has, Lookup, Used, LiveKeys, Chained, FreeBelow, NodeKeys, UniqueKeys;
      ghost var a0, ns0 := arr[..sizearray], node[..];
      var oldasize := sizearray;
      SaneKeys(a0, ns0, rank, HashOf(node.Length), lastfree, node == dummynode);
      if nasize > oldasize { SetArrayVector(nasize); }
      st := SetNodeVector(nhsize);
      if st == Overflow { return; }
      if nasize < oldasize { sizearray := nasize; }
      Emptied(a0, ns0, arr[..sizearray], node[..], HashOf(node.Length), lastfree, node == dummynode);
    }

    /** The array part loses the memory behind its end. */
    method Shrink(ghost a0: seq<Value>, ghost ns0: seq<Node>, ghost done: set<Key>)
      requires Rebuilt(a0, ns0, sizearray, done)
      modifies `arr, `sizearray
      ensures Rebuilt(a0, ns0, old(sizearray), done) && fresh(arr) && arr.Length == sizearray
    {
      hide Sane, Has, Lookup, Used, LiveKeys, Hashed, UniqueKeys;
      ghost var a1 := arr[..sizearray];
      SetArrayVector(sizearray);
      assert arr[..sizearray] == a1;
    }

    /** With the key added, the hash part at the best array size would be beyond the limit. */
    ghost predicate TooBig(key: Key)
      reads this, arr, node
      requires sizearray <= arr.Length
    {
      Crowded(LiveKeys(arr[..sizearray], node[..]) + {key})
    }

    /** The counting half of `rehash`: the best size of the array part with the new key
        included, and the number of keys that then go to the hash part. */
    method NewSizes(key: Key) returns (n: nat, nhsize: nat)
      requires Valid() && !Within(key, sizearray) && !Has(node[..], key)
      ensures var live := LiveKeys(arr[..sizearray], node[..]);
        && Best(Candidates(live + {key}), n) && n <= MAXASIZE && nhsize == |Hashed(live + {key}, n)|
        && |Hashed(live, n)| <= nhsize && (!Within(key, n) ==> |Hashed(live, n)| < nhsize)
      ensures TooBig(key) <==> nhsize > MAXASIZE
    {
      hide Sane, Has, Lookup, Used, LiveKeys, Hashed, Counts, NodeKeys, ArrayKeys, Candidates, Best;
      ghost var a, ns := arr[..sizearray], node[..];
      ghost var ak, hk, live := ArrayKeys(a, sizearray), Candidates(NodeKeys(ns, 0)), LiveKeys(a, ns);
      CountedKeys(a, ns, rank, HashOf(node.Length), lastfree, node == dummynode, key);
      var nums := new nat[MAXBITS + 1](_ => 0);
      var nasize := NumUseArray(nums);
      var totaluse := nasize;
      var use, ause := NumUseHash(nums, ak);
      totaluse, nasize := totaluse + use, nasize + ause;
      var c := CountInt(key, nums, ak + hk);
      nasize, totaluse := nasize + c, totaluse + 1;
      var na;
      n, na := ComputeSizes(nums, nasize, Candidates(live + {key}));
      BestRange(Candidates(live + {key}), n);
      HashedCount(live + {key}, n);
      HashedMono(live, live + {key}, n);
      HashedNew(live, key, n);
      OneSize(live + {key}, n);
      nhsize := totaluse - na;
    }

    /** `rehash`: counts all keys, the new one included, computes the best size of the array
        part and moves everything into parts of the right sizes. */
    method Rehash(key: Key) returns (st: Status)
      requires Valid() && !Within(key, sizearray) && !Has(node[..], key)
      modifies this, Owned()
      ensures st.Ok? ==> Valid() && fresh(Owned() - old(Owned())) && forall k :: At(k) == old(At(k))
      ensures st.Ok? && !Within(key, sizearray) && !Has(node[..], key) ==> Room()
      ensures st.Ok? ==> Best(old(Candidates(LiveKeys(arr[..sizearray], node[..]) + {key})), sizearray)
      ensures st.Ok? ==> var hashed := |Hashed(old(LiveKeys(arr[..sizearray], node[..])) + {key}, sizearray)|;
        (node == dummynode <==> hashed == 0) && (hashed > 0 ==> node.Length / 2 < hashed <= node.Length)
      ensures st == if old(TooBig(key)) then Overflow else Ok
      decreases 1, 1
    {
      hide Sane, Has, Lookup, Used, LiveKeys, Hashed, Candidates, Best;
      var n, nhsize := NewSizes(key);
      st := Resize(n, nhsize);
    }

    // ------------------------------------------------------------------ the map

    constructor (dummy: array<Node>, hash: (Key, nat) -> nat)
      requires dummy.Length == 1 && dummy[..] == [FREE] && forall k, n: nat :: n > 0 ==> hash(k, n) < n
      ensures Valid() && dummynode == dummy && mainposition == hash && sizearray == 0 && node == dummy
      ensures fresh(Owned()) && forall k :: At(k) == Nil
    {
      dummynode, mainposition := dummy, hash;
      arr, sizearray, node, lastfree, lsizenode, rank := new Value[0], 0, dummy, 0, 0, [0];
      new;
      FreshNodes(node[..], HashOf(1));
    }

    /** `luaH_new`: an empty table with room for the given numbers of elements. Within the limit
        on the sizes of parts it is one that the other operations work on. */
    static method New(dummy: array<Node>, hash: (Key, nat) -> nat, narray: nat, nhash: nat) returns (st: Status, t: Table)
      requires dummy.Length == 1 && dummy[..] == [FREE] && forall k, n: nat :: n > 0 ==> hash(k, n) < n
      ensures st == if nhash > MAXASIZE then Overflow else Ok
      ensures st.Ok? ==> fresh(t) && fresh(t.Owned()) && t.sizearray == t.arr.Length == narray && forall k :: t.At(k) == Nil
      ensures st.Ok? ==> LogSize(t.node.Length, t.lsizenode) && (t.node == dummy <==> nhash == 0)
      ensures st.Ok? && nhash > 0 ==> t.node.Length / 2 < nhash <= t.node.Length
      ensures st.Ok? ==> (t.Valid() <==> narray <= MAXASIZE)
    {
      t := new Table(dummy, hash);
      t.SetArrayVector(narray);
      st := t.SetNodeVector(nhash);
      if st.Ok? {
        EmptyNil(t.arr[..t.sizearray], t.node[..]);
        if narray <= MAXASIZE {
          Emptied([], [], t.arr[..t.sizearray], t.node[..], t.HashOf(t.node.Length), t.lastfree, t.node == dummy);
        }
      }
    }

    /** An assignment `t[index] = v`: the map gets the value; nil removes the key. */
    method Put(index: Index, v: Value) returns (st: Status)
      requires Valid()
      modifies this, Owned()
      ensures index.NilIndex? <==> st.IndexIsNil?
      ensures index.NaNIndex? <==> st.IndexIsNaN?
      ensures st.Overflow? <==> index.KeyIndex? && old(Blocked(index.key))
      ensures st.Ok? ==> Valid() && fresh(Owned() - old(Owned()))
      ensures st.Ok? ==> forall k :: At(k) == if k == index.key then v else old(At(k))
      ensures !index.KeyIndex? ==> Valid() && Owned() == old(Owned()) && forall k :: At(k) == old(At(k))
    {
      hide Sane, Has, Lookup, Used, LiveKeys, Best, Hashed, Candidates;
      match index {
        case NilIndex => return IndexIsNil;
        case NaNIndex => return IndexIsNaN;
        case KeyIndex(key) =>
          var p;
          st, p := Set(key, false);
          if st.Ok? { Store(p, key, v); }
      }
    }

    /** An expression `t[index]`. */
    method Index(index: Index) returns (v: Value)
      requires Valid()
      ensures v == if index.KeyIndex? then At(index.key) else Nil
    {
      match index {
        case KeyIndex(key) => v := Read(key);
        case _ => v := Nil;
      }
    }

    /** `n` is a border: element `n`, unless `n` is 0, is present and the next one is not. */
    ghost predicate Border(n: nat)
      reads this, arr, node
      requires sizearray <= arr.Length
    {
      (n > 0 ==> At(KInt(n)) != Nil) && At(KInt(n + 1)) == Nil
    }

    /** Behind some integer there are no elements. */
    ghost predicate Finite(last: nat)
      reads this, arr, node
      requires sizearray <= arr.Length
    {
      forall i: nat :: i > last ==> At(KInt(i)) == Nil
    }

    /** `unbound_search`: doubling, then bisection; or a walk when the doubling overflows. */
    method UnboundSearch(start: nat, ghost last: nat) returns (n: nat)
      requires Valid() && Finite(last) && (start > 0 ==> At(KInt(start)) != Nil)
      ensures Border(n)
    {
      hide Sane, Lookup;
      var i: nat, j: nat := start, start + 1;
      var v := Read(KInt(j));
      while v != Nil
        invariant i < j && (i > 0 ==> At(KInt(i)) != Nil) && v == At(KInt(j))
        decreases last + 1 - i
      {
        i, j := j, j * 2;
        if j > MAX_INT {
          n := LinearSearch(last);
          return;
        }
        v := Read(KInt(j));
      }
      while j - i > 1
        invariant i < j && (i > 0 ==> At(KInt(i)) != Nil) && At(KInt(j)) == Nil
        decreases j - i
      {
        var m := (i + j) / 2;
        v := Read(KInt(m));
        if v == Nil { j := m; } else { i := m; }
      }
      return i;
    }

    method LinearSearch(ghost last: nat) returns (n: nat)
      requires Valid() && Finite(last)
      ensures Border(n)
    {
      hide Sane, Lookup;
      var i := 1;
      var v := Read(KInt(i));
      while v != Nil
        invariant i >= 1 && v == At(KInt(i)) && (i > 1 ==> At(KInt(i - 1)) != Nil)
        decreases last + 1 - i
      {
        i := i + 1;
        v := Read(KInt(i));
      }
      return i - 1;
    }

    /** `luaH_getn`, the length operator: a border of the table. */
    method GetN() returns (n: nat)
      requires Valid()
      ensures Border(n)
    {
      hide Sane, Chained;
      var j := sizearray;
      SaneKeys(arr[..sizearray], node[..], rank, HashOf(node.Length), lastfree, node == dummynode);
      if j > 0 && arr[j - 1] == Nil {
        var i := 0;
        while j - i > 1
          invariant 0 <= i < j <= sizearray && (i > 0 ==> arr[i - 1] != Nil) && arr[j - 1] == Nil
          decreases j - i
        {
          var m := (i + j) / 2;
          if arr[m - 1] == Nil { j := m; } else { i := m; }
        }
        return i;
      } else if node == dummynode {
        DummyHas(arr[..sizearray], node[..], rank, HashOf(node.Length), lastfree);
        return j;
      } else {
        ghost var last := LastInt(arr[..sizearray], node[..]);
        n := UnboundSearch(j, last);
      }
    }

    /** The layouts a run of assignments goes through. None but the last may block the next key, and
        each holds for every key the value last given to it. */
    ghost predicate Traced(trace: seq<Layout>, ops: seq<(Key, Value)>) {
      && 1 <= |trace| <= |ops| + 1
      && (forall i :: 0 <= i < |trace| - 1 ==> !Blocks(trace[i], ops[i].0))
      && forall i, k :: 0 <= i < |trace| ==> trace[i].At(k) == LastValue(ops[..i], k, trace[0].At(k))
    }

    lemma TraceStep(trace: seq<Layout>, ops: seq<(Key, Value)>, l: Layout)
      requires Traced(trace, ops) && |trace| <= |ops|
      requires var (key, v) := ops[|trace| - 1]; var last := trace[|trace| - 1];
        !Blocks(last, key) && forall k :: l.At(k) == if k == key then v else last.At(k)
      ensures Traced(trace + [l], ops)
    {
      hide Blocks;
      var n := |trace| - 1;
      assert ops[..n + 1] == ops[..n] + [ops[n]];
    }

    /** Any sequence of assignments: every key has the value last given to it. The run ends with an
        overflow exactly when it reaches a layout that blocks the next key; no fewer keys have a
        value then than one part can hold. `trace` are the layouts before the
        assignments done and behind the last one. */
    method PutAll(ops: seq<(Key, Value)>) returns (st: Status, done: nat, ghost trace: seq<Layout>)
      requires Valid()
      modifies this, Owned()
      ensures st == (if done == |ops| then Ok else Overflow) && |trace| == done + 1
      ensures Traced(trace, ops) && trace[0] == old(Lies())
      ensures st.Overflow? ==> Blocks(trace[done], ops[done].0) && |trace[done].Live()| >= MAXASIZE
      ensures st.Overflow? ==> forall k :: k in trace[done].Live() <==> trace[done].At(k) != Nil
      ensures st.Ok? ==> Valid() && fresh(Owned() - old(Owned())) && trace[done] == Lies()
      ensures st.Ok? ==> forall k :: At(k) == LastValue(ops, k, old(At(k)))
    {
      hide Sane, Lookup, LiveKeys, Crowded, Has, Blocks, Traced;
      st, done, trace := Ok, 0, [Lies()];
      NewTrace(Lies(), ops);
      assert forall k :: Lies().At(k) == At(k);
      while done < |ops|
        invariant 0 <= done <= |ops| && st.Ok? && Valid() && fresh(Owned() - old(Owned()))
        invariant |trace| == done + 1 && trace[0] == old(Lies()) && trace[done] == Lies() && Traced(trace, ops)
      {
        BlocksMany(trace[done], ops[done].0);
        LiveAll(arr[..sizearray], node[..], rank, HashOf(node.Length), lastfree, node == dummynode);
        assert Blocked(ops[done].0) == Blocks(trace[done], ops[done].0) && forall k :: trace[done].At(k) == At(k);
        st := Put(KeyIndex(ops[done].0), ops[done].1);
        if !st.Ok? { return; }
        assert forall k :: Lies().At(k) == At(k);
        TraceStep(trace, ops, Lies());
        done, trace := done + 1, trace + [Lies()];
      }
      TraceEnd(trace, ops);
      assert forall k :: Lies().At(k) == At(k);
    }

    lemma NewTrace(l: Layout, ops: seq<(Key, Value)>)
      ensures Traced([l], ops)
    {
    }

    lemma TraceEnd(trace: seq<Layout>, ops: seq<(Key, Value)>)
      requires Traced(trace, ops) && |trace| == |ops| + 1
      ensures forall k :: trace[|ops|].At(k) == LastValue(ops, k, trace[0].At(k))
    {
      assert ops[..|ops|] == ops;
    }

    /** A layout that blocks a key holds a value for that many keys. */
    lemma BlocksMany(l: Layout, key: Key)
      ensures Blocks(l, key) ==> |l.Live()| >= MAXASIZE
    {
      hide LiveKeys, Crowded;
      if |l.Live()| < MAXASIZE { FewFit(l.Live() + {key}); }
    }

    /** Only the hash part has changed, and one more node is in use at most. */
    twostate predicate Grown(key: Key)
      reads this, arr, node
    {
      && node == old(node) && arr == old(arr) && sizearray == old(sizearray) && arr[..] == old(arr[..])
      && |Used(node[..])| <= old(|Used(node[..])|) + 1
      && forall k :: Has(node[..], k) ==> old(Has(node[..], k)) || k == key
    }
  }

  lemma LiveAll(a: seq<Value>, ns: seq<Node>, rank: seq<nat>, h: Hash, lastfree: int, dummy: bool)
    requires Sane(a, ns, rank, h, lastfree, dummy)
    ensures forall k :: k in LiveKeys(a, ns) <==> Lookup(a, ns, k) != Nil
  {
    hide LiveKeys, Lookup;
    forall k ensures k in LiveKeys(a, ns) <==> Lookup(a, ns, k) != Nil { LiveIff(a, ns, k); }
  }

  lemma WriteArraySane(a: seq<Value>, ns: seq<Node>, rank: seq<nat>, h: Hash, lastfree: int, dummy: bool, i: nat, v: Value)
    requires Sane(a, ns, rank, h, lastfree, dummy) && i < |a|
    ensures Sane(a[i := v], ns, rank, h, lastfree, dummy)
    ensures forall k :: Lookup(a[i := v], ns, k) == if k == KInt(i + 1) then v else Lookup(a, ns, k)
  {
    hide Chained, FreeBelow, ValOf;
    forall k ensures Lookup(a[i := v], ns, k) == if k == KInt(i + 1) then v else Lookup(a, ns, k) {
      if Within(k, |a|) { assert k == KInt(k.i); }
    }
  }

  lemma WriteNodeSane(a: seq<Value>, ns: seq<Node>, rank: seq<nat>, h: Hash, lastfree: int, i: nat, v: Value)
    requires Sane(a, ns, rank, h, lastfree, false) && i < |ns| && ns[i].key.Some?
    ensures var ns' := ns[i := ns[i].(val := v)];
      && Sane(a, ns', rank, h, lastfree, false) && Used(ns') == Used(ns)
      && forall k :: Has(ns', k) == Has(ns, k) && Lookup(a, ns', k) == if Some(k) == ns[i].key then v else Lookup(a, ns, k)
  {
    hide Chained, ValOf, Used, Has;
    WriteNode(ns, rank, h, i, v);
    var ns' := ns[i := ns[i].(val := v)];
    assert forall j :: 0 <= j < |ns| ==> ns'[j].key == ns[j].key && ns[j] == ns[j];
  }

  lemma OnChain(ns: seq<Node>, rank: seq<nat>, h: Hash, mp: nat)
    requires Chained(ns, rank, h) && mp < |ns| && ns[mp].key.Some?
    ensures Linked(ns, rank) && h(ns[mp].key.value) < |ns| && InChain(ns, rank, h(ns[mp].key.value), mp)
  {
  }

  lemma Evicted(ns: seq<Node>, ns': seq<Node>, mp: nat, n: nat, prev: nat, key: Key)
    requires mp < |ns| == |ns'| && n < |ns| && prev < |ns| && n != mp && prev != mp && prev != n
    requires ns'[prev] == ns[prev].(next := n) && ns'[n] == ns[mp] && ns'[mp] == Node(Some(key), Nil, -1)
    requires forall i :: 0 <= i < |ns| && i != mp && i != n && i != prev ==> ns'[i] == ns[i]
    ensures ns' == Evict(ns, mp, n, prev, key)
  {
  }

  lemma SaneNode(a: seq<Value>, ns: seq<Node>, rank: seq<nat>, h: Hash, lastfree: int, dummy: bool, key: Key)
    requires Sane(a, ns, rank, h, lastfree, dummy)
    ensures h(key) < |ns| && (ns[h(key)].val != Nil ==> ns[h(key)].key.Some?)
    ensures Chained(ns, rank, h) && FreeBelow(ns, lastfree, dummy)
  {
  }

  lemma AddedLow(ns: seq<Node>, rank: seq<nat>, ns': seq<Node>, h: Hash, key: Key, at: nat, n: nat, lastfree: int)
    requires Added(ns, rank, ns', h, key, at) && n < |ns| && ns'[n].key.Some?
    requires forall i :: 0 <= i < |ns| && ns[i].key.None? ==> i < lastfree || i == n
    ensures |ns'| == |ns| && forall i {:trigger ns'[i]} :: 0 <= i < |ns| && ns'[i].key.None? ==> i < lastfree
  {
    hide Chained, ValOf, Used, Has;
  }

  lemma Reused(ns: seq<Node>, ns': seq<Node>, mp: nat, key: Key, lastfree: int)
    requires FreeBelow(ns, lastfree, false) && mp < |ns| == |ns'|
    requires ns' == ns[mp := ns[mp].(key := Some(key))]
    ensures ns' == Reuse(ns, mp, key)
    ensures lastfree <= |ns| && forall i {:trigger ns'[i]} :: 0 <= i < |ns| && ns'[i].key.None? ==> i < lastfree
  {
    assert forall i :: 0 <= i < |ns| && ns'[i].key.None? ==> ns[i].key.None?;
  }

  lemma DummyHas(a: seq<Value>, ns: seq<Node>, rank: seq<nat>, h: Hash, lastfree: int)
    requires Sane(a, ns, rank, h, lastfree, true)
    ensures forall k :: !Has(ns, k)
  {
  }

  /** An integer behind which no key lies. */
  ghost function LastInt(a: seq<Value>, ns: seq<Node>): (last: nat)
    ensures forall i: nat :: i > last ==> Lookup(a, ns, KInt(i)) == Nil
  {
    var m := MaxKey(ns);
    if |a| > m then |a| else m
  }

  ghost function MaxKey(ns: seq<Node>): (m: nat)
    ensures forall i: nat :: i > m ==> !Has(ns, KInt(i))
  {
    if ns == [] then 0
    else
      var m := MaxKey(ns[..|ns| - 1]);
      var k := ns[|ns| - 1].key;
      assert forall i: nat :: Has(ns, KInt(i)) ==> k == Some(KInt(i)) || Has(ns[..|ns| - 1], KInt(i));
      if k.Some? && k.value.KInt? && k.value.i > m then k.value.i else m
  }

  /** The table with the key added: nothing else has changed. */
  lemma AddedSane(a: seq<Value>, ns: seq<Node>, rank: seq<nat>, lastfree: int, dummy: bool,
                  rank': seq<nat>, ns': seq<Node>, h: Hash, key: Key, at: nat, lastfree': int)
    requires Sane(a, ns, rank, h, lastfree, dummy) && Added(ns, rank', ns', h, key, at) && !Within(key, |a|)
    requires lastfree' <= |ns| && forall i {:trigger ns'[i]} :: 0 <= i < |ns| && ns'[i].key.None? ==> i < lastfree'
    ensures Sane(a, ns', rank', h, lastfree', false) && at < |ns'| && ns'[at].key == Some(key)
    ensures forall k :: Lookup(a, ns', k) == Lookup(a, ns, k)
    ensures |Used(ns')| <= |Used(ns)| + 1 && forall k :: Has(ns', k) ==> Has(ns, k) || k == key
  {
    hide Chained, ValOf, Used;
    forall i | 0 <= i < |ns'| && ns'[i].key.Some? ensures !Within(ns'[i].key.value, |a|) {
      var k := ns'[i].key.value;
      assert Has(ns', k);
      if k != key { assert !Within(ns[Find(ns, k)].key.value, |a|); }
    }
  }

  lemma NoKeys(ns: seq<Node>, keys: set<nat>)
    ensures NodeKeys(ns, |ns|) == {} && Candidates({}) == {} && keys + {} == keys
  {
  }

  lemma Together(a: set<nat>, b: set<nat>, k: Key)
    ensures Within(k, MAXASIZE) ==> a + (b + {k.i}) == a + b + {k.i}
  {
  }

  lemma CandidatesAdd(keys: set<Key>, k: Key)
    requires k !in keys
    ensures var all, rest := Candidates(keys + {k}), Candidates(keys);
      if Within(k, MAXASIZE) then all == rest + {k.i} && |all| == |rest| + 1 && k.i !in rest else all == rest
    ensures k.KInt? && k.i >= 0 ==> k.i !in Candidates(keys)
  {
    var all, rest := Candidates(keys + {k}), Candidates(keys);
    if Within(k, MAXASIZE) {
      assert all == rest + {k.i};
    } else {
      assert all == rest;
    }
  }

  /** One more node counted. */
  lemma NodeCounted(ns: seq<Node>, size: nat, rank: seq<nat>, h: Hash, keys: set<nat>, i: nat)
    requires Chained(ns, rank, h) && Separate(size, ns) && i < |ns|
    requires InRange(keys) && forall k :: k in keys ==> k <= size
    ensures var live, rest := NodeKeys(ns, i), NodeKeys(ns, i + 1);
      if ns[i].val == Nil then live == rest
      else ns[i].key.Some? && ns[i].key.value !in rest && live == rest + {ns[i].key.value}
    ensures ns[i].val != Nil && ns[i].key.value.KInt? && ns[i].key.value.i >= 0 ==> ns[i].key.value.i !in keys
  {
    hide Linked, Reachable, Brent, Injective;
    NodeKeysStep(ns, i);
    assert ns[i] == ns[i];
  }

  /** One more key done; as long as one is missing, the hash part is not full. */
  lemma HashedAdd(live: set<Key>, done: set<Key>, key: Key, n: nat)
    requires done <= live && key in live && key !in done
    ensures done + {key} <= live
    ensures |Hashed(done + {key}, n)| == |Hashed(done, n)| + (if Within(key, n) then 0 else 1)
    ensures !Within(key, n) ==> |Hashed(done, n)| < |Hashed(live, n)|
  {
    var d := Hashed(done, n);
    if Within(key, n) {
      assert Hashed(done + {key}, n) == d;
    } else {
      assert Hashed(done + {key}, n) == d + {key};
      SubsetSize(d + {key}, Hashed(live, n));
    }
  }

  /** The keys of elements that no longer fit the array part, up to element `i`. */
  ghost function Vanishing(a: seq<Value>, n: nat, i: nat): set<Key>
    requires i <= |a|
  {
    set m | n < m <= i && Filled(a, m) :: KInt(m)
  }

  lemma NoneVanished(a: seq<Value>, n: nat)
    requires n <= |a|
    ensures Vanishing(a, n, n) == {}
  {
  }

  /** What `rehash` counts. */
  lemma CountedKeys(a: seq<Value>, ns: seq<Node>, rank: seq<nat>, h: Hash, lastfree: int, dummy: bool, key: Key)
    requires Sane(a, ns, rank, h, lastfree, dummy) && !Within(key, |a|) && !Has(ns, key)
    ensures var ak, hk, live := ArrayKeys(a, |a|), Candidates(NodeKeys(ns, 0)), LiveKeys(a, ns);
      && InRange(ak) && InRange(Candidates(live + {key})) && (forall k :: k in ak ==> k <= |a|)
      && |ak + hk| == |ak| + |hk| && |live| == |ak| + |NodeKeys(ns, 0)| && key !in live
      && (key.KInt? && key.i >= 0 ==> key.i !in ak + hk)
      && Candidates(live + {key}) == (if Within(key, MAXASIZE) then ak + hk + {key.i} else ak + hk)
      && |live + {key}| == |live| + 1
  {
    hide Chained;
    SaneKeys(a, ns, rank, h, lastfree, dummy);
    var ak, nk, live := ArrayKeys(a, |a|), NodeKeys(ns, 0), LiveKeys(a, ns);
    var hk := Candidates(nk);
    assert forall k :: k in ak ==> 1 <= k <= |a| && Filled(a, k);
    NodeKeysApart(|a|, ns, key);
    assert ak !! hk;
    IntKeysCount(ak);
    assert IntKeys(ak) !! nk;
    CandidatesOf(ak, nk, key);
  }

  lemma NodeKeysApart(n: nat, ns: seq<Node>, key: Key)
    requires Separate(n, ns) && !Has(ns, key)
    ensures key !in NodeKeys(ns, 0) && forall k :: k in NodeKeys(ns, 0) ==> !Within(k, n)
  {
  }

  lemma CandidatesOf(ak: set<nat>, nk: set<Key>, key: Key)
    requires InRange(ak)
    ensures Candidates(IntKeys(ak) + nk + {key}) ==
      if Within(key, MAXASIZE) then ak + Candidates(nk) + {key.i} else ak + Candidates(nk)
  {
    var all := IntKeys(ak) + nk + {key};
    forall k: nat ensures k in Candidates(all) <==> k in ak || k in Candidates(nk) || (Within(key, MAXASIZE) && k == key.i) {
      assert KInt(k) in IntKeys(ak) <==> k in ak;
    }
  }

  lemma BestRange(keys: set<nat>, n: nat)
    requires Best(keys, n)
    ensures n <= MAXASIZE
  {
    Pow2Max();
    if n > 0 {
      var i: nat :| i <= MAXBITS && n == Pow2(i);
      Pow2Mono(i, MAXBITS);
    }
  }

  /** The best size decides whether there is one that makes the hash part too big. */
  lemma OneSize(keys: set<Key>, n: nat)
    requires Best(Candidates(keys), n)
    ensures |Hashed(keys, n)| > MAXASIZE <==> exists m :: Best(Candidates(keys), m) && |Hashed(keys, m)| > MAXASIZE
  {
    hide Best, Hashed, Candidates;
    forall m | Best(Candidates(keys), m) ensures m == n { BestUnique(Candidates(keys), m, n); }
  }

  lemma HashedNew(live: set<Key>, key: Key, n: nat)
    requires key !in live
    ensures !Within(key, n) ==> |Hashed(live + {key}, n)| == |Hashed(live, n)| + 1
  {
    if !Within(key, n) { assert Hashed(live + {key}, n) == Hashed(live, n) + {key}; }
  }

  lemma HashedMono(done: set<Key>, live: set<Key>, n: nat)
    requires done <= live
    ensures |Hashed(done, n)| <= |Hashed(live, n)|
  {
    SubsetSize(Hashed(done, n), Hashed(live, n));
  }

  lemma VanishingStep(a: seq<Value>, ns: seq<Node>, n: nat, i: nat)
    requires n <= i < |a| && UniqueKeys(ns) && Separate(|a|, ns)
    ensures var v, k := Vanishing(a, n, i), KInt(i + 1);
      if a[i] == Nil then Vanishing(a, n, i + 1) == v
      else Vanishing(a, n, i + 1) == v + {k} && k !in v && k in LiveKeys(a, ns) && Lookup(a, ns, k) == a[i]
  {
    assert Filled(a, i + 1) <==> a[i] != Nil;
    LiveIff(a, ns, KInt(i + 1));
  }

  lemma NodesStart(a: seq<Value>, ns: seq<Node>, n: nat, done: set<Key>)
    ensures NodeKeys(ns, |ns|) == {} && done + {} == done
  {
  }

  /** The next node to be set again. */
  lemma NodesStep(a: seq<Value>, ns: seq<Node>, i: nat, van: set<Key>)
    requires i < |ns| && UniqueKeys(ns) && Separate(|a|, ns) && (forall k :: k in van ==> Within(k, |a|))
    requires forall m :: 0 <= m < |ns| && ns[m].val != Nil ==> ns[m].key.Some?
    ensures ns[i].val == Nil ==> NodeKeys(ns, i) == NodeKeys(ns, i + 1)
    ensures ns[i].val != Nil ==> var k := ns[i].key.value;
      && van + NodeKeys(ns, i) == van + NodeKeys(ns, i + 1) + {k} && k !in van + NodeKeys(ns, i + 1)
      && k in LiveKeys(a, ns) && Lookup(a, ns, k) == ns[i].val && !Within(k, |a|)
  {
    NodeKeysStep(ns, i);
    if ns[i].val != Nil {
      assert ns[i] == ns[i];
      ValAt(ns, i);
      LiveIff(a, ns, ns[i].key.value);
    }
  }

  /** In the end nothing with a value is missing. */
  lemma AllDone(a: seq<Value>, ns: seq<Node>, n: nat, van: set<Key>)
    requires UniqueKeys(ns) && Separate(|a|, ns) && van == if n < |a| then Vanishing(a, n, |a|) else {}
    ensures forall k :: k !in van + NodeKeys(ns, 0) && !(Within(k, n) && Within(k, |a|)) ==> Lookup(a, ns, k) == Nil
  {
    forall m | m in ArrayKeys(a, |a|) && m > n ensures KInt(m) in van {
      assert Filled(a, m);
    }
    forall k | k !in van + NodeKeys(ns, 0) && !(Within(k, n) && Within(k, |a|)) ensures Lookup(a, ns, k) == Nil {
      LiveIff(a, ns, k);
    }
  }

  lemma SaneKeys(a: seq<Value>, ns: seq<Node>, rank: seq<nat>, h: Hash, lastfree: int, dummy: bool)
    requires Sane(a, ns, rank, h, lastfree, dummy)
    ensures UniqueKeys(ns) && Separate(|a|, ns) && |a| <= MAXASIZE
    ensures forall i :: 0 <= i < |ns| && ns[i].val != Nil ==> ns[i].key.Some?
  {
  }

  /** A table whose hash part is new and empty. */
  lemma EmptyNil(a: seq<Value>, ns: seq<Node>)
    requires forall i :: 0 <= i < |ns| ==> ns[i] == FREE
    requires forall i :: 0 <= i < |a| ==> a[i] == Nil
    ensures forall k :: Lookup(a, ns, k) == Nil
  {
  }

  lemma Emptied(a0: seq<Value>, ns0: seq<Node>, a: seq<Value>, ns: seq<Node>, h: Hash, lastfree: int, dummy: bool)
    requires |a| <= MAXASIZE && Hashes(h, |ns|) && FreeBelow(ns, lastfree, dummy)
    requires forall i :: 0 <= i < |ns| ==> ns[i] == FREE
    requires forall i :: 0 <= i < |a| ==> a[i] == if i < |a0| then a0[i] else Nil
    ensures Sane(a, ns, seq(|ns|, _ => 0), h, lastfree, dummy)
    ensures forall k :: Lookup(a, ns, k) == if Within(k, |a|) && Within(k, |a0|) then Lookup(a0, ns0, k) else Nil
    ensures (forall k :: !Has(ns, k)) && Used(ns) == {}
  {
    FreshNodes(ns, h);
  }

  lemma EmptyCounts(nums: seq<nat>)
    requires |nums| == MAXBITS + 1 && forall i :: 0 <= i < |nums| ==> nums[i] == 0
    ensures Counts(nums, {})
  {
    forall i | 0 <= i < |nums| ensures nums[i] == |Slice({}, i)| { assert Slice({}, i) == {}; }
  }

  lemma NoArrayKeys(a: seq<Value>)
    ensures ArrayKeys(a, 0) == {}
  {
  }

  /** One more element of the array part, in slice `lg`. */
  lemma ArrayStep(a: seq<Value>, i: nat, nums: seq<nat>, lg: nat)
    requires 1 <= i <= |a| && lg <= MAXBITS && Pow2(lg) / 2 < i <= Pow2(lg) && Counts(nums, ArrayKeys(a, i - 1))
    ensures a[i - 1] == Nil ==> ArrayKeys(a, i) == ArrayKeys(a, i - 1)
    ensures a[i - 1] != Nil ==> ArrayKeys(a, i) == ArrayKeys(a, i - 1) + {i} && i !in ArrayKeys(a, i - 1)
    ensures |nums| == MAXBITS + 1 && (a[i - 1] != Nil ==> Counts(nums[lg := nums[lg] + 1], ArrayKeys(a, i)))
  {
    assert Filled(a, i) <==> a[i - 1] != Nil;
    if a[i - 1] != Nil {
      assert ArrayKeys(a, i) == ArrayKeys(a, i - 1) + {i};
      SliceUnique(i, lg);
      Pow2Mono(lg, MAXBITS);
      Pow2Max();
      CountOne(nums, ArrayKeys(a, i - 1), i);
    } else {
      assert ArrayKeys(a, i) == ArrayKeys(a, i - 1);
    }
  }

  lemma FullCount(ns: seq<Node>)
    requires forall i :: 0 <= i < |ns| ==> ns[i].key.Some?
    ensures |Used(ns)| == |ns|
  {
    assert Used(ns) == Below(|ns|);
  }

  ghost function Below(n: nat): (s: set<nat>)
    ensures |s| == n && forall i: nat :: i in s <==> i < n
  {
    if n == 0 then {} else Below(n - 1) + {n - 1}
  }
}
