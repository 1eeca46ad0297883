/** The hash part of a table: a chained scatter table whose links run through the node
    vector itself. */
module TblModel {
  import opened Common

  const MAXBITS: nat := 26
  const MAXASIZE: nat := 0x400_0000

  /** Integer keys are candidates for the array part; all other keys (strings, booleans,
      objects, numbers with a fraction) are only compared and hashed. */
  datatype Key = KInt(i: int) | KOther(id: nat)

  datatype Value = Nil | Val(v: int)

  /** `next` is a position in the vector, or -1. A node whose key is present but whose value
      is nil is a deleted entry. */
  datatype Node = Node(key: Option<Key>, val: Value, next: int)

  const FREE := Node(None, Nil, -1)

  /** The main position of each key in a vector of a given size. */
  type Hash = Key -> nat

  // ------------------------------------------------------------------ chains

  /** Links lead to lower ranks, so chains end. */
  ghost predicate Linked(ns: seq<Node>, rank: seq<nat>) {
    && |rank| == |ns|
    && forall i {:trigger ns[i]} :: 0 <= i < |ns| ==>
      -1 <= ns[i].next < |ns| && (ns[i].next >= 0 ==> rank[ns[i].next] < rank[i])
  }

  /** Position `j` is on the chain that starts at `i`. */
  ghost predicate InChain(ns: seq<Node>, rank: seq<nat>, i: nat, j: nat)
    requires Linked(ns, rank) && i < |ns|
    decreases rank[i]
  {
    i == j || (ns[i].next >= 0 && InChain(ns, rank, ns[i].next, j))
  }

  /** Free nodes are on no chain. */
  ghost predicate FreeApart(ns: seq<Node>) {
    forall i {:trigger ns[i]} :: 0 <= i < |ns| ==>
      && (ns[i].key.None? ==> ns[i] == FREE)
      && (0 <= ns[i].next < |ns| ==> ns[ns[i].next].key.Some?)
  }

  /** No two nodes share a successor: chains are disjoint until one runs into another's start. */
  ghost predicate Injective(ns: seq<Node>) {
    forall i, j {:trigger ns[i], ns[j]} :: 0 <= i < |ns| && 0 <= j < |ns| && ns[i].next == ns[j].next >= 0 ==> i == j
  }

  ghost predicate UniqueKeys(ns: seq<Node>) {
    forall i, j {:trigger ns[i], ns[j]} :: 0 <= i < |ns| && 0 <= j < |ns| && ns[i].key == ns[j].key && ns[i].key.Some? ==> i == j
  }

  /** Every key is on the chain of its main position. */
  ghost predicate Reachable(ns: seq<Node>, rank: seq<nat>, h: Hash)
    requires Linked(ns, rank)
  {
    forall i {:trigger ns[i]} :: 0 <= i < |ns| && ns[i].key.Some? ==>
      h(ns[i].key.value) < |ns| && InChain(ns, rank, h(ns[i].key.value), i)
  }

  /** Brent's variation: a main position that is wanted is held by a key that belongs there. */
  ghost predicate Brent(ns: seq<Node>, h: Hash) {
    forall i {:trigger ns[i]} :: 0 <= i < |ns| && ns[i].key.Some? ==>
      var m := h(ns[i].key.value);
      m < |ns| && ns[m].key.Some? && h(ns[m].key.value) == m
  }

  ghost predicate Chained(ns: seq<Node>, rank: seq<nat>, h: Hash) {
    Linked(ns, rank) && FreeApart(ns) && Injective(ns) && UniqueKeys(ns) && Reachable(ns, rank, h) && Brent(ns, h)
  }

  // ---------------------------------------------------------------- contents

  ghost predicate Has(ns: seq<Node>, k: Key) {
    exists i :: 0 <= i < |ns| && ns[i].key == Some(k)
  }

  ghost function Find(ns: seq<Node>, k: Key): (i: nat)
    requires Has(ns, k)
    ensures i < |ns| && ns[i].key == Some(k)
  {
    var i :| 0 <= i < |ns| && ns[i].key == Some(k);
    i
  }

  /** The value of a key in the hash part, nil if it has none. */
  ghost function ValOf(ns: seq<Node>, k: Key): Value {
    if Has(ns, k) then ns[Find(ns, k)].val else Nil
  }

  lemma ValAt(ns: seq<Node>, i: nat)
    requires UniqueKeys(ns) && i < |ns| && ns[i].key.Some?
    ensures Has(ns, ns[i].key.value) && ValOf(ns, ns[i].key.value) == ns[i].val
  {
  }

  /** The nodes in use, by position. */
  ghost function Used(ns: seq<Node>): set<nat> {
    set i | 0 <= i < |ns| && ns[i].key.Some?
  }

  /** A key that is not on the chain of its main position is not in the vector. */
  lemma NotFound(ns: seq<Node>, rank: seq<nat>, h: Hash, k: Key)
    requires Chained(ns, rank, h) && h(k) < |ns|
    requires forall j :: 0 <= j < |ns| && InChain(ns, rank, h(k), j) ==> ns[j].key != Some(k)
    ensures !Has(ns, k)
  {
  }
}
