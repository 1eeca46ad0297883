/** References to values kept in a table: the freed ones form a list that runs through the
    table itself, from slot 0 on. */
module Refs {
  import opened Common
  import opened TblModel
  import opened TblContents
  import opened TblTable

  const FREELIST_REF := 0
  const LUA_REFNIL := -1

  // ------------------------------------------------------------------ the references

  /** The live references with their values, and the freed ones, the one freed last in front. */
  datatype Refs = Refs(live: map<nat, Value>, free: seq<nat>)

  /** Every slot from 1 on, up to their number, is either live, and not nil, or free. */
  ghost predicate Proper(r: Refs) {
    && NoDup(r.free)
    && (forall i: nat :: i in r.live ==> i !in r.free && r.live[i] != Nil)
    && (forall i: nat :: i in r.live || i in r.free <==> 1 <= i <= Size(r))
  }

  function Size(r: Refs): nat {
    |r.live| + |r.free|
  }

  /** The reference that is handed out next: the one freed last, or a new one. */
  function Next(r: Refs): nat {
    if r.free != [] then r.free[0] else Size(r) + 1
  }

  function Taken(r: Refs, v: Value): Refs {
    if v == Nil then r else Refs(r.live[Next(r) := v], if r.free != [] then r.free[1..] else [])
  }

  function Freed(r: Refs, ref: int): Refs {
    if ref < 0 then r else Refs(r.live - {ref}, [ref] + r.free)
  }

  lemma TakenSize(r: Refs, v: Value)
    requires Proper(r) && v != Nil
    ensures Taken(r, v).live.Keys == r.live.Keys + {Next(r)} && Next(r) !in r.live && Next(r) > 0
    ensures Next(r) <= Size(Taken(r, v)) == if r.free == [] then Size(r) + 1 else Size(r)
  {
    if r.free != [] { assert r.free[0] in r.free; }
  }

  /** A live reference, a negative one, which stands for nothing, or the one that follows all
      references. */
  predicate MayFree(r: Refs, ref: int) {
    ref < 0 || ref in r.live || ref == Size(r) + 1
  }

  lemma FreedSize(r: Refs, ref: nat)
    ensures Freed(r, ref).live.Keys == r.live.Keys - {ref}
    ensures Size(Freed(r, ref)) == if ref in r.live then Size(r) else Size(r) + 1
  {
    assert Freed(r, ref).live.Keys == r.live.Keys - {ref};
    if ref !in r.live { assert Freed(r, ref).live == r.live; }
  }

  lemma NextIsFresh(r: Refs, v: Value)
    requires Proper(r)
    ensures Next(r) > 0 && Next(r) !in r.live && Proper(Taken(r, v))
  {
    if v != Nil {
      TakenSize(r, v);
      var s := Taken(r, v);
      assert forall i: nat :: i in s.live ==> i == Next(r) || i in r.live;
      if r.free != [] {
        assert forall i: nat :: i in r.free <==> i == Next(r) || i in s.free;
      }
    } else if r.free != [] {
      assert r.free[0] in r.free;
    }
  }

  /** The references stay proper exactly if the one that is freed may be. */
  lemma FreedProper(r: Refs, ref: int)
    requires Proper(r)
    ensures Proper(Freed(r, ref)) <==> MayFree(r, ref)
  {
    hide Proper, Size;
    if ref >= 0 {
      var s := Freed(r, ref);
      FreedSize(r, ref);
      FreeRange(r);
      LiveRange(r);
      assert forall i: nat :: i in s.free <==> i == ref || i in r.free;
      if MayFree(r, ref) {
        FreedKept(r, ref);
      } else if Proper(s) {
        FreeRange(s);
        FreedAgain(r, ref);
      }
    }
  }

  lemma FreedKept(r: Refs, ref: nat)
    requires Proper(r) && MayFree(r, ref) && forall i: nat :: i in Freed(r, ref).free <==> i == ref || i in r.free
    requires Size(Freed(r, ref)) == if ref in r.live then Size(r) else Size(r) + 1
    ensures Proper(Freed(r, ref))
  {
    hide Size;
  }

  /** A reference that has not been handed out, or has been freed already. */
  lemma FreedAgain(r: Refs, ref: nat)
    requires Proper(r) && !MayFree(r, ref) && Size(Freed(r, ref)) == Size(r) + 1
    ensures !Proper(Freed(r, ref))
  {
    hide Size;
    var s := Freed(r, ref);
    assert s.free[0] == ref;
    if ref in r.free {
      var i :| 0 <= i < |r.free| && r.free[i] == ref;
      assert s.free[0] == s.free[i + 1];
    } else {
      assert ref in s.free;
    }
  }

  // ------------------------------------------------------------------ runs

  datatype Op = Take(v: Value) | Free(ref: int)

  function After(r: Refs, ops: seq<Op>): Refs
    decreases |ops|
  {
    if ops == [] then r
    else After(match ops[0] case Take(v) => Taken(r, v) case Free(ref) => Freed(r, ref), ops[1..])
  }

  /** Only what may be freed is freed. */
  ghost predicate Lawful(r: Refs, ops: seq<Op>)
    decreases |ops|
  {
    ops == [] || match ops[0]
    case Take(v) => Lawful(Taken(r, v), ops[1..])
    case Free(ref) => MayFree(r, ref) && Lawful(Freed(r, ref), ops[1..])
  }

  /** A reference keeps its value over every run that does not free it; every run leaves
      proper references, so that the next one handed out is not a live one. */
  lemma {:induction false} RunKeeps(r: Refs, ops: seq<Op>, ref: nat)
    requires Proper(r) && Lawful(r, ops)
    ensures var s := After(r, ops);
      Proper(s) && Next(s) !in s.live && (ref in r.live && Free(ref) !in ops ==> ref in s.live && s.live[ref] == r.live[ref])
    decreases |ops|
  {
    hide Proper, Size;
    if ops == [] {
      NextIsFresh(r, Nil);
    } else {
      match ops[0] {
        case Take(v) =>
          NextIsFresh(r, v);
          RunKeeps(Taken(r, v), ops[1..], ref);
        case Free(other) =>
          FreedProper(r, other);
          RunKeeps(Freed(r, other), ops[1..], ref);
      }
    }
  }

  // ------------------------------------------------------------------ the table

  /** The value of a slot leads to free reference number `i`, or ends the list. */
  predicate Leads(v: Value, free: seq<nat>, i: nat) {
    if i < |free| then v == Val(free[i]) else v == Nil || v == Val(0)
  }

  /** A value as an integer; what is no number counts as 0. */
  function ToInteger(v: Value): int {
    match v
    case Nil => 0
    case Val(i) => i
  }

  /** The list from slot 0 runs through the free slots, the last of which ends it. */
  ghost predicate Threaded(m: Key -> Value, free: seq<nat>) {
    && Leads(m(KInt(FREELIST_REF)), free, 0)
    && forall i :: 0 <= i < |free| ==> Leads(m(KInt(free[i])), free, i + 1)
  }

  ghost predicate Stored(m: Key -> Value, r: Refs) {
    && (forall i: nat :: i in r.live ==> m(KInt(i)) == r.live[i])
    && forall i: nat :: i > Size(r) ==> m(KInt(i)) == Nil
  }

  ghost predicate Kept(m: Key -> Value, r: Refs) {
    Proper(r) && Threaded(m, r.free) && Stored(m, r)
  }

  /** Without free slots the border of the table is the last reference. */
  lemma BorderIsSize(m: Key -> Value, r: Refs, n: nat)
    requires Kept(m, r) && r.free == []
    requires (n > 0 ==> m(KInt(n)) != Nil) && m(KInt(n + 1)) == Nil
    ensures n == Size(r)
  {
    assert n + 1 in r.live <==> n < Size(r);
  }

  // ------------------------------------------------------------------ the slots

  ghost predicate Same(m: Key -> Value, m': Key -> Value) {
    forall k: Key :: m(k) == m'(k)
  }

  ghost function With(m: Key -> Value, i: int, v: Value): Key -> Value {
    (k: Key) => if k == KInt(i) then v else m(k)
  }

  /** What `luaL_unref` makes of the slots: slot `ref` gets what slot 0 held, and slot 0 `ref`. */
  ghost function Unreffed(m: Key -> Value, ref: int): Key -> Value {
    if ref < 0 then m else With(With(m, ref, m(KInt(FREELIST_REF))), FREELIST_REF, Val(ref))
  }

  /** What `luaL_ref` makes of them: the slot that slot 0 leads to, or the one behind a border,
      gets the value; in the first case slot 0 gets what that slot held. */
  ghost predicate Reffed(m: Key -> Value, m': Key -> Value, v: Value, ref: int) {
    var head := ToInteger(m(KInt(FREELIST_REF)));
    if v == Nil then ref == LUA_REFNIL && Same(m, m')
    else if head != 0 then ref == head && Same(With(With(m, FREELIST_REF, m(KInt(head))), head, v), m')
    else ref > 0 && (ref > 1 ==> m(KInt(ref - 1)) != Nil) && m(KInt(ref)) == Nil && Same(With(m, ref, v), m')
  }

  /** If a reference is freed twice, whatever the table holds, then the next two values get that
      same reference, and the first of them is lost. */
  lemma FreedTwice(m: seq<Key -> Value>, ref: int, v: Value, w: Value, a: int, b: int)
    requires |m| == 5 && ref > 0 && v != Nil && w != Nil
    requires Same(Unreffed(m[0], ref), m[1]) && Same(Unreffed(m[1], ref), m[2])
    requires Reffed(m[2], m[3], v, a) && Reffed(m[3], m[4], w, b)
    ensures a == b == ref && m[4](KInt(ref)) == w
  {
    assert m[2](KInt(FREELIST_REF)) == m[2](KInt(ref)) == Val(ref);
    assert m[3](KInt(FREELIST_REF)) == Val(ref);
  }

  /** Slot 0 gets what slot `ref` held if the list is not empty, and slot `ref` gets `v`. */
  ghost predicate Took(m: Key -> Value, m': Key -> Value, r: Refs, v: Value) {
    && m'(KInt(Next(r))) == v
    && m'(KInt(FREELIST_REF)) == (if r.free != [] then m(KInt(Next(r))) else m(KInt(FREELIST_REF)))
    && forall k :: k != KInt(Next(r)) && k != KInt(FREELIST_REF) ==> m'(k) == m(k)
  }

  lemma ReffedTook(m: Key -> Value, m': Key -> Value, r: Refs, v: Value, ref: int)
    requires Kept(m, r) && v != Nil && Reffed(m, m', v, ref)
    ensures ref == Next(r) > 0 && Next(r) !in r.live && Took(m, m', r, v)
  {
    hide Proper, Stored, Size;
    NextIsFresh(r, v);
    if r.free != [] {
      assert Leads(m(KInt(FREELIST_REF)), r.free, 0);
    } else {
      BorderIsSize(m, r, ref - 1);
    }
  }

  lemma TakeThreads(m: Key -> Value, m': Key -> Value, r: Refs, v: Value)
    requires Kept(m, r) && v != Nil && Next(r) > 0 && Took(m, m', r, v)
    ensures Threaded(m', Taken(r, v).free)
  {
    hide Stored;
    var s := Taken(r, v);
    forall i | 0 <= i < |s.free| ensures Leads(m'(KInt(s.free[i])), s.free, i + 1) {
      assert s.free[i] == r.free[i + 1] && r.free[i + 1] in r.free && r.free[0] != r.free[i + 1];
      assert Leads(m(KInt(r.free[i + 1])), r.free, i + 2);
    }
  }

  lemma TakeStores(m: Key -> Value, m': Key -> Value, r: Refs, v: Value)
    requires Proper(r) && Stored(m, r) && v != Nil && Took(m, m', r, v)
    ensures Stored(m', Taken(r, v))
  {
    hide Proper, Size;
    TakenSize(r, v);
    LiveRange(r);
  }

  lemma FreeRange(r: Refs)
    requires Proper(r)
    ensures forall i: nat :: i in r.free ==> 1 <= i <= Size(r) && i !in r.live
  {
  }

  lemma LiveRange(r: Refs)
    requires Proper(r)
    ensures forall i: nat :: i in r.live ==> 1 <= i <= Size(r)
  {
  }

  lemma TakeKeeps(m: Key -> Value, m': Key -> Value, r: Refs, v: Value)
    requires Kept(m, r) && v != Nil && Next(r) > 0 && Took(m, m', r, v)
    ensures Kept(m', Taken(r, v))
  {
    hide Threaded, Stored, Proper;
    TakeThreads(m, m', r, v);
    NextIsFresh(r, v);
    TakeStores(m, m', r, v);
  }

  lemma FreeThreads(m: Key -> Value, m': Key -> Value, r: Refs, ref: nat)
    requires Kept(m, r) && MayFree(r, ref) && Same(Unreffed(m, ref), m')
    ensures Threaded(m', Freed(r, ref).free)
  {
    hide Proper, Stored, Size;
    var s := Freed(r, ref);
    FreeRange(r);
    LiveRange(r);
    forall i | 0 <= i < |s.free| ensures Leads(m'(KInt(s.free[i])), s.free, i + 1) {
      if i > 0 { assert s.free[i] == r.free[i - 1] && r.free[i - 1] in r.free && Leads(m(KInt(r.free[i - 1])), r.free, i); }
      assert i < |r.free| ==> s.free[i + 1] == r.free[i];
    }
  }

  lemma FreeKeeps(m: Key -> Value, m': Key -> Value, r: Refs, ref: nat)
    requires Kept(m, r) && MayFree(r, ref) && Same(Unreffed(m, ref), m')
    ensures Kept(m', Freed(r, ref))
  {
    hide Proper, Threaded, Size;
    FreedProper(r, ref);
    FreeThreads(m, m', r, ref);
    FreedSize(r, ref);
    LiveRange(r);
  }

  class Registry {
    const t: Table
    ghost var refs: Refs

    /** The table as a function. */
    ghost function Slots(): (m: Key -> Value)
      reads this, t, t.arr, t.node
      requires t.sizearray <= t.arr.Length
      ensures forall k: Key :: m(k) == t.At(k)
    {
      var a, ns := t.arr[..t.sizearray], t.node[..];
      (k: Key) => Lookup(a, ns, k)
    }

    ghost predicate Valid()
      reads this, t, t.arr, t.node, t.dummynode
    {
      t.Valid() && Kept(Slots(), refs)
    }

    /** A table without references. */
    constructor (t: Table)
      requires t.Valid() && forall i: nat :: t.At(KInt(i)) == Nil
      ensures Valid() && this.t == t && refs == Refs(map[], [])
    {
      this.t, refs := t, Refs(map[], []);
      new;
      assert forall i: nat :: Slots()(KInt(i)) == t.At(KInt(i));
    }

    /** Keys that are no references. */
    twostate predicate OthersKept()
      reads this, t, t.arr, t.node, t.dummynode
      requires old(t.Valid()) && t.Valid()
    {
      forall k: Key :: !(k.KInt? && k.i >= 0) ==> t.At(k) == old(t.At(k))
    }

    /** The part of `luaL_ref` for values other than nil. */
    method TakeSlot(v: Value) returns (st: Status, ref: int)
      requires t.Valid() && v != Nil
      modifies t, t.Owned()
      ensures st.Ok? || st.Overflow?
      ensures st.Ok? ==> t.Valid() && fresh(t.Owned() - old(t.Owned())) && Reffed(old(Slots()), Slots(), v, ref)
    {
      hide Lookup, Sane, Table.Blocked;
      var head := t.Index(KeyIndex(KInt(FREELIST_REF)));
      ref := ToInteger(head);
      if ref != 0 {
        var next := t.Index(KeyIndex(KInt(ref)));
        st := t.Put(KeyIndex(KInt(FREELIST_REF)), next);
        if !st.Ok? { return; }
      } else {
        ref := t.GetN();
        ref := ref + 1;
      }
      st := t.Put(KeyIndex(KInt(ref)), v);
    }

    /** `luaL_ref`, on any table; on proper references it takes the next one. */
    method Ref(v: Value) returns (st: Status, ref: int)
      requires t.Valid()
      modifies this, t, t.Owned()
      ensures st.Ok? || st.Overflow?
      ensures st.Ok? ==> t.Valid() && fresh(t.Owned() - old(t.Owned())) && Reffed(old(Slots()), Slots(), v, ref)
      ensures st.Ok? && old(Valid()) ==> Valid() && refs == Taken(old(refs), v) && OthersKept()
      ensures st.Ok? && old(Valid()) ==> ref == if v == Nil then LUA_REFNIL else Next(old(refs))
      ensures st.Ok? && old(Valid()) && v != Nil ==> ref > 0 && ref !in old(refs).live && t.At(KInt(ref)) == v
    {
      hide Kept, Lookup, Sane;
      if v == Nil { return Ok, LUA_REFNIL; }
      ghost var m, r, proper := Slots(), refs, Valid();
      st, ref := TakeSlot(v);
      if st.Ok? && proper {
        ReffedTook(m, Slots(), r, v, ref);
        TakeKeeps(m, Slots(), r, v);
        refs := Taken(r, v);
      }
    }

    /** `luaL_unref`, on any table; on proper references it frees one that may be freed. */
    method Unref(ref: int) returns (st: Status)
      requires t.Valid()
      modifies this, t, t.Owned()
      ensures st.Ok? || st.Overflow?
      ensures st.Ok? ==> t.Valid() && fresh(t.Owned() - old(t.Owned())) && Same(Unreffed(old(Slots()), ref), Slots())
      ensures st.Ok? && old(Valid() && MayFree(refs, ref)) ==> Valid() && refs == Freed(old(refs), ref) && OthersKept()
    {
      hide Kept, Lookup, Sane, MayFree, Table.Blocked;
      st := Ok;
      if ref >= 0 {
        ghost var m, r, proper := Slots(), refs, Valid() && MayFree(refs, ref);
        var head := t.Index(KeyIndex(KInt(FREELIST_REF)));
        st := t.Put(KeyIndex(KInt(ref)), head);
        if !st.Ok? { return; }
        st := t.Put(KeyIndex(KInt(FREELIST_REF)), Val(ref));
        if !st.Ok? { return; }
        if proper {
          FreeKeeps(m, Slots(), r, ref);
          refs := Freed(r, ref);
        }
      }
    }
  }
}
