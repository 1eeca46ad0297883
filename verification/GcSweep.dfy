/** What sweeping does: only condemned objects are freed, the lists stay exact, and
    everything behind the sweep pointers has the current white. */
module GcSweep {
  import opened Common
  import opened GcModel
  import opened GcInvariant

  /** `r` is `s` after some sweeping: only dead objects that are not fixed are gone,
      and a colour changes only to the current white. */
  ghost predicate SweepEffect(s: State, r: State) {
    && Coloured(s) && Coloured(r)
    && r == s.(heap := r.heap, marked := r.marked, rootgc := r.rootgc, strt := r.strt, open := r.open,
               uvhead := r.uvhead, sweepstr := r.sweepstr, sweepgc := r.sweepgc, phase := r.phase)
    && (forall id :: id in s.heap && Survives(s, id) ==> id in r.heap)
    && (forall id :: id in r.heap ==>
          && id in s.heap && r.heap[id].refs == s.heap[id].refs && r.heap[id].fixed == s.heap[id].fixed
          && (r.marked[id] == s.marked[id] || (r.marked[id] == White(s.white) && Survives(s, id))))
    && (forall id :: id in r.heap ==>
          r.heap[id].kind == s.heap[id].kind || (s.heap[id].kind.OpenUpval? && r.heap[id].kind.ClosedUpval?))
  }

  lemma SweepEffectTrans(a: State, b: State, c: State)
    requires SweepEffect(a, b) && SweepEffect(b, c)
    ensures SweepEffect(a, c)
  {
  }

  lemma SweepKeepsSafe(s: State, r: State)
    requires Coloured(s) && Shapes(s.heap, s.marked, s.main) && Safe(s) && SweepEffect(s, r)
    ensures Shapes(r.heap, r.marked, r.main) && Safe(r)
  {
    forall id, v | id in r.heap && Live(r, id) && v in r.heap[id].refs ensures Live(r, v) {
      assert Live(s, id);
      assert Live(s, v);
    }
    forall id | id in Roots(r) ensures Live(r, id) {
      assert id in Roots(s) && Live(s, id);
    }
  }

  // ---------------------------------------------------------------- strings

  /** One `GCSsweepstring` step: sweep the next bucket. */
  function SweepBucket(s: State): (r: State)
    requires Lists(s) && s.sweepstr < |s.strt|
  {
    var k := s.sweepstr;
    var (s1, kept) := SweepWhole(s, s.strt[k]);
    s1.(strt := s1.strt[k := kept], sweepstr := k + 1,
        phase := if k + 1 >= |s.strt| then Sweep else SweepString)
  }

  lemma SweepBucketEffect(s: State)
    requires Lists(s) && s.sweepstr < |s.strt|
    ensures SweepEffect(s, SweepBucket(s))
  {
    hide RootList, OpenLists, UpvalHead, NoDup, StringTable, SweepWhole;
    BucketDistinct(s);
    assert Swept(s, s.strt[s.sweepstr], SweepWhole(s, s.strt[s.sweepstr]).0, SweepWhole(s, s.strt[s.sweepstr]).1);
  }

  lemma BucketDistinct(s: State)
    requires Lists(s) && s.sweepstr < |s.strt|
    ensures var l := s.strt[s.sweepstr]; NoDup(l) && AllIn(l, s.heap)
  {
  }

  /** A bucket has lost some strings, and the heap the same ones. */
  lemma BucketTable(strt: seq<seq<Id>>, heap: Heap, k: nat, kept: seq<Id>, heap': Heap)
    requires StringTable(strt, heap) && k < |strt| && NoDup(kept) && forall id :: id in kept ==> id in strt[k]
    requires forall id :: id in heap' <==> id in heap && (id in strt[k] ==> id in kept)
    requires forall id :: id in heap' ==> heap'[id] == heap[id]
    ensures StringTable(strt[k := kept], heap')
  {
    hide NoDup;
    var out := strt[k := kept];
    forall b, id | 0 <= b < |out|
      ensures id in out[b] <==> id in heap' && heap'[id].kind.Str? && heap'[id].kind.hash % |out| == b
    {
      assert id in strt[b] <==> id in heap && heap[id].kind.Str? && heap[id].kind.hash % |strt| == b;
      assert id in strt[k] <==> id in heap && heap[id].kind.Str? && heap[id].kind.hash % |strt| == k;
    }
  }

  lemma SweepBucketTable(s: State)
    requires Lists(s) && s.sweepstr < |s.strt|
    ensures Coloured(SweepBucket(s)) && StringTable(SweepBucket(s).strt, SweepBucket(s).heap)
  {
    hide RootList, OpenLists, UpvalHead, NoDup, SweepWhole;
    BucketDistinct(s);
    var k := s.sweepstr;
    var (s1, kept) := SweepWhole(s, s.strt[k]);
    assert Swept(s, s.strt[k], s1, kept);
    BucketTable(s.strt, s.heap, k, kept, s1.heap);
  }

  /** Sweeping a list of other objects keeps the root list exact. */
  lemma SweptRootList(s: State, ids: seq<Id>, r: State, kept: seq<Id>)
    requires Coloured(s) && AllIn(ids, s.heap) && Swept(s, ids, r, kept) && RootList(s.rootgc, s.heap)
    requires forall id :: id in ids ==> !InRoot(s.heap[id].kind)
    ensures RootList(r.rootgc, r.heap)
  {
    hide NoDup;
    forall id ensures id in r.rootgc <==> id in r.heap && InRoot(r.heap[id].kind) {
      assert id in s.rootgc <==> id in s.heap && InRoot(s.heap[id].kind);
    }
  }

  /** Sweeping a list of strings keeps the lists of upvalues exact. */
  lemma SweptOpenLists(s: State, ids: seq<Id>, r: State, kept: seq<Id>)
    requires Coloured(s) && AllIn(ids, s.heap) && Swept(s, ids, r, kept) && OpenLists(s.open, s.heap) && UpvalHead(s.uvhead, s.heap)
    requires forall id :: id in ids ==> s.heap[id].kind.Str?
    ensures OpenLists(r.open, r.heap) && UpvalHead(r.uvhead, r.heap)
  {
    hide NoDup, OpenLists;
    OpenWithoutStrings(s.open, s.heap, r.heap);
  }

  lemma OpenWithoutStrings(open: map<Id, seq<Id>>, heap: Heap, heap': Heap)
    requires OpenLists(open, heap) && forall id :: id in heap' ==> id in heap && heap'[id] == heap[id]
    requires forall id :: id in heap && id !in heap' ==> heap[id].kind.Str?
    ensures OpenLists(open, heap')
  {
    hide NoDup;
    forall th, id | th in open ensures id in open[th] <==> id in heap' && heap'[id].kind == OpenUpval(th) {
      assert id in open[th] <==> id in heap && heap[id].kind == OpenUpval(th);
    }
  }

  lemma SweepBucketLists(s: State)
    requires Lists(s) && s.sweepstr < |s.strt|
    ensures Lists(SweepBucket(s))
  {
    SweepBucketTable(s);
    var k := s.sweepstr;
    var (s1, kept) := SweepWhole(s, s.strt[k]);
    assert forall id :: id in s.strt[k] ==> s.heap[id].kind.Str?;
    SweptRootList(s, s.strt[k], s1, kept);
    SweptOpenLists(s, s.strt[k], s1, kept);
  }

  lemma SweepBucketKeeps(s: State)
    requires Inv(s) && s.phase.SweepString?
    ensures Inv(SweepBucket(s))
  {
    SweepBucketLists(s);
    SweepBucketEffect(s);
    var r := SweepBucket(s);
    SweepKeepsSafe(s, r);
    forall id | id in r.heap && r.heap[id].kind.Str? && r.heap[id].kind.hash % |r.strt| < r.sweepstr
      ensures r.marked[id] == White(r.white)
    {
      assert id in s.strt[s.sweepstr] <==> r.heap[id].kind.hash % |s.strt| == s.sweepstr;
    }
  }

  // --------------------------------------------------------------- root list

  /** Closing all upvalues of a thread that was just swept: they become closed
      upvalues, in some order `front` before the root list. */
  ghost predicate ClosedAll(s: State, th: Id, r: State, front: seq<Id>)
    requires Coloured(s) && th in s.open
  {
    && Coloured(r)
    && r == s.(heap := r.heap, rootgc := front + s.rootgc, open := s.open[th := []], uvhead := r.uvhead,
               sweepgc := if s.sweepgc == 0 then 0 else s.sweepgc + |front|)
    && NoDup(front) && (forall id :: id in front <==> id in s.open[th])
    && (NoDup(s.uvhead) ==> NoDup(r.uvhead))
    && (forall id :: id in r.uvhead <==> id in s.uvhead && id !in s.open[th])
    && (forall id :: id in s.heap ==>
          r.heap[id] == if id in s.open[th] then s.heap[id].(kind := ClosedUpval) else s.heap[id])
  }

  lemma CloseFirstEffect(s: State, th: Id)
    requires Coloured(s) && !s.phase.Propagate?
    requires th in s.open && s.open[th] != [] && OpenList(s.heap, s.open[th])
    requires s.marked[s.open[th][0]] == White(s.white)
    ensures var uv := s.open[th][0];
      CloseFirst(s, th) ==
        s.(heap := s.heap[uv := s.heap[uv].(kind := ClosedUpval)], rootgc := [uv] + s.rootgc,
           open := s.open[th := s.open[th][1..]], uvhead := Without(s.uvhead, uv),
           sweepgc := if s.sweepgc == 0 then 0 else s.sweepgc + 1)
  {
  }

  lemma ClosedAllStep(s: State, th: Id, s1: State, r: State, rest: seq<Id>)
    requires Coloured(s) && !s.phase.Propagate?
    requires th in s.open && s.open[th] != [] && OpenList(s.heap, s.open[th])
    requires s.marked[s.open[th][0]] == White(s.white)
    requires s1 == CloseFirst(s, th)
    requires ClosedAll(s1, th, r, rest)
    ensures ClosedAll(s, th, r, rest + [s.open[th][0]])
  {
    var uvs := s.open[th];
    var uv := uvs[0];
    CloseFirstEffect(s, th);
    assert uv !in uvs[1..] && forall id :: id in uvs <==> id == uv || id in uvs[1..];
    NoDupConcat(rest, [uv]);
    assert rest + s1.rootgc == (rest + [uv]) + s.rootgc;
    assert s1.open[th := []] == s.open[th := []];
  }

  lemma {:induction false} CloseAllEffect(s: State, th: Id) returns (front: seq<Id>)
    requires Coloured(s) && !s.phase.Propagate?
    requires th in s.open && OpenList(s.heap, s.open[th])
    requires forall id :: id in s.open[th] ==> s.marked[id] == White(s.white)
    ensures ClosedAll(s, th, CloseAll(s, th), front)
    decreases |s.open[th]|
  {
    if s.open[th] != [] {
      CloseFirstEffect(s, th);
      var uv := s.open[th][0];
      assert uv !in s.open[th][1..];
      var rest := CloseAllEffect(CloseFirst(s, th), th);
      ClosedAllStep(s, th, CloseFirst(s, th), CloseAll(s, th), rest);
      front := rest + [uv];
    } else {
      front := [];
      assert s.open[th := []] == s.open && [] + s.rootgc == s.rootgc;
    }
  }

  /** Lists exact and shapes sound, outside the propagate phase. */
  ghost predicate Sweepable(s: State) {
    Lists(s) && Shapes(s.heap, s.marked, s.main) && !s.phase.Propagate?
  }

  lemma ThreadReady(s: State, th: Id)
    requires Lists(s) && Shapes(s.heap, s.marked, s.main) && th in s.heap && s.heap[th].kind.Thread?
    ensures th in s.open && OpenList(s.heap, s.open[th])
  {
    assert forall id :: id in s.open[th] ==> id in s.heap && s.heap[id].kind == OpenUpval(th);
  }

  lemma SweepReady(s: State)
    requires Sweepable(s) && s.sweepgc < |s.rootgc|
    ensures var id := s.rootgc[s.sweepgc];
      id in s.heap && (s.heap[id].kind.Thread? ==> id in s.open && OpenList(s.heap, s.open[id]))
  {
    var id := s.rootgc[s.sweepgc];
    assert id in s.rootgc;
    if s.heap[id].kind.Thread? { ThreadReady(s, id); }
  }

  /** `s1` is `s` after the open upvalues of `o`, the object at the sweep pointer,
      have been swept. */
  ghost predicate OpenSwept(s: State, o: Id, s1: State) {
    && SweepEffect(s, s1)
    && s1 == s.(heap := s1.heap, marked := s1.marked, open := s1.open, uvhead := s1.uvhead)
    && s1.open.Keys == s.open.Keys
    && o in s1.heap && s1.marked[o] == s.marked[o]
    && (o in s1.open ==> OpenList(s1.heap, s1.open[o]) && forall id :: id in s1.open[o] ==> InWhite(s1, id))
    && (forall id :: id in s1.heap ==> s1.heap[id] == s.heap[id] && (InWhite(s, id) ==> InWhite(s1, id)))
    && (forall th :: th in s1.open && th != o ==> s1.open[th] == s.open[th])
  }

  lemma SweepOpenEffect(s: State, th: Id)
    requires Lists(s) && Shapes(s.heap, s.marked, s.main) && th in s.heap && s.heap[th].kind.Thread?
    ensures th in s.open && OpenList(s.heap, s.open[th])
    ensures OpenSwept(s, th, SweepOpen(s, th))
  {
    hide Shapes, OpenLists, RootList, StringTable, UpvalHead, NoDup, RefsClosed, SweepWhole;
    ThreadReady(s, th);
    var (s1, kept) := SweepWhole(s, s.open[th]);
    assert Swept(s, s.open[th], s1, kept);
    var r := SweepOpen(s, th);
    assert r.open[th] == kept && th !in s.open[th];
    assert SweepEffect(s, r);
  }

  lemma SweepOpenLists(s: State, th: Id)
    requires Lists(s) && Shapes(s.heap, s.marked, s.main) && th in s.heap && s.heap[th].kind.Thread?
    requires th in s.open && OpenList(s.heap, s.open[th])
    ensures var r := SweepOpen(s, th);
      && OpenLists(r.open, r.heap) && UpvalHead(r.uvhead, r.heap)
      && (forall id :: id in s.heap && id !in r.heap ==> s.heap[id].kind.OpenUpval?)
  {
    hide OpenLists, RootList, StringTable, NoDup, SweepWhole, Shapes;
    var (s1, kept) := SweepWhole(s, s.open[th]);
    assert Swept(s, s.open[th], s1, kept);
    OpenListShrinks(s.open, s.heap, th, kept, s1.heap);
  }

  lemma OpenListShrinks(open: map<Id, seq<Id>>, heap: Heap, th: Id, kept: seq<Id>, heap': Heap)
    requires OpenLists(open, heap) && th in open && NoDup(kept)
    requires forall id :: id in heap' <==> id in heap && (id in open[th] ==> id in kept)
    requires forall id :: id in heap' ==> heap'[id] == heap[id]
    requires forall id :: id in kept ==> id in open[th]
    ensures OpenLists(open[th := kept], heap')
  {
    hide NoDup;
    var open' := open[th := kept];
    assert forall id :: id in open[th] <==> id in heap && heap[id].kind == OpenUpval(th);
    forall t, id | t in open'
      ensures id in open'[t] <==> id in heap' && heap'[id].kind == OpenUpval(t)
    {
      assert id in open[t] <==> id in heap && heap[id].kind == OpenUpval(t);
    }
  }

  /** Freeing some open upvalues touches neither the root list nor the string table. */
  lemma ShrinkLists(rootgc: seq<Id>, strt: seq<seq<Id>>, heap: Heap, heap': Heap)
    requires RootList(rootgc, heap) && StringTable(strt, heap)
    requires forall id :: id in heap' ==> id in heap && heap'[id] == heap[id]
    requires forall id :: id in heap && id !in heap' ==> heap[id].kind.OpenUpval?
    ensures RootList(rootgc, heap') && StringTable(strt, heap')
  {
    hide NoDup;
    forall b, id | 0 <= b < |strt|
      ensures id in strt[b] <==> id in heap' && heap'[id].kind.Str? && heap'[id].kind.hash % |strt| == b
    {
      assert id in strt[b] <==> id in heap && heap[id].kind.Str? && heap[id].kind.hash % |strt| == b;
    }
  }

  lemma ShapesShrink(heap: Heap, marked: map<Id, Colour>, main: Id, heap': Heap, marked': map<Id, Colour>)
    requires marked.Keys == heap.Keys && marked'.Keys == heap'.Keys
    requires Shapes(heap, marked, main) && main in heap'
    requires forall id :: id in heap' ==> id in heap && heap'[id] == heap[id]
    requires forall id :: id in heap' ==> marked'[id] == marked[id] || marked'[id].White?
    ensures Shapes(heap', marked', main)
  {
  }

  lemma SweepOpenKeepsLists(s: State, th: Id)
    requires Sweepable(s) && th in s.heap && s.heap[th].kind.Thread?
    ensures th in s.open && OpenList(s.heap, s.open[th])
    ensures Sweepable(SweepOpen(s, th))
  {
    SweepOpenEffect(s, th);
    SweepOpenLists(s, th);
    var r := SweepOpen(s, th);
    ShrinkLists(s.rootgc, s.strt, s.heap, r.heap);
    ShapesShrink(s.heap, s.marked, s.main, r.heap, r.marked);
    hide RootList, StringTable, OpenLists, NoDup, Shapes;
  }

  lemma SweepOpenSwept(s: State)
    requires Sweepable(s) && s.sweepgc < |s.rootgc|
    ensures var o := s.rootgc[s.sweepgc];
      && o in s.heap && (s.heap[o].kind.Thread? ==> o in s.open && OpenList(s.heap, s.open[o]))
      && OpenSwept(s, o, SweepOpen(s, o)) && Sweepable(SweepOpen(s, o))
  {
    SweepReady(s);
    var o := s.rootgc[s.sweepgc];
    if s.heap[o].kind.Thread? {
      SweepOpenEffect(s, o);
      SweepOpenKeepsLists(s, o);
      ThreadReady(SweepOpen(s, o), o);
      hide RootList, StringTable, UpvalHead, NoDup, Shapes;
    } else {
      assert o !in s.open;
    }
  }

  // ------------------------------------------------ one turn of `sweeplist`

  /** Sweeping the open upvalues of one object leaves what was swept before alone. */
  lemma OpenSweptKeepsWhite(s: State, o: Id, s1: State, prefix: seq<Id>)
    requires OpenSwept(s, o, s1)
    requires forall id :: id in prefix ==> InWhite(s, id)
    requires forall th, id :: th in prefix && th in s.open && id in s.open[th] ==> InWhite(s, id)
    ensures Coloured(s1) && forall id :: id in prefix ==> InWhite(s1, id)
    ensures forall th, id :: th in prefix + [o] && th in s1.open && id in s1.open[th] ==> InWhite(s1, id)
  {
    hide OpenList;
    forall id | id in s.heap && InWhite(s, id) ensures InWhite(s1, id) {
      assert Survives(s, id);
    }
    forall th, id | th in prefix + [o] && th in s1.open && id in s1.open[th] ensures InWhite(s1, id) {
      if th == o {
        assert o in s1.open && id in s1.open[o];
      } else {
        assert th in s.open && s1.open[th] == s.open[th];
        assert th in prefix && InWhite(s, id);
      }
    }
  }

  lemma SurvivorEffect(s: State, o: Id, s1: State, r: State)
    requires OpenSwept(s, o, s1) && Sweepable(s1) && Survives(s1, o)
    requires r == Paint(s1, o, White(s.white)).(sweepgc := s.sweepgc + 1)
    ensures Sweepable(r) && SweepEffect(s, r)
  {
    hide RootList, StringTable, OpenLists, UpvalHead, OpenList, Whites, Shapes;
    MainStays(s1);
    ShapesShrink(s1.heap, s1.marked, s1.main, r.heap, r.marked);
  }

  lemma SurvivorSwept(s: State, o: Id, s1: State, r: State)
    requires Coloured(s) && s.sweepgc < |s.rootgc| && o == s.rootgc[s.sweepgc]
    requires OpenSwept(s, o, s1) && RootsSwept(s)
    requires r == Paint(s1, o, White(s.white)).(sweepgc := s.sweepgc + 1)
    ensures RootsSwept(r)
  {
    hide OpenList;
    var prefix := s.rootgc[..s.sweepgc];
    assert r.rootgc[..r.sweepgc] == prefix + [o];
    OpenSweptKeepsWhite(s, o, s1, prefix);
    forall id | id in prefix + [o] ensures InWhite(r, id) {}
    forall th, id | th in prefix + [o] && th in r.open && id in r.open[th] ensures InWhite(r, id) {
      assert th in s1.open && id in s1.open[th] && InWhite(s1, id);
    }
  }

  lemma RootRemove(rootgc: seq<Id>, heap: Heap, p: nat)
    requires RootList(rootgc, heap) && p < |rootgc|
    ensures RootList(rootgc[..p] + rootgc[p + 1..], heap - {rootgc[p]})
  {
    var out := rootgc[..p] + rootgc[p + 1..];
    forall id ensures id in out <==> id in rootgc && id != rootgc[p] {
      if id in rootgc && id != rootgc[p] {
        var k :| 0 <= k < |rootgc| && rootgc[k] == id;
        assert out[if k < p then k else k - 1] == id;
      }
    }
  }

  /** Freeing an object of the root list that is not a thread. */
  lemma FreeOther(s: State, o: Id, rootgc: seq<Id>)
    requires Sweepable(s) && o in s.heap && InRoot(s.heap[o].kind) && !s.heap[o].kind.Thread? && !s.heap[o].fixed
    requires RootList(rootgc, s.heap - {o})
    ensures Sweepable(FreeRoot(s.(rootgc := rootgc), o))
  {
    hide NoDup, RootList, OpenList, StringTable, Shapes;
    var r := FreeRoot(s.(rootgc := rootgc), o);
    MainStays(s);
    ShapesShrink(s.heap, s.marked, s.main, r.heap, r.marked);
    TableWithout(s.strt, s.heap, o);
  }

  lemma MainStays(s: State)
    requires Sweepable(s)
    ensures s.main in s.heap && s.heap[s.main].kind.Thread?
  {
  }

  lemma TableWithout(strt: seq<seq<Id>>, heap: Heap, o: Id)
    requires StringTable(strt, heap) && o in heap && !heap[o].kind.Str?
    ensures StringTable(strt, heap - {o})
  {
    hide NoDup;
    var heap' := heap - {o};
    forall b, id | 0 <= b < |strt|
      ensures id in strt[b] <==> id in heap' && heap'[id].kind.Str? && heap'[id].kind.hash % |strt| == b
    {
      assert id in strt[b] <==> id in heap && heap[id].kind.Str? && heap[id].kind.hash % |strt| == b;
    }
  }

  /** The heap after thread `th` was freed: its upvalues `uvs` are closed. */
  function ClosedHeap(heap: Heap, th: Id, uvs: seq<Id>): Heap {
    map id | id in heap && id != th :: if id in uvs then heap[id].(kind := ClosedUpval) else heap[id]
  }

  lemma ClosedRootList(rootgc: seq<Id>, heap: Heap, th: Id, uvs: seq<Id>, front: seq<Id>)
    requires RootList(rootgc, heap - {th}) && NoDup(front) && th in heap && th !in uvs
    requires forall id :: id in uvs ==> id in heap && heap[id].kind.OpenUpval?
    requires forall id :: id in front <==> id in uvs
    ensures RootList(front + rootgc, ClosedHeap(heap, th, uvs))
  {
    NoDupConcat(front, rootgc);
    hide NoDup;
    forall id ensures id in front + rootgc <==>
        id in ClosedHeap(heap, th, uvs) && InRoot(ClosedHeap(heap, th, uvs)[id].kind)
    {
      assert id in rootgc <==> id in heap - {th} && InRoot((heap - {th})[id].kind);
    }
  }

  lemma ClosedTable(strt: seq<seq<Id>>, heap: Heap, th: Id, uvs: seq<Id>)
    requires StringTable(strt, heap) && th in heap && heap[th].kind.Thread?
    requires forall id :: id in uvs ==> id in heap && heap[id].kind.OpenUpval?
    ensures StringTable(strt, ClosedHeap(heap, th, uvs))
  {
    hide NoDup;
    var h := ClosedHeap(heap, th, uvs);
    forall b, id | 0 <= b < |strt|
      ensures id in strt[b] <==> id in h && h[id].kind.Str? && h[id].kind.hash % |strt| == b
    {
      assert id in strt[b] <==> id in heap && heap[id].kind.Str? && heap[id].kind.hash % |strt| == b;
    }
  }

  lemma ClosedOpenLists(open: map<Id, seq<Id>>, heap: Heap, th: Id)
    requires OpenLists(open, heap) && th in open
    ensures OpenLists(open - {th}, ClosedHeap(heap, th, open[th]))
  {
    hide NoDup;
    var h := ClosedHeap(heap, th, open[th]);
    forall t, id | t in open - {th}
      ensures id in (open - {th})[t] <==> id in h && h[id].kind == OpenUpval(t)
    {
      assert id in open[t] <==> id in heap && heap[id].kind == OpenUpval(t);
      assert id in open[th] <==> id in heap && heap[id].kind == OpenUpval(th);
    }
    forall id | id in h && h[id].kind.OpenUpval? ensures h[id].kind.thread in open - {th} {
      assert id !in open[th];
      assert id in open[th] <==> id in heap && heap[id].kind == OpenUpval(th);
    }
  }

  lemma ClosedUpvalHead(uvhead: seq<Id>, heap: Heap, th: Id, uvs: seq<Id>, uvhead': seq<Id>)
    requires UpvalHead(uvhead, heap) && NoDup(uvhead') && th in heap && heap[th].kind.Thread?
    requires forall id :: id in uvhead' <==> id in uvhead && id !in uvs
    ensures UpvalHead(Without(uvhead', th), ClosedHeap(heap, th, uvs))
  {
    hide NoDup;
  }

  lemma ClosedShapes(heap: Heap, marked: map<Id, Colour>, main: Id, th: Id, uvs: seq<Id>)
    requires marked.Keys == heap.Keys && Shapes(heap, marked, main)
    requires th in heap && th != main
    requires forall id :: id in uvs ==> id in heap && heap[id].kind.OpenUpval?
    requires main !in uvs
    ensures Shapes(ClosedHeap(heap, th, uvs), marked - {th}, main)
  {
  }

  /** The fields after a thread of the root list was freed. */
  ghost predicate ThreadFreed(s: State, th: Id, rootgc: seq<Id>, r: State, front: seq<Id>)
    requires Coloured(s) && th in s.open
  {
    && r == s.(heap := ClosedHeap(s.heap, th, s.open[th]), marked := s.marked - {th}, rootgc := front + rootgc,
               open := s.open - {th}, uvhead := r.uvhead,
               sweepgc := if s.sweepgc == 0 then 0 else s.sweepgc + |front|)
    && (forall id :: id in front <==> id in s.open[th])
    && Sweepable(r)
  }

  lemma FreeThreadFields(s: State, th: Id, rootgc: seq<Id>) returns (front: seq<Id>, uvhead: seq<Id>)
    requires Coloured(s) && !s.phase.Propagate? && NoDup(s.uvhead)
    requires th in s.heap && s.heap[th].kind.Thread? && th in s.open && OpenList(s.heap, s.open[th])
    requires forall id :: id in s.open[th] ==> s.marked[id] == White(s.white)
    ensures FreeRoot(s.(rootgc := rootgc), th) ==
      s.(heap := ClosedHeap(s.heap, th, s.open[th]), marked := s.marked - {th}, rootgc := front + rootgc,
         open := s.open - {th}, uvhead := Without(uvhead, th),
         sweepgc := if s.sweepgc == 0 then 0 else s.sweepgc + |front|)
    ensures NoDup(front) && forall id :: id in front <==> id in s.open[th]
    ensures NoDup(uvhead) && forall id :: id in uvhead <==> id in s.uvhead && id !in s.open[th]
  {
    hide NoDup;
    var s2 := s.(rootgc := rootgc);
    front := CloseAllEffect(s2, th);
    var s3 := CloseAll(s2, th);
    uvhead := s3.uvhead;
    assert s3.heap - {th} == ClosedHeap(s.heap, th, s.open[th]);
    assert s.open[th := []] - {th} == s.open - {th};
  }

  lemma ClosedParts(s: State, th: Id, rootgc: seq<Id>, front: seq<Id>, uvhead: seq<Id>)
    requires Sweepable(s)
    requires th in s.heap && s.heap[th].kind.Thread? && !s.heap[th].fixed && th in s.open && OpenList(s.heap, s.open[th])
    requires RootList(rootgc, s.heap - {th})
    requires NoDup(front) && forall id :: id in front <==> id in s.open[th]
    requires NoDup(uvhead) && forall id :: id in uvhead <==> id in s.uvhead && id !in s.open[th]
    ensures var heap := ClosedHeap(s.heap, th, s.open[th]);
      && RootList(front + rootgc, heap) && StringTable(s.strt, heap) && OpenLists(s.open - {th}, heap)
      && UpvalHead(Without(uvhead, th), heap) && Shapes(heap, s.marked - {th}, s.main)
  {
    assert th != s.main && s.heap[s.main].kind.Thread?;
    hide RootList, StringTable, OpenLists, UpvalHead, NoDup, Shapes;
    ClosedRootList(rootgc, s.heap, th, s.open[th], front);
    ClosedTable(s.strt, s.heap, th, s.open[th]);
    ClosedOpenLists(s.open, s.heap, th);
    ClosedUpvalHead(s.uvhead, s.heap, th, s.open[th], uvhead);
    ClosedShapes(s.heap, s.marked, s.main, th, s.open[th]);
  }

  lemma FreeThread(s: State, th: Id, rootgc: seq<Id>) returns (front: seq<Id>)
    requires Sweepable(s)
    requires th in s.heap && s.heap[th].kind.Thread? && !s.heap[th].fixed && th in s.open && OpenList(s.heap, s.open[th])
    requires forall id :: id in s.open[th] ==> InWhite(s, id)
    requires RootList(rootgc, s.heap - {th})
    ensures ThreadFreed(s, th, rootgc, FreeRoot(s.(rootgc := rootgc), th), front)
  {
    hide RootList, StringTable, OpenLists, NoDup, Shapes, OpenList;
    var uvhead;
    front, uvhead := FreeThreadFields(s, th, rootgc);
    ClosedParts(s, th, rootgc, front, uvhead);
    hide UpvalHead;
  }

  lemma OtherFreedTurn(s: State, o: Id, s1: State, r: State)
    requires Coloured(s) && s.sweepgc < |s.rootgc| && o == s.rootgc[s.sweepgc] && NoDup(s.rootgc)
    requires OpenSwept(s, o, s1) && !Survives(s1, o) && o !in s1.open
    requires r == Free(s1.(rootgc := s.rootgc[..s.sweepgc] + s.rootgc[s.sweepgc + 1..]), o)
    ensures SweepEffect(s, r) && (RootsSwept(s) ==> RootsSwept(r))
  {
    hide OpenList;
    var prefix := s.rootgc[..s.sweepgc];
    assert r.rootgc[..r.sweepgc] == prefix && o !in prefix;
    if RootsSwept(s) {
      OpenSweptKeepsWhite(s, o, s1, prefix);
      forall id | id in prefix ensures InWhite(r, id) { assert InWhite(s1, id); }
      forall th, id | th in prefix && th in r.open && id in r.open[th] ensures InWhite(r, id) {
        assert th in prefix + [o] && InWhite(s1, id);
      }
    }
  }

  lemma ThreadFreedEffect(s: State, o: Id, s1: State, r: State, rootgc: seq<Id>, front: seq<Id>)
    requires Coloured(s) && OpenSwept(s, o, s1) && !Survives(s1, o) && o in s1.open
    requires ThreadFreed(s1, o, rootgc, r, front)
    ensures SweepEffect(s, r)
  {
    hide Sweepable, NoDup, OpenList;
    FreedEffect(s1, o, r, rootgc, front);
    OpenThenFreed(s, o, s1, r);
  }

  /** Condemned objects may go, and nothing else changes but the kinds of closed upvalues. */
  ghost predicate FreeEffect(s: State, o: Id, r: State) {
    && Coloured(s) && Coloured(r)
    && r == s.(heap := r.heap, marked := r.marked, rootgc := r.rootgc, open := r.open, uvhead := r.uvhead, sweepgc := r.sweepgc)
    && (forall id :: id in s.heap && id != o ==> id in r.heap)
    && (forall id :: id in r.heap ==>
          && id in s.heap && r.heap[id].refs == s.heap[id].refs && r.heap[id].fixed == s.heap[id].fixed && r.marked[id] == s.marked[id]
          && (r.heap[id].kind == s.heap[id].kind || (s.heap[id].kind.OpenUpval? && r.heap[id].kind.ClosedUpval?)))
  }

  lemma FreedEffect(s: State, o: Id, r: State, rootgc: seq<Id>, front: seq<Id>)
    requires Coloured(s) && o in s.open && OpenList(s.heap, s.open[o]) && ThreadFreed(s, o, rootgc, r, front)
    ensures FreeEffect(s, o, r)
  {
    hide NoDup, RootList, StringTable, OpenLists, UpvalHead, Shapes;
  }

  lemma OpenThenFreed(s: State, o: Id, s1: State, r: State)
    requires OpenSwept(s, o, s1) && !Survives(s1, o) && FreeEffect(s1, o, r)
    ensures SweepEffect(s, r)
  {
    hide OpenList;
  }

  lemma FreedKeepsWhite(s: State, o: Id, rootgc: seq<Id>, r: State, front: seq<Id>, prefix: seq<Id>)
    requires Coloured(s) && o in s.open && ThreadFreed(s, o, rootgc, r, front) && o !in prefix
    requires forall th, id :: th in s.open && id in s.open[th] ==> id !in s.open
    requires forall id :: id in prefix ==> InWhite(s, id)
    requires forall th, id :: th in prefix + [o] && th in s.open && id in s.open[th] ==> InWhite(s, id)
    ensures Coloured(r)
    ensures forall id :: id in front + prefix ==> InWhite(r, id)
    ensures forall th, id :: th in front + prefix && th in r.open && id in r.open[th] ==> InWhite(r, id)
  {
    assert Coloured(r);
    hide Sweepable;
    assert o !in s.open[o] && o in prefix + [o];
    forall id | id in front + prefix ensures InWhite(r, id) {
      assert id in front ==> id in s.open[o] && InWhite(s, id);
    }
    forall th, id | th in front + prefix && th in r.open && id in r.open[th] ensures InWhite(r, id) {
      assert th in s.open && id in s.open[th] && th !in front;
      assert th in prefix + [o] && InWhite(s, id) && id != o;
    }
  }

  lemma NotBefore(ids: seq<Id>, i: nat)
    requires NoDup(ids) && i < |ids|
    ensures ids[i] !in ids[..i]
  {
  }

  lemma ThreadFreedSwept(s: State, o: Id, s1: State, r: State, front: seq<Id>)
    requires Coloured(s) && s.sweepgc < |s.rootgc| && o == s.rootgc[s.sweepgc] && NoDup(s.rootgc)
    requires OpenSwept(s, o, s1) && o in s1.open
    requires forall th, id :: th in s1.open && id in s1.open[th] ==> id !in s1.open
    requires ThreadFreed(s1, o, s.rootgc[..s.sweepgc] + s.rootgc[s.sweepgc + 1..], r, front)
    requires RootsSwept(s)
    ensures Coloured(r) && RootsSwept(r)
  {
    hide Sweepable, SweepEffect, OpenList, NoDup, ClosedHeap, InWhite;
    var rootgc := s.rootgc[..s.sweepgc] + s.rootgc[s.sweepgc + 1..];
    var prefix := s.rootgc[..s.sweepgc];
    NotBefore(s.rootgc, s.sweepgc);
    OpenSweptKeepsWhite(s, o, s1, prefix);
    FreedKeepsWhite(s1, o, rootgc, r, front, prefix);
    assert r.rootgc[..r.sweepgc] == if s.sweepgc == 0 then [] else front + prefix;
  }

  /** What one turn promises besides exact lists. */
  ghost predicate Turn(s: State, r: State)
    requires Coloured(s)
  {
    && SweepEffect(s, r) && (RootsSwept(s) ==> RootsSwept(r))
    && r.strt == s.strt && r.sweepstr == s.sweepstr && r.phase == s.phase
    && (r.open.Keys < s.open.Keys ||
        (r.open.Keys == s.open.Keys && |r.rootgc| - r.sweepgc < |s.rootgc| - s.sweepgc))
  }

  lemma ThreadFreedTurn(s: State, o: Id, s1: State, r: State, front: seq<Id>)
    requires Coloured(s) && s.sweepgc < |s.rootgc| && o == s.rootgc[s.sweepgc] && NoDup(s.rootgc)
    requires OpenSwept(s, o, s1) && !Survives(s1, o) && o in s1.open
    requires forall th, id :: th in s1.open && id in s1.open[th] ==> id !in s1.open
    requires ThreadFreed(s1, o, s.rootgc[..s.sweepgc] + s.rootgc[s.sweepgc + 1..], r, front)
    ensures Turn(s, r)
  {
    hide Sweepable, NoDup, RootsSwept;
    ThreadFreedEffect(s, o, s1, r, s.rootgc[..s.sweepgc] + s.rootgc[s.sweepgc + 1..], front);
    hide SweepEffect;
    if RootsSwept(s) { ThreadFreedSwept(s, o, s1, r, front); }
    assert o in s.open.Keys && o !in r.open.Keys;
  }

  /** Threads are not open upvalues. */
  lemma ThreadsApart(s: State)
    requires Lists(s)
    ensures forall th, id :: th in s.open && id in s.open[th] ==> id !in s.open
  {
    hide NoDup;
    assert forall th, id :: th in s.open && id in s.open[th] ==> s.heap[id].kind == OpenUpval(th);
  }

  lemma ThreadTurn(s: State, o: Id, s1: State)
    requires Sweepable(s) && s.sweepgc < |s.rootgc| && o == s.rootgc[s.sweepgc] && Sweepable(s1)
    requires OpenSwept(s, o, s1) && !Survives(s1, o) && s1.heap[o].kind.Thread? && o in s1.open
    ensures var r := FreeRoot(s1.(rootgc := s.rootgc[..s.sweepgc] + s.rootgc[s.sweepgc + 1..]), o);
      Sweepable(r) && Turn(s, r)
  {
    assert NoDup(s.rootgc) && s1.rootgc == s.rootgc && s1.sweepgc == s.sweepgc;
    hide StringTable, OpenLists, UpvalHead, NoDup, Shapes, RootsSwept, Turn;
    RootRemove(s1.rootgc, s1.heap, s.sweepgc);
    ThreadsApart(s1);
    hide RootList;
    var rootgc := s.rootgc[..s.sweepgc] + s.rootgc[s.sweepgc + 1..];
    var front := FreeThread(s1, o, rootgc);
    ThreadFreedTurn(s, o, s1, FreeRoot(s1.(rootgc := rootgc), o), front);
  }

  lemma SurvivorTurn(s: State, o: Id, s1: State, r: State)
    requires Coloured(s) && s.sweepgc < |s.rootgc| && o == s.rootgc[s.sweepgc]
    requires OpenSwept(s, o, s1) && Sweepable(s1) && Survives(s1, o)
    requires r == Paint(s1, o, White(s.white)).(sweepgc := s.sweepgc + 1)
    ensures Sweepable(r) && Turn(s, r)
  {
    hide Sweepable, SweepEffect, RootsSwept, OpenList;
    SurvivorEffect(s, o, s1, r);
    if RootsSwept(s) { SurvivorSwept(s, o, s1, r); }
  }

  lemma OtherTurn(s: State, o: Id, s1: State)
    requires Sweepable(s) && s.sweepgc < |s.rootgc| && o == s.rootgc[s.sweepgc] && Sweepable(s1)
    requires OpenSwept(s, o, s1) && !Survives(s1, o) && !s1.heap[o].kind.Thread? && InRoot(s1.heap[o].kind)
    ensures var r := FreeRoot(s1.(rootgc := s.rootgc[..s.sweepgc] + s.rootgc[s.sweepgc + 1..]), o);
      Sweepable(r) && Turn(s, r)
  {
    var rootgc := s.rootgc[..s.sweepgc] + s.rootgc[s.sweepgc + 1..];
    RootRemove(s1.rootgc, s1.heap, s.sweepgc);
    assert NoDup(s.rootgc) && o !in s1.open;
    hide RootList, StringTable, OpenLists, UpvalHead, NoDup, Shapes;
    FreeOther(s1, o, rootgc);
    OtherFreedTurn(s, o, s1, FreeRoot(s1.(rootgc := rootgc), o));
  }

  /** One turn of `sweeplist` frees at most the object at the pointer and open
      upvalues, all condemned; the lists stay exact and the turn makes progress. */
  lemma RootAt(s: State)
    requires Sweepable(s) && s.sweepgc < |s.rootgc|
    ensures var o := s.rootgc[s.sweepgc]; o in s.heap && InRoot(s.heap[o].kind)
  {
    assert s.rootgc[s.sweepgc] in s.rootgc;
  }

  lemma SweepOneKeeps(s: State)
    requires Sweepable(s) && s.sweepgc < |s.rootgc|
    ensures var o := s.rootgc[s.sweepgc];
      o in s.heap && (s.heap[o].kind.Thread? ==> o in s.open && OpenList(s.heap, s.open[o]))
    ensures Sweepable(SweepOne(s)) && Turn(s, SweepOne(s))
  {
    hide RootList, StringTable, UpvalHead, NoDup, Shapes, SweepOpen, FreeRoot, OpenList, RootsSwept, Turn;
    var o := s.rootgc[s.sweepgc];
    RootAt(s);
    SweepOpenSwept(s);
    var s1 := SweepOpen(s, o);
    if Survives(s1, o) {
      SurvivorTurn(s, o, s1, SweepOne(s));
    } else if s.heap[o].kind.Thread? {
      ThreadTurn(s, o, s1);
    } else {
      OtherTurn(s, o, s1);
    }
  }
}
