/** New objects, strings and upvalues found again, and upvalues closed: these keep
    the collector's invariant whatever the phase. */
module GcAlloc {
  import opened Common
  import opened GcModel
  import opened GcMark
  import opened GcInvariant
  import opened GcProgram

  /** `r` is `s` with the new white object `id`, put on some list. */
  ghost predicate Added(s: State, id: Id, o: Object, r: State) {
    && Coloured(s) && Coloured(r) && id !in s.heap
    && r == s.(heap := s.heap[id := o], marked := s.marked[id := White(s.white)], rootgc := r.rootgc,
               strt := r.strt, open := r.open, uvhead := r.uvhead, sweepgc := r.sweepgc)
    && |r.strt| == |s.strt|
    && (forall v :: v in o.refs ==> Live(s, v))
    && (o.kind.Str? ==> o.refs == []) && (o.fixed ==> o.kind.Str?)
    && (o.kind.OpenUpval? || o.kind.ClosedUpval? ==> |o.refs| <= 1)
  }

  lemma AddedSafe(s: State, id: Id, o: Object, r: State)
    requires Inv(s) && Added(s, id, o, r)
    ensures Shapes(r.heap, r.marked, r.main) && Safe(r)
  {
    hide RootList, StringTable, OpenLists, UpvalHead, PhaseInv;
    forall x, v | x in r.heap && Live(r, x) && v in r.heap[x].refs ensures Live(r, v) {
      if x != id { assert Live(s, x); }
      assert Live(s, v);
    }
    forall x | x in Roots(r) ensures Live(r, x) { assert x in Roots(s) && Live(s, x); }
  }

  lemma AddedTri(s: State, id: Id, o: Object, r: State)
    requires Inv(s) && s.phase.Propagate? && Added(s, id, o, r)
    ensures Tri(r, Incremental)
  {
    hide RootList, StringTable, OpenLists, UpvalHead, NoDup, Safe;
    forall x, v | x in r.heap && v in r.heap[x].refs ensures v in r.heap {
      if x == id { assert Live(s, v); } else { assert v in s.heap; }
    }
    forall x | x in r.heap && !IsWhite(r, x) ensures Shaded(r, Incremental, x) {
      assert Shaded(s, Incremental, x);
    }
  }

  /** The invariant of a phase after an allocation. */
  lemma AddedKeeps(s: State, id: Id, o: Object, r: State)
    requires Inv(s) && Added(s, id, o, r) && Lists(r)
    requires s.phase.SweepString? ==> r.sweepgc == 0
    requires s.phase.Sweep? ==> RootsSwept(r)
    ensures Inv(r)
  {
    hide RootList, StringTable, OpenLists, UpvalHead, NoDup, Safe, Shapes, RootsSwept, Tri, RefsClosed;
    AddedSafe(s, id, o, r);
    if s.phase.Propagate? { AddedTri(s, id, o, r); }
  }

  // ------------------------------------------------ the lists, one by one

  lemma AddRoot(rootgc: seq<Id>, heap: Heap, id: Id, o: Object, a: seq<Id>, b: seq<Id>)
    requires RootList(rootgc, heap) && id !in heap && InRoot(o.kind) && rootgc == a + b
    ensures RootList(a + [id] + b, heap[id := o])
  {
    var out := a + [id] + b;
    forall i, j | 0 <= i < j < |out| ensures out[i] != out[j] {
      assert forall k :: 0 <= k < |out| && k != |a| ==> out[k] == rootgc[if k < |a| then k else k - 1];
      assert forall x :: x in rootgc ==> x != id;
    }
    assert forall x :: x in out <==> x == id || x in rootgc;
  }

  lemma AddElsewhere(s: State, id: Id, o: Object)
    requires Lists(s) && id !in s.heap
    ensures !InRoot(o.kind) ==> RootList(s.rootgc, s.heap[id := o])
    ensures !o.kind.Str? ==> StringTable(s.strt, s.heap[id := o])
    ensures !o.kind.OpenUpval? ==> UpvalHead(s.uvhead, s.heap[id := o])
    ensures !o.kind.OpenUpval? && !o.kind.Thread? ==> OpenLists(s.open, s.heap[id := o])
    ensures o.kind.Thread? ==> OpenLists(s.open[id := []], s.heap[id := o])
  {
    AddToTable(s.strt, s.heap, id, o);
    if !o.kind.OpenUpval? { AddToOpen(s.open, s.heap, id, o); }
    hide StringTable, OpenLists, NoDup;
  }

  lemma AddToTable(strt: seq<seq<Id>>, heap: Heap, id: Id, o: Object)
    requires StringTable(strt, heap) && id !in heap
    ensures !o.kind.Str? ==> StringTable(strt, heap[id := o])
  {
    hide NoDup;
    var h := heap[id := o];
    if !o.kind.Str? {
      forall b, x | 0 <= b < |strt|
        ensures x in strt[b] <==> x in h && h[x].kind.Str? && h[x].kind.hash % |strt| == b
      {
        assert x in strt[b] <==> x in heap && heap[x].kind.Str? && heap[x].kind.hash % |strt| == b;
      }
    }
  }

  lemma AddToOpen(open: map<Id, seq<Id>>, heap: Heap, id: Id, o: Object)
    requires OpenLists(open, heap) && id !in heap && !o.kind.OpenUpval?
    ensures !o.kind.Thread? ==> OpenLists(open, heap[id := o])
    ensures o.kind.Thread? ==> OpenLists(open[id := []], heap[id := o])
  {
    hide NoDup;
    var h := heap[id := o];
    var open' := if o.kind.Thread? then open[id := []] else open;
    assert id !in open;
    forall th, x | th in open' ensures x in open'[th] <==> x in h && h[x].kind == OpenUpval(th) {
      if th != id { assert x in open[th] <==> x in heap && heap[x].kind == OpenUpval(th); }
    }
    forall th | th in open' ensures NoDup(open'[th]) { NoDupEmpty(); }
  }

  lemma NoDupEmpty()
    ensures NoDup([])
  {
  }

  /** Whiteness behind the sweep pointer when an object joins the prefix or not. */
  lemma AddedSwept(s: State, id: Id, o: Object, r: State)
    requires Inv(s) && RootsSwept(s) && Added(s, id, o, r)
    requires r.sweepgc <= |r.rootgc|
    requires forall x :: x in r.rootgc[..r.sweepgc] ==> x == id || x in s.rootgc[..s.sweepgc]
    requires forall th, x :: th in r.open && x in r.open[th] ==> x == id || (th in s.open && x in s.open[th])
    ensures RootsSwept(r)
  {
    hide RootList, StringTable, UpvalHead, NoDup, PhaseInv, Safe, Shapes;
    forall x | x in r.rootgc[..r.sweepgc] ensures InWhite(r, x) {
      if x != id { assert InWhite(s, x); }
    }
    forall th, x | th in r.rootgc[..r.sweepgc] && th in r.open && x in r.open[th] ensures InWhite(r, x) {
      if x != id {
        assert th in s.open && x in s.open[th];
        assert th != id;
        assert InWhite(s, x);
      }
    }
  }

  // ------------------------------------------------------------ allocations

  /** A new object of the root list, and for a thread its empty upvalue list. */
  function Create(s: State, id: Id, kind: Kind, refs: seq<Id>): State {
    var s1 := Link(Allocate(s, id, Object(kind, false, refs)), id);
    if kind.Thread? then s1.(open := s1.open[id := []]) else s1
  }

  lemma CreateKeeps(s: State, id: Id, kind: Kind, refs: seq<Id>)
    requires Inv(s) && id !in s.heap && Linkable(kind) && (kind.ClosedUpval? ==> |refs| <= 1)
    requires forall v :: v in refs ==> Live(s, v)
    ensures Inv(Create(s, id, kind, refs))
  {
    hide PhaseInv, Shapes, Safe, StringTable, OpenLists, UpvalHead, NoDup, RefsClosed;
    var o := Object(kind, false, refs);
    var r := Create(s, id, kind, refs);
    assert s.rootgc == [] + s.rootgc && [id] + s.rootgc == [] + [id] + s.rootgc;
    AddRoot(s.rootgc, s.heap, id, o, [], s.rootgc);
    AddElsewhere(s, id, o);
    assert Added(s, id, o, r);
    CreatePhase(s, id, kind, refs);
    AddedKeeps(s, id, o, r);
  }

  lemma CreatePhase(s: State, id: Id, kind: Kind, refs: seq<Id>)
    requires Inv(s) && id !in s.heap && Added(s, id, Object(kind, false, refs), Create(s, id, kind, refs))
    ensures var r := Create(s, id, kind, refs);
      (s.phase.SweepString? ==> r.sweepgc == 0) && (s.phase.Sweep? ==> RootsSwept(r))
  {
    hide Shapes, Safe, StringTable, RootList, UpvalHead, NoDup, RefsClosed;
    var r := Create(s, id, kind, refs);
    if s.phase.Sweep? {
      assert r.rootgc[..r.sweepgc] == if s.sweepgc == 0 then [] else [id] + s.rootgc[..s.sweepgc];
      AddedSwept(s, id, Object(kind, false, refs), r);
    }
  }

  /** New userdata, right after the main thread. */
  function CreateUdata(s: State, id: Id, refs: seq<Id>): State
    requires s.main in s.rootgc
  {
    LinkUdata(Allocate(s, id, Object(Udata, false, refs)), id, IndexOf(s.rootgc, s.main))
  }

  lemma CreateUdataLists(s: State, id: Id, refs: seq<Id>)
    requires Lists(s) && id !in s.heap && s.main in s.rootgc
    ensures Lists(CreateUdata(s, id, refs))
  {
    hide StringTable, OpenLists, UpvalHead, RootList, NoDup;
    var o := Object(Udata, false, refs);
    var m := IndexOf(s.rootgc, s.main);
    assert s.rootgc == s.rootgc[..m + 1] + s.rootgc[m + 1..];
    AddRoot(s.rootgc, s.heap, id, o, s.rootgc[..m + 1], s.rootgc[m + 1..]);
    AddElsewhere(s, id, o);
  }

  lemma CreateUdataKeeps(s: State, id: Id, refs: seq<Id>)
    requires Inv(s) && id !in s.heap && forall v :: v in refs ==> Live(s, v)
    ensures s.main in s.rootgc && Inv(CreateUdata(s, id, refs))
  {
    assert s.main in s.rootgc;
    hide PhaseInv, Shapes, Safe, RootList, StringTable, OpenLists, UpvalHead, NoDup, RefsClosed;
    CreateUdataLists(s, id, refs);
    assert Coloured(s) && Coloured(CreateUdata(s, id, refs));
    hide Lists;
    CreateUdataPhase(s, id, refs, IndexOf(s.rootgc, s.main));
    AddedKeeps(s, id, Object(Udata, false, refs), CreateUdata(s, id, refs));
  }

  lemma CreateUdataPhase(s: State, id: Id, refs: seq<Id>, m: nat)
    requires Inv(s) && s.main in s.rootgc && m == IndexOf(s.rootgc, s.main)
    requires Added(s, id, Object(Udata, false, refs), CreateUdata(s, id, refs))
    ensures var r := CreateUdata(s, id, refs);
      (s.phase.SweepString? ==> r.sweepgc == 0) && (s.phase.Sweep? ==> RootsSwept(r))
  {
    hide Shapes, Safe, StringTable, RootList, UpvalHead, NoDup, RefsClosed;
    var r := CreateUdata(s, id, refs);
    if s.phase.Sweep? {
      if s.sweepgc <= m + 1 {
        assert r.rootgc[..r.sweepgc] == s.rootgc[..s.sweepgc];
      } else {
        assert r.rootgc[..r.sweepgc] == s.rootgc[..m + 1] + [id] + s.rootgc[m + 1..s.sweepgc];
        assert s.rootgc[..s.sweepgc] == s.rootgc[..m + 1] + s.rootgc[m + 1..s.sweepgc];
      }
      AddedSwept(s, id, Object(Udata, false, refs), r);
    }
  }

  /** A new string in front of its bucket. */
  function CreateString(s: State, id: Id, hash: nat, fixed: bool): State
    requires |s.strt| > 0
  {
    var b := hash % |s.strt|;
    Allocate(s, id, Object(Str(hash), fixed, [])).(strt := s.strt[b := [id] + s.strt[b]])
  }

  lemma AddString(strt: seq<seq<Id>>, heap: Heap, id: Id, hash: nat, fixed: bool)
    requires StringTable(strt, heap) && id !in heap
    ensures var b := hash % |strt|; StringTable(strt[b := [id] + strt[b]], heap[id := Object(Str(hash), fixed, [])])
  {
    var c := hash % |strt|;
    var h := heap[id := Object(Str(hash), fixed, [])];
    var out := strt[c := [id] + strt[c]];
    assert id in strt[c] ==> id in heap;
    NoDupConcat([id], strt[c]);
    forall b, x | 0 <= b < |out|
      ensures x in out[b] <==> x in h && h[x].kind.Str? && h[x].kind.hash % |out| == b
    {
      assert x in strt[b] <==> x in heap && heap[x].kind.Str? && heap[x].kind.hash % |strt| == b;
    }
  }

  lemma CreateStringKeeps(s: State, id: Id, hash: nat, fixed: bool)
    requires Inv(s) && id !in s.heap
    ensures |s.strt| > 0 && Inv(CreateString(s, id, hash, fixed))
  {
    hide PhaseInv, Shapes, Safe, RootList, OpenLists, UpvalHead, NoDup, RefsClosed;
    var o := Object(Str(hash), fixed, []);
    var r := CreateString(s, id, hash, fixed);
    AddString(s.strt, s.heap, id, hash, fixed);
    AddElsewhere(s, id, o);
    assert Added(s, id, o, r);
    CreateStringPhase(s, id, hash, fixed);
    AddedKeeps(s, id, o, r);
  }

  lemma CreateStringPhase(s: State, id: Id, hash: nat, fixed: bool)
    requires Inv(s) && Added(s, id, Object(Str(hash), fixed, []), CreateString(s, id, hash, fixed))
    ensures var r := CreateString(s, id, hash, fixed);
      (s.phase.SweepString? ==> r.sweepgc == 0) && (s.phase.Sweep? ==> RootsSwept(r))
  {
    hide Shapes, Safe, RootList, UpvalHead, NoDup, RefsClosed;
    assert |s.strt| > 0;
    hide StringTable;
    if s.phase.Sweep? { AddedSwept(s, id, Object(Str(hash), fixed, []), CreateString(s, id, hash, fixed)); }
  }

  /** A new open upvalue of the running thread, at its place in the thread's list. */
  function CreateUpval(s: State, id: Id, refs: seq<Id>, pos: nat): State
    requires s.running in s.open && pos <= |s.open[s.running]|
  {
    var l := s.open[s.running];
    Allocate(s, id, Object(OpenUpval(s.running), false, refs)).(
      open := s.open[s.running := l[..pos] + [id] + l[pos..]], uvhead := [id] + s.uvhead)
  }

  lemma Inserted(l: seq<Id>, id: Id, pos: nat)
    requires NoDup(l) && id !in l && pos <= |l|
    ensures var out := l[..pos] + [id] + l[pos..]; NoDup(out) && forall x :: x in out <==> x == id || x in l
  {
    var out := l[..pos] + [id] + l[pos..];
    forall i, j | 0 <= i < j < |out| ensures out[i] != out[j] {
      assert forall k :: 0 <= k < |out| && k != pos ==> out[k] == l[if k < pos then k else k - 1];
    }
    assert l == l[..pos] + l[pos..];
  }

  lemma AddUpval(open: map<Id, seq<Id>>, heap: Heap, id: Id, th: Id, refs: seq<Id>, pos: nat)
    requires OpenLists(open, heap) && id !in heap && th in open && pos <= |open[th]|
    ensures var l := open[th];
      OpenLists(open[th := l[..pos] + [id] + l[pos..]], heap[id := Object(OpenUpval(th), false, refs)])
  {
    hide NoDup;
    var l := open[th];
    var out := l[..pos] + [id] + l[pos..];
    var h := heap[id := Object(OpenUpval(th), false, refs)];
    var open' := open[th := out];
    assert forall x :: x in l ==> x in heap;
    Inserted(l, id, pos);
    forall t, x | t in open' ensures x in open'[t] <==> x in h && h[x].kind == OpenUpval(t) {
      assert x in open[t] <==> x in heap && heap[x].kind == OpenUpval(t);
    }
  }

  lemma CreateUpvalKeeps(s: State, id: Id, refs: seq<Id>, pos: nat)
    requires Inv(s) && id !in s.heap && |refs| <= 1 && s.running in s.open && pos <= |s.open[s.running]|
    requires forall v :: v in refs ==> Live(s, v)
    ensures Inv(CreateUpval(s, id, refs, pos))
  {
    hide PhaseInv, Shapes, Safe, RootList, OpenLists, StringTable, NoDup, RefsClosed;
    var o := Object(OpenUpval(s.running), false, refs);
    var r := CreateUpval(s, id, refs, pos);
    AddUpval(s.open, s.heap, id, s.running, refs, pos);
    AddElsewhere(s, id, o);
    AddHead(s.uvhead, s.heap, id, o);
    assert Added(s, id, o, r);
    CreateUpvalPhase(s, id, refs, pos);
    AddedKeeps(s, id, o, r);
  }

  lemma AddHead(uvhead: seq<Id>, heap: Heap, id: Id, o: Object)
    requires UpvalHead(uvhead, heap) && id !in heap && o.kind.OpenUpval?
    ensures UpvalHead([id] + uvhead, heap[id := o])
  {
    NoDupConcat([id], uvhead);
  }

  lemma CreateUpvalPhase(s: State, id: Id, refs: seq<Id>, pos: nat)
    requires Inv(s) && s.running in s.open && pos <= |s.open[s.running]|
    requires Added(s, id, Object(OpenUpval(s.running), false, refs), CreateUpval(s, id, refs, pos))
    ensures var r := CreateUpval(s, id, refs, pos);
      (s.phase.SweepString? ==> r.sweepgc == 0) && (s.phase.Sweep? ==> RootsSwept(r))
  {
    hide Shapes, Safe, StringTable, RootList, UpvalHead, NoDup, RefsClosed;
    var r := CreateUpval(s, id, refs, pos);
    if s.phase.Sweep? {
      forall th, x | th in r.open && x in r.open[th] ensures x == id || (th in s.open && x in s.open[th]) {
        var l := s.open[s.running];
        assert l == l[..pos] + l[pos..];
      }
      AddedSwept(s, id, Object(OpenUpval(s.running), false, refs), r);
    }
  }

  // ---------------------------------------------------------- finding again

  /** A string or upvalue found dead is given the current white again. */
  lemma ResurrectKeeps(s: State, id: Id)
    requires Inv(s) && id in s.heap && forall v :: v in s.heap[id].refs ==> Live(s, v)
    ensures Inv(Resurrect(s, id)) && Live(Resurrect(s, id), id)
  {
    hide RootList, StringTable, OpenLists, UpvalHead, PhaseInv;
    var r := Resurrect(s, id);
    if IsDead(s, id) {
      forall x, v | x in r.heap && Live(r, x) && v in r.heap[x].refs ensures Live(r, v) {
        if x != id { assert Live(s, x); }
        assert Live(s, v);
      }
      forall x | x in Roots(r) ensures Live(r, x) { assert x in Roots(s) && Live(s, x); }
      NotPropagating(s, id);
      hide Shapes, Safe;
      WhiteKeepsPhase(s, r);
    }
  }

  /** Nothing is dead while the collector propagates. */
  lemma NotPropagating(s: State, id: Id)
    requires Inv(s) && id in s.heap && IsDead(s, id)
    ensures !s.phase.Propagate?
  {
  }

  // ------------------------------------------------------------- new roots

  lemma NewRootsKeep(s: State, mt: seq<Id>, th: Id)
    requires Inv(s) && (forall v :: v in mt ==> Live(s, v)) && Live(s, th) && s.heap[th].kind.Thread?
    ensures Inv(s.(mt := mt, running := th))
  {
    hide RootList, StringTable, OpenLists, UpvalHead, Shapes, StringsSwept, RootsSwept, NoDup;
    var r := s.(mt := mt, running := th);
    forall x, v | x in r.heap && Live(r, x) && v in r.heap[x].refs ensures Live(r, v) {
      assert Live(s, x);
      assert Live(s, v);
    }
    forall x | x in Roots(r) ensures Live(r, x) { if x !in mt && x != th { assert x in Roots(s) && Live(s, x); } }
    if s.phase.Propagate? {
      assert Tri(r, Incremental) by {
        forall x | x in r.heap && !IsWhite(r, x) ensures Shaded(r, Incremental, x) { assert Shaded(s, Incremental, x); }
      }
    }
    assert Safe(r);
    hide Tri, Safe;
    if !s.phase.Propagate? { WhiteKeepsPhase(s, r); }
  }
}
