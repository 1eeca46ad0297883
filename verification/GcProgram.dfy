/** The program's side of the collector: what a running script can do to the heap
    between two collector steps, and why each of these keeps the invariant. */
module GcProgram {
  import opened Common
  import opened GcModel
  import opened GcMark
  import opened GcInvariant
  import opened GcStep

  // ----------------------------------------------------------- reachability

  /** A chain of references through the heap. */
  ghost predicate IsPath(heap: Heap, p: seq<Id>) {
    p != [] && forall i :: 0 <= i < |p| - 1 ==> p[i] in heap && p[i + 1] in heap[p[i]].refs
  }

  ghost predicate ReachableIn(heap: Heap, roots: seq<Id>, id: Id) {
    exists p :: IsPath(heap, p) && p[0] in roots && p[|p| - 1] == id
  }

  /** The program can get hold of `id` by following references from a root. */
  ghost predicate Reachable(s: State, id: Id) {
    ReachableIn(s.heap, Roots(s), id)
  }

  lemma {:induction false} PathLive(s: State, p: seq<Id>)
    requires Coloured(s) && Safe(s) && IsPath(s.heap, p) && p[0] in Roots(s)
    ensures Live(s, p[|p| - 1])
    decreases |p|
  {
    if |p| > 1 {
      var q := p[..|p| - 1];
      PathLive(s, q);
      assert p[|p| - 2 + 1] in s.heap[p[|p| - 2]].refs;
    }
  }

  /** Everything the program can reach is allocated and not condemned. */
  lemma ReachableLive(s: State, id: Id)
    requires Coloured(s) && Safe(s) && Reachable(s, id)
    ensures Live(s, id)
  {
    var p :| IsPath(s.heap, p) && p[0] in Roots(s) && p[|p| - 1] == id;
    PathLive(s, p);
  }

  // ----------------------------------------------------------------- events

  /** What can happen next: a collector step or something the running script does.
      Every object the script creates or finds ends up on the running thread's stack. */
  datatype Event =
    | Collect                                        // one `singlestep`
    | New(id: Id, kind: Kind, refs: seq<Id>)         // `luaC_link`
    | NewUdata(id: Id, refs: seq<Id>)                // `luaS_newudata`
    | NewString(id: Id, hash: nat, fixed: bool)      // `newlstr`, `luaS_fix`
    | NewUpval(id: Id, refs: seq<Id>, pos: nat)      // `luaF_findupval`, a new one
    | FindString(id: Id)                             // `luaS_newlstr`, string found
    | FindUpval(id: Id)                              // `luaF_findupval`, upvalue found
    | Store(o: Id, refs: seq<Id>, v: Id)             // any assignment, with its barrier
    | Close(th: Id)                                  // one turn of `luaF_close`
    | SetMetatables(mt: seq<Id>)                     // metatables of basic types
    | Resume(th: Id)                                 // switch to another thread

  /** A fresh object with the current white. */
  function Allocate(s: State, id: Id, o: Object): State {
    s.(heap := s.heap[id := o], marked := s.marked[id := White(s.white)])
  }

  /** `changewhite` of an object found dead. */
  function Resurrect(s: State, id: Id): State
    requires id in s.marked
  {
    if IsDead(s, id) then s.(marked := s.marked[id := White(s.white)]) else s
  }

  /** Userdata are linked right after the main thread. */
  function LinkUdata(s: State, id: Id, m: nat): State
    requires m < |s.rootgc|
  {
    s.(rootgc := s.rootgc[..m + 1] + [id] + s.rootgc[m + 1..],
       sweepgc := if s.sweepgc > m + 1 then s.sweepgc + 1 else s.sweepgc)
  }

  function IndexOf(ids: seq<Id>, id: Id): (k: nat)
    requires id in ids
    ensures k < |ids| && ids[k] == id
  {
    if ids[0] == id then 0 else 1 + IndexOf(ids[1..], id)
  }

  /** The kinds `luaC_link` is called for. */
  predicate Linkable(k: Kind) {
    k.Func? || k.Tab? || k.Thread? || k.Proto? || k.ClosedUpval?
  }

  /** The script only handles what it can reach. */
  ghost predicate Enabled(s: State, e: Event) {
    match e
    case Collect => true
    case New(id, kind, refs) =>
      id !in s.heap && Linkable(kind) && (kind.ClosedUpval? ==> |refs| <= 1) &&
      forall v :: v in refs ==> Reachable(s, v)
    case NewUdata(id, refs) => id !in s.heap && forall v :: v in refs ==> Reachable(s, v)
    case NewString(id, _, _) => id !in s.heap
    case NewUpval(id, refs, pos) =>
      id !in s.heap && |refs| <= 1 && (forall v :: v in refs ==> Reachable(s, v)) &&
      s.running in s.open && pos <= |s.open[s.running]|
    case FindString(id) => id in s.heap && s.heap[id].kind.Str?
    case FindUpval(id) =>
      s.running in s.open && id in s.open[s.running] && id in s.heap &&
      forall v :: v in s.heap[id].refs ==> Reachable(s, v)
    case Store(o, refs, v) =>
      && o in s.heap && (Reachable(s, o) || s.heap[o].kind.OpenUpval?) && Reachable(s, v)
      && !s.heap[o].kind.Str? && (s.heap[o].kind.OpenUpval? || s.heap[o].kind.ClosedUpval? ==> |refs| <= 1)
      && (forall x :: x in refs ==> x in s.heap[o].refs || x == v)
    case Close(th) => th in s.open && s.open[th] != []
    case SetMetatables(mt) => forall v :: v in mt ==> Reachable(s, v)
    case Resume(th) => Reachable(s, th) && th in s.open
  }

  // --------------------------------------------- storing a reference

  function Assign(s: State, o: Id, refs: seq<Id>): State
    requires o in s.heap
  {
    s.(heap := s.heap[o := s.heap[o].(refs := refs)])
  }

  lemma SameKindsTable(strt: seq<seq<Id>>, heap: Heap, heap': Heap)
    requires StringTable(strt, heap) && heap'.Keys == heap.Keys
    requires forall id :: id in heap' ==> heap'[id].kind == heap[id].kind
    ensures StringTable(strt, heap')
  {
    hide NoDup;
    forall b, id | 0 <= b < |strt|
      ensures id in strt[b] <==> id in heap' && heap'[id].kind.Str? && heap'[id].kind.hash % |strt| == b
    {
      assert id in strt[b] <==> id in heap && heap[id].kind.Str? && heap[id].kind.hash % |strt| == b;
    }
  }

  /** Same objects of the same kinds: the lists stay exact. */
  lemma SameKindsLists(s: State, heap: Heap)
    requires Lists(s) && heap.Keys == s.heap.Keys
    requires forall id :: id in heap ==> heap[id].kind == s.heap[id].kind
    ensures RootList(s.rootgc, heap) && StringTable(s.strt, heap)
    ensures OpenLists(s.open, heap) && UpvalHead(s.uvhead, heap)
  {
    hide NoDup, StringTable, OpenLists;
    SameKindsOpen(s.open, s.heap, heap);
    SameKindsTable(s.strt, s.heap, heap);
  }

  lemma SameKindsOpen(open: map<Id, seq<Id>>, heap: Heap, heap': Heap)
    requires OpenLists(open, heap) && heap'.Keys == heap.Keys
    requires forall id :: id in heap' ==> heap'[id].kind == heap[id].kind
    ensures OpenLists(open, heap')
  {
    hide NoDup;
    forall th, id | th in open ensures id in open[th] <==> id in heap' && heap'[id].kind == OpenUpval(th) {
      assert id in open[th] <==> id in heap && heap[id].kind == OpenUpval(th);
    }
  }

  /** The tricolour invariant with object `o` excused. */
  ghost predicate TriBut(s: State, o: Id) {
    && RefsClosed(s.heap) && GrayLists(s)
    && (forall id :: id in s.heap && !IsWhite(s, id) && id != o ==> Shaded(s, Incremental, id))
  }

  /** Marking the value just stored in a black object. */
  lemma ForwardShades(s: State, o: Id, v: Id, r: State, id: Id)
    requires TriBut(s, o) && o in s.heap && MarkStep(s, r) && id in s.heap && !IsWhite(r, id) && v in s.heap && !IsWhite(r, v)
    requires s.marked[o].Black? && !s.heap[o].kind.Str? && !s.heap[o].kind.OpenUpval? && !s.heap[o].kind.Thread?
    requires forall x :: x in s.heap[o].refs ==> x in s.heap && (x == v || !IsWhite(s, x))
    ensures Shaded(r, Incremental, id)
  {
    hide NoDup, GrayLists, RefsClosed, Shaded;
    assert forall x :: x in s.gray ==> x in r.gray;
    if id == o {
      BlackShaded(r, o);
    } else if IsWhite(s, id) {
      SettledShaded(r, Incremental, id);
    } else {
      ShadedCarries(s, r, Incremental, id);
    }
  }

  lemma ForwardKeepsTri(s: State, o: Id, v: Id)
    requires TriBut(s, o) && NoDangling(s) && o in s.heap && v in s.heap && IsWhite(s, v)
    requires s.marked[o].Black? && !s.heap[o].kind.Str? && !s.heap[o].kind.OpenUpval? && !s.heap[o].kind.Thread?
    requires forall x :: x in s.heap[o].refs ==> x in s.heap && (x == v || !IsWhite(s, x))
    ensures Tri(ReallyMark(s, v), Incremental)
  {
    hide NoDup, ReallyMark, GrayLists, RefsClosed, MarkStep, Shaded;
    var r := ReallyMark(s, v);
    ReallyMarkStep(s, v);
    MarkKeepsLists(s, r);
    forall id | id in r.heap && !IsWhite(r, id) ensures Shaded(r, Incremental, id) {
      ForwardShades(s, o, v, r, id);
    }
  }

  lemma BlackShaded(s: State, o: Id)
    requires Coloured(s) && o in s.heap && s.marked[o].Black? && RefsMarked(s, o)
    requires !s.heap[o].kind.Str? && !s.heap[o].kind.OpenUpval? && !s.heap[o].kind.Thread?
    ensures Shaded(s, Incremental, o)
  {
  }

  /** What a store is allowed to do. */
  ghost predicate Storable(s: State, o: Id, refs: seq<Id>, v: Id)
    requires Coloured(s)
  {
    && o in s.heap && Live(s, v) && !s.heap[o].kind.Str?
    && (s.heap[o].kind.OpenUpval? || s.heap[o].kind.ClosedUpval? ==> |refs| <= 1)
    && (s.heap[o].kind.OpenUpval? || Live(s, o))
    && (forall x :: x in refs ==> x in s.heap[o].refs || x == v)
  }

  lemma AssignKeeps(s: State, o: Id, refs: seq<Id>, v: Id)
    requires Lists(s) && Shapes(s.heap, s.marked, s.main) && Safe(s) && Storable(s, o, refs, v)
    ensures var r := Assign(s, o, refs); Lists(r) && Shapes(r.heap, r.marked, r.main) && Safe(r)
  {
    hide RootList, StringTable, OpenLists, UpvalHead;
    var r := Assign(s, o, refs);
    SameKindsLists(s, r.heap);
    forall id, x | id in r.heap && Live(r, id) && x in r.heap[id].refs ensures Live(r, x) {
      assert Live(s, id);
      if id == o && x == v { assert Live(s, v); } else { assert x in s.heap[id].refs && Live(s, x); }
    }
    assert forall id :: id in Roots(r) ==> id in Roots(s);
  }

  /** After the assignment the tricolour invariant can fail at the object only. */
  lemma AssignKeepsTriBut(s: State, o: Id, refs: seq<Id>, v: Id)
    requires Tri(s, Incremental) && Storable(s, o, refs, v)
    ensures TriBut(Assign(s, o, refs), o) && NoDangling(Assign(s, o, refs))
    ensures forall x :: x in refs && s.marked[o].Black? ==> x in s.heap && (x == v || !IsWhite(s, x))
  {
    hide NoDup;
    var r := Assign(s, o, refs);
    if s.marked[o].Black? { assert Shaded(s, Incremental, o); }
    forall id | id in r.heap && !IsWhite(r, id) && id != o ensures Shaded(r, Incremental, id) {
      assert Shaded(s, Incremental, id);
    }
    forall id, x | id in r.heap && x in r.heap[id].refs ensures x in r.heap {
      assert x in s.heap[id].refs || x == v;
    }
  }

  /** Without need of a barrier the invariant is whole again. */
  lemma NoBarrierTri(s: State, o: Id)
    requires TriBut(s, o) && o in s.heap
    requires !IsWhite(s, o) ==> Shaded(s, Incremental, o)
    ensures Tri(s, Incremental)
  {
  }

  lemma BackKeepsTri(s: State, o: Id)
    requires TriBut(s, o) && o in s.heap && s.marked[o].Black? && s.heap[o].kind.Tab?
    ensures Tri(BarrierBack(s, o), Incremental)
  {
    hide Whites;
    var r := BarrierBack(s, o);
    assert o !in s.gray && o !in s.grayagain;
    NoDupConcat([o], s.grayagain);
    forall id | id in r.heap && !IsWhite(r, id) ensures Shaded(r, Incremental, id) {
      if id != o { assert Shaded(s, Incremental, id); }
    }
  }

  /** Any assignment, with the barrier the interpreter runs after it. */
  function DoStore(s: State, o: Id, refs: seq<Id>, v: Id): (r: State)
    requires Inv(s) && Storable(s, o, refs, v)
    ensures r.heap.Keys == s.heap.Keys
  {
    StoreReady(s, o, refs, v);
    Barrier(Assign(s, o, refs), o, v)
  }

  lemma StoreReady(s: State, o: Id, refs: seq<Id>, v: Id)
    requires Inv(s) && Storable(s, o, refs, v)
    ensures s.phase.Propagate? ==> NoDangling(Assign(s, o, refs))
  {
    if s.phase.Propagate? { AssignKeepsTriBut(s, o, refs, v); }
  }

  /** Where the barrier does not fire the object keeps its shade. */
  lemma NoBarrierShaded(s: State, o: Id, refs: seq<Id>, v: Id)
    requires Tri(s, Incremental) && Storable(s, o, refs, v) && !(s.marked[o].Black? && IsWhite(s, v))
    ensures Coloured(Assign(s, o, refs)) && (!IsWhite(s, o) ==> Shaded(Assign(s, o, refs), Incremental, o))
  {
    assert Coloured(s);
    hide GrayLists, RefsClosed;
    if !IsWhite(s, o) { assert Shaded(s, Incremental, o); }
  }

  lemma StoreKeepsTri(s: State, o: Id, refs: seq<Id>, v: Id)
    requires Inv(s) && s.phase.Propagate? && Storable(s, o, refs, v)
    ensures Tri(DoStore(s, o, refs, v), Incremental) && Darkens(Assign(s, o, refs), DoStore(s, o, refs, v))
  {
    hide Lists, Safe, GrayLists, Shaded, RefsClosed, ReallyMark, MarkStep, Tri;
    AssignKeepsTriBut(s, o, refs, v);
    var s0 := Assign(s, o, refs);
    var r := DoStore(s, o, refs, v);
    if s.marked[o].Black? && IsWhite(s, v) {
      if s.heap[o].kind.Tab? {
        BackKeepsTri(s0, o);
      } else {
        ForwardKeepsTri(s0, o, v);
        ReallyMarkStep(s0, v);
        MarkDarkens(s0, r);
      }
    } else {
      NoBarrierShaded(s, o, refs, v);
      NoBarrierTri(s0, o);
    }
  }

  lemma StoreKeepsWhilePropagating(s: State, o: Id, refs: seq<Id>, v: Id)
    requires Inv(s) && s.phase.Propagate? && Storable(s, o, refs, v)
    ensures Inv(DoStore(s, o, refs, v))
  {
    hide RootList, StringTable, OpenLists, UpvalHead, Shapes, Barrier, Tri, Darkens;
    var s0 := Assign(s, o, refs);
    var r := DoStore(s, o, refs, v);
    AssignKeeps(s, o, refs, v);
    StoreKeepsTri(s, o, refs, v);
    assert NoneDead(s0);
    DarkensKeeps(s0, r);
    DarkensKeepsSafe(s0, r);
    StoreGrows(s, o, refs, v);
  }

  lemma StoreGrows(s: State, o: Id, refs: seq<Id>, v: Id)
    requires Inv(s) && s.phase.Propagate? && Storable(s, o, refs, v)
    ensures var r := DoStore(s, o, refs, v);
      MarksOnly(Assign(s, o, refs), r) && Coloured(r) && forall id :: id in s.heap && !IsWhite(s, id) ==> !IsWhite(r, id)
  {
    hide Shapes, Safe, Tri, Lists;
    StoreReady(s, o, refs, v);
    var s0 := Assign(s, o, refs);
    if s.marked[o].Black? && IsWhite(s, v) && !s.heap[o].kind.Tab? { ReallyMarkStep(s0, v); }
  }

  /** With the same lists and pointers, keeping what is white white keeps what the
      phases other than the propagate phase promise. */
  lemma WhiteKeepsPhase(s: State, r: State)
    requires Inv(s) && !s.phase.Propagate? && Lists(r)
    requires r.phase == s.phase && r.white == s.white && r.strt == s.strt && r.open == s.open && r.rootgc == s.rootgc
    requires r.sweepstr == s.sweepstr && r.sweepgc == s.sweepgc
    requires r.heap.Keys == s.heap.Keys && forall id :: id in r.heap ==> r.heap[id].kind == s.heap[id].kind
    requires forall id :: InWhite(s, id) ==> InWhite(r, id)
    ensures PhaseInv(r)
  {
    hide RootList, StringTable, UpvalHead, OpenLists, Safe, Shapes;
    assert AllWhite(s) ==> forall id :: id in s.heap ==> InWhite(s, id);
    forall id | id in s.heap && s.marked[id] == White(s.white) ensures r.marked[id] == White(s.white) {
      assert InWhite(s, id);
      assert InWhite(r, id);
    }
  }

  /** Outside the propagate phase a barrier only touches the black object. */
  lemma StoreKeepsOtherwise(s: State, o: Id, refs: seq<Id>, v: Id)
    requires Inv(s) && !s.phase.Propagate? && Storable(s, o, refs, v)
    ensures Inv(DoStore(s, o, refs, v))
  {
    hide RootList, StringTable, UpvalHead, OpenLists, PhaseInv, Shapes, Safe;
    var s0 := Assign(s, o, refs);
    var r := DoStore(s, o, refs, v);
    AssignKeeps(s, o, refs, v);
    if r.marked != s0.marked { RepaintKeeps(s0, o, r.marked[o], r); }
    WhiteKeepsPhase(s, r);
  }

  /** Repainting a black object gray or with the current white, while sweeping. */
  lemma RepaintKeeps(s: State, o: Id, c: Colour, r: State)
    requires Lists(s) && Shapes(s.heap, s.marked, s.main) && Safe(s) && o in s.heap && s.marked[o].Black?
    requires r == s.(marked := s.marked[o := c], grayagain := r.grayagain)
    requires c.Gray? || c == White(s.white)
    ensures Lists(r) && Shapes(r.heap, r.marked, r.main) && Safe(r)
    ensures forall id :: InWhite(s, id) ==> InWhite(r, id)
  {
    hide RootList, StringTable, UpvalHead, OpenLists;
    forall id | id in Roots(r) ensures Live(r, id) { assert id in Roots(s) && Live(s, id); }
    forall id, v | id in r.heap && Live(r, id) && v in r.heap[id].refs ensures Live(r, v) {
      assert Live(s, id);
      assert Live(s, v);
    }
  }

  /** A store keeps the invariant, whatever the phase. */
  lemma StoreKeeps(s: State, o: Id, refs: seq<Id>, v: Id)
    requires Inv(s) && Storable(s, o, refs, v)
    ensures Inv(DoStore(s, o, refs, v))
  {
    if s.phase.Propagate? { StoreKeepsWhilePropagating(s, o, refs, v); } else { StoreKeepsOtherwise(s, o, refs, v); }
  }

  /** The assertions of the two barriers: a barrier that fires finds its object black
      and live, the value white and live, and the collector not at rest; the backward
      barrier is for tables. */
  lemma BarrierAssertions(s: State, o: Id, refs: seq<Id>, v: Id)
    requires Inv(s) && Storable(s, o, refs, v) && IsWhite(s, v) && s.marked[o].Black?
    ensures !IsDead(s, v) && !IsDead(s, o) && !s.phase.Pause? && !s.phase.Finalize?
    ensures !s.heap[o].kind.Thread? && !s.heap[o].kind.OpenUpval? && !s.heap[o].kind.Str?
    ensures s.phase.Propagate? ==>
      var r := DoStore(s, o, refs, v);
      if s.heap[o].kind.Tab? then o in r.grayagain && r.marked[o].Gray? else !IsWhite(r, v)
  {
    if s.phase.Propagate? && !s.heap[o].kind.Tab? {
      StoreReady(s, o, refs, v);
      ReallyMarkStep(Assign(s, o, refs), v);
    }
  }
}
