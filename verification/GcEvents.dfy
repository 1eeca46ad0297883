/** What each event does to the objects and roots of the program, whatever the collector is doing. */
module GcEvents {
  import opened Common
  import opened GcModel
  import opened GcInvariant
  import opened GcStep
  import opened GcProgram
  import opened GcAlloc
  import opened GcClose
  import opened GcFull
  import opened GcRun

  ghost predicate SameRoots(s: State, r: State) {
    r.main == s.main && r.registry == s.registry && r.running == s.running && r.mt == s.mt
  }

  /** `heap'` is `heap` with `id` on top of the stack of thread `th`. */
  ghost predicate Pushed(heap: Heap, th: Id, id: Id, heap': Heap) {
    && th in heap && heap'.Keys == heap.Keys
    && heap'[th] == Object(heap[th].kind, heap[th].fixed, heap[th].refs + [id])
    && forall x :: x in heap && x != th ==> heap'[x] == heap[x]
  }

  /** The running thread, its stack and the other roots after an object has been made or found. */
  ghost predicate Handed(s: State, heap: Heap, id: Id, r: State) {
    SameRoots(s, r) && Pushed(heap, s.running, id, r.heap)
  }

  /** Only the object `o` differs; it has the references `refs`. */
  ghost predicate Stored(s: State, o: Id, refs: seq<Id>, r: State) {
    && SameRoots(s, r) && o in s.heap && r.heap.Keys == s.heap.Keys
    && r.heap[o] == Object(s.heap[o].kind, s.heap[o].fixed, refs)
    && forall x :: x in s.heap && x != o ==> r.heap[x] == s.heap[x]
  }

  /** The first open upvalue of a thread is closed, or gone if it was condemned. */
  ghost predicate ClosedOne(s: State, th: Id, r: State) {
    && SameRoots(s, r) && th in s.open && s.open[th] != [] && s.open[th][0] in s.heap && Coloured(s)
    && var uv := s.open[th][0];
      && r.open == s.open[th := s.open[th][1..]]
      && r.heap == if IsDead(s, uv) then s.heap - {uv} else s.heap[uv := Object(ClosedUpval, s.heap[uv].fixed, s.heap[uv].refs)]
  }

  /** What an event leads to. */
  ghost predicate Effect(s: State, e: Event, r: State) {
    match e
    case Collect => SameRoots(s, r) && forall x :: x in r.heap ==> x in s.heap && r.heap[x].refs == s.heap[x].refs
    case New(id, kind, refs) =>
      Handed(s, s.heap[id := Object(kind, false, refs)], id, r) && r.open == if kind.Thread? then s.open[id := []] else s.open
    case NewUdata(id, refs) => Handed(s, s.heap[id := Object(Udata, false, refs)], id, r) && r.open == s.open
    case NewString(id, hash, fixed) => Handed(s, s.heap[id := Object(Str(hash), fixed, [])], id, r) && r.open == s.open
    case NewUpval(id, refs, pos) =>
      && Handed(s, s.heap[id := Object(OpenUpval(s.running), false, refs)], id, r)
      && s.running in s.open && pos <= |s.open[s.running]|
      && r.open == s.open[s.running := s.open[s.running][..pos] + [id] + s.open[s.running][pos..]]
    case FindString(id) => Handed(s, s.heap, id, r) && r.open == s.open
    case FindUpval(id) => Handed(s, s.heap, id, r) && r.open == s.open
    case Store(o, refs, v) => Stored(s, o, refs, r) && r.open == s.open
    case Close(th) => ClosedOne(s, th, r)
    case SetMetatables(mt) => r == s.(mt := mt)
    case Resume(th) => r == s.(running := th)
  }

  lemma DoStoreStores(s: State, o: Id, refs: seq<Id>, v: Id)
    requires Inv(s) && Storable(s, o, refs, v)
    ensures Stored(s, o, refs, DoStore(s, o, refs, v)) && DoStore(s, o, refs, v).open == s.open
  {
    hide Lists, Shapes, Safe, PhaseInv;
    StoreReady(s, o, refs, v);
  }

  lemma OnStackPushes(s: State, id: Id)
    requires Inv(s) && Live(s, id)
    ensures Handed(s, s.heap, id, OnStack(s, id)) && OnStack(s, id).open == s.open
  {
    hide Inv, DoStore;
    OnStackKeeps(s, id);
    InvRunning(s, id);
    DoStoreStores(s, s.running, s.heap[s.running].refs + [id], id);
  }

  lemma InvRunning(s: State, id: Id)
    requires Inv(s) && Live(s, id)
    ensures s.running in s.heap && Storable(s, s.running, s.heap[s.running].refs + [id], id)
  {
    hide RootList, StringTable, OpenLists, UpvalHead, PhaseInv;
    assert s.running in Roots(s);
  }

  lemma CloseEffect(s: State, th: Id)
    requires Inv(s) && th in s.open && s.open[th] != [] && OpenList(s.heap, s.open[th])
    requires s.phase.Propagate? ==> NoDangling(s) && AllIn(s.heap[s.open[th][0]].refs, s.heap)
    ensures ClosedOne(s, th, CloseFirst(s, th))
  {
    hide RootList, StringTable, OpenLists, UpvalHead, Shapes, Safe, PhaseInv;
    assert s.open[th][0] in s.open[th];
  }

  /** Every event does to the program's objects what its name says. */
  lemma EventEffect(s: State, e: Event)
    requires Inv(s) && Enabled(s, e)
    ensures Effect(s, e, Apply(s, e))
  {
    hide RootList, StringTable, OpenLists, UpvalHead, Shapes, Safe, PhaseInv, Reachable, SingleStep, OnStack, DoStore;
    EnabledLive(s, e);
    match e {
      case Collect => SingleStepKeeps(s);
      case New(id, kind, refs) => CreateKeeps(s, id, kind, refs); OnStackPushes(Create(s, id, kind, refs), id);
      case NewUdata(id, refs) => CreateUdataKeeps(s, id, refs); OnStackPushes(CreateUdata(s, id, refs), id);
      case NewString(id, hash, fixed) => CreateStringKeeps(s, id, hash, fixed); OnStackPushes(CreateString(s, id, hash, fixed), id);
      case NewUpval(id, refs, pos) => CreateUpvalKeeps(s, id, refs, pos); OnStackPushes(CreateUpval(s, id, refs, pos), id);
      case FindString(id) => StringHoldsNothing(s, id); ResurrectKeeps(s, id); OnStackPushes(Resurrect(s, id), id);
      case FindUpval(id) => ResurrectKeeps(s, id); OnStackPushes(Resurrect(s, id), id);
      case Store(o, refs, v) => DoStoreStores(s, o, refs, v);
      case Close(th) => CloseKeeps(s, th); CloseEffect(s, th);
      case SetMetatables(mt) =>
      case Resume(th) =>
    }
  }

  // ------------------------------------------------------------ what is reachable

  /** An object that is handed to the program refers only to what was reachable. */
  ghost predicate HandedOn(s: State, id: Id, r: State) {
    && SameRoots(s, r) && s.running in s.heap && id != s.running && r.heap.Keys == s.heap.Keys + {id}
    && (forall x :: x in s.heap && x != s.running ==> r.heap[x].refs == s.heap[x].refs)
    && r.heap[s.running].refs == s.heap[s.running].refs + [id]
    && forall v :: v in r.heap[id].refs ==> Reachable(s, v)
  }

  lemma HandedKeeps(s: State, id: Id, r: State, x: Id)
    requires HandedOn(s, id, r) && Reachable(s, x)
    ensures Reachable(r, x)
  {
    var p :| IsPath(s.heap, p) && p[0] in Roots(s) && p[|p| - 1] == x;
    assert IsPath(r.heap, p) by {
      forall i | 0 <= i < |p| - 1 ensures p[i] in r.heap && p[i + 1] in r.heap[p[i]].refs {
        assert p[i] in s.heap && p[i + 1] in s.heap[p[i]].refs;
      }
    }
    assert Roots(r) == Roots(s);
  }

  lemma {:induction false} HandedPath(s: State, id: Id, r: State, p: seq<Id>)
    requires HandedOn(s, id, r) && IsPath(r.heap, p) && p[0] in Roots(r)
    ensures p[|p| - 1] == id || Reachable(s, p[|p| - 1])
    decreases |p|
  {
    hide Reachable;
    var x := p[|p| - 1];
    if |p| == 1 {
      RootReachable(s, x);
    } else {
      var q := p[..|p| - 1];
      assert IsPath(r.heap, q);
      HandedPath(s, id, r, q);
      var y := q[|q| - 1];
      assert y == p[|p| - 2] && y in r.heap && p[|p| - 2 + 1] in r.heap[y].refs;
      if y != id && x != id { RefReachable(s, y, x); }
    }
  }

  lemma RootReachable(s: State, id: Id)
    requires id in Roots(s)
    ensures Reachable(s, id)
  {
    assert IsPath(s.heap, [id]) && [id][0] in Roots(s) && [id][|[id]| - 1] == id;
  }

  /** The object that is handed to the program, and no other one, becomes reachable. */
  lemma HandedReachable(s: State, id: Id, r: State, x: Id)
    requires HandedOn(s, id, r)
    ensures Reachable(r, x) <==> x == id || Reachable(s, x)
  {
    if Reachable(r, x) {
      var p :| IsPath(r.heap, p) && p[0] in Roots(r) && p[|p| - 1] == x;
      HandedPath(s, id, r, p);
    }
    if x == id {
      var p := [s.running, id];
      assert s.running in Roots(r);
      assert IsPath(r.heap, p) && p[0] in Roots(r) && p[|p| - 1] == id;
    } else if Reachable(s, x) {
      HandedKeeps(s, id, r, x);
    }
  }

  /** The object that an event makes or finds. */
  function Made(e: Event): Option<Id> {
    match e
    case New(id, _, _) => Some(id)
    case NewUdata(id, _) => Some(id)
    case NewString(id, _, _) => Some(id)
    case NewUpval(id, _, _) => Some(id)
    case FindString(id) => Some(id)
    case FindUpval(id) => Some(id)
    case _ => None
  }

  lemma MadeHands(s: State, e: Event, r: State)
    requires Inv(s) && Enabled(s, e) && Effect(s, e, r) && Made(e).Some?
    ensures HandedOn(s, Made(e).value, r) && Made(e).value in r.heap
  {
    hide Reachable, RootList, StringTable, UpvalHead, Shapes, Safe, PhaseInv, OpenLists;
    if e.FindUpval? { FoundUpval(s, e.id); }
    if e.FindString? { StringHoldsNothing(s, e.id); }
  }

  lemma FoundUpval(s: State, id: Id)
    requires Inv(s) && s.running in s.open && id in s.open[s.running] && id in s.heap
    ensures s.heap[id].kind.OpenUpval?
  {
    hide RootList, StringTable, UpvalHead, Shapes, Safe, PhaseInv;
  }

  /** Making or finding an object makes exactly that object reachable, whatever it was before. */
  lemma MadeReachable(s: State, e: Event, x: Id)
    requires Inv(s) && Enabled(s, e) && Made(e).Some?
    ensures Made(e).value in Apply(s, e).heap
    ensures Reachable(Apply(s, e), x) <==> x == Made(e).value || Reachable(s, x)
  {
    hide Reachable, Apply, Inv, Enabled, Effect, HandedOn;
    EventEffect(s, e);
    MadeHands(s, e, Apply(s, e));
    HandedReachable(s, Made(e).value, Apply(s, e), x);
  }

  /** Reading a table field finds what was stored there: after a store the object refers to
      exactly the given values, and each of them is reachable if the object is. */
  lemma StoredReachable(s: State, o: Id, refs: seq<Id>, v: Id, x: Id)
    requires Inv(s) && Enabled(s, Store(o, refs, v)) && Reachable(Apply(s, Store(o, refs, v)), o) && x in refs
    ensures Reachable(Apply(s, Store(o, refs, v)), x)
  {
    hide Inv, Reachable, Apply, Enabled;
    EventEffect(s, Store(o, refs, v));
    RefReachable(Apply(s, Store(o, refs, v)), o, x);
  }
}
