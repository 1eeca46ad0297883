/** Whole runs: the collector never frees what the program can reach. */
module GcRun {
  import opened Common
  import opened GcModel
  import opened GcInvariant
  import opened GcStep
  import opened GcProgram
  import opened GcAlloc
  import opened GcClose

  /** An object goes on the running thread's stack. */
  function OnStack(s: State, id: Id): (r: State)
    requires Inv(s) && Live(s, id)
    ensures r.heap.Keys == s.heap.Keys
  {
    DoStore(s, s.running, s.heap[s.running].refs + [id], id)
  }

  lemma OnStackKeeps(s: State, id: Id)
    requires Inv(s) && Live(s, id)
    ensures s.running in s.heap && Live(s, s.running)
    ensures Inv(OnStack(s, id))
  {
    assert s.running in Roots(s);
    StoreKeeps(s, s.running, s.heap[s.running].refs + [id], id);
  }

  /** What the precondition of an event says about the mark bits. */
  lemma EnabledLive(s: State, e: Event)
    requires Inv(s) && Enabled(s, e)
    ensures match e
      case New(_, _, refs) => forall v :: v in refs ==> Live(s, v)
      case NewUdata(_, refs) => forall v :: v in refs ==> Live(s, v)
      case NewUpval(_, refs, _) => forall v :: v in refs ==> Live(s, v)
      case FindUpval(id) => forall v :: v in s.heap[id].refs ==> Live(s, v)
      case Store(o, refs, v) => Storable(s, o, refs, v)
      case SetMetatables(mt) => forall v :: v in mt ==> Live(s, v)
      case Resume(th) => Live(s, th) && s.heap[th].kind.Thread?
      case _ => true
  {
    hide RootList, StringTable, UpvalHead, PhaseInv, Shapes, NoDup;
    forall v | Reachable(s, v) ensures Live(s, v) { ReachableLive(s, v); }
  }

  /** One event. */
  ghost function Apply(s: State, e: Event): (r: State)
    requires Inv(s) && Enabled(s, e)
    ensures Inv(r)
  {
    hide RootList, StringTable, OpenLists, UpvalHead, Shapes, Safe, PhaseInv, ReachableIn, SingleStep, CloseFirst, OnStack, DoStore, NoDup,
      Roots;
    EnabledLive(s, e);
    match e
    case Collect => SingleStepKeeps(s); SingleStep(s)
    case New(id, kind, refs) =>
      CreateKeeps(s, id, kind, refs);
      var s1 := Create(s, id, kind, refs);
      OnStackKeeps(s1, id);
      OnStack(s1, id)
    case NewUdata(id, refs) =>
      CreateUdataKeeps(s, id, refs);
      var s1 := CreateUdata(s, id, refs);
      OnStackKeeps(s1, id);
      OnStack(s1, id)
    case NewString(id, hash, fixed) =>
      CreateStringKeeps(s, id, hash, fixed);
      var s1 := CreateString(s, id, hash, fixed);
      OnStackKeeps(s1, id);
      OnStack(s1, id)
    case NewUpval(id, refs, pos) =>
      CreateUpvalKeeps(s, id, refs, pos);
      var s1 := CreateUpval(s, id, refs, pos);
      OnStackKeeps(s1, id);
      OnStack(s1, id)
    case FindString(id) =>
      StringHoldsNothing(s, id);
      ResurrectKeeps(s, id);
      var s1 := Resurrect(s, id);
      OnStackKeeps(s1, id);
      OnStack(s1, id)
    case FindUpval(id) =>
      ResurrectKeeps(s, id);
      var s1 := Resurrect(s, id);
      OnStackKeeps(s1, id);
      OnStack(s1, id)
    case Store(o, refs, v) =>
      StoreKeeps(s, o, refs, v);
      DoStore(s, o, refs, v)
    case Close(th) =>
      CloseKeeps(s, th);
      CloseFirst(s, th)
    case SetMetatables(mt) =>
      RunningLive(s);
      NewRootsKeep(s, mt, s.running);
      s.(mt := mt, running := s.running)
    case Resume(th) =>
      RunningLive(s);
      NewRootsKeep(s, s.mt, th);
      s.(mt := s.mt, running := th)
  }

  lemma StringHoldsNothing(s: State, id: Id)
    requires Inv(s) && id in s.heap && s.heap[id].kind.Str?
    ensures s.heap[id].refs == []
  {
  }

  lemma RunningLive(s: State)
    requires Inv(s)
    ensures Live(s, s.running) && s.heap[s.running].kind.Thread? && forall v :: v in s.mt ==> Live(s, v)
  {
    assert s.running in Roots(s) && forall v :: v in s.mt ==> v in Roots(s);
  }

  // ------------------------------------------------------------------ one event

  lemma CollectFreesDead(s: State, id: Id)
    requires Inv(s) && Live(s, id)
    ensures id in SingleStep(s).heap
  {
    hide Lists, Shapes, Safe, PhaseInv, SingleStep;
    SingleStepKeeps(s);
  }

  lemma CloseFreesDead(s: State, th: Id, id: Id)
    requires Inv(s) && th in s.open && s.open[th] != [] && OpenList(s.heap, s.open[th])
    requires s.phase.Propagate? ==> NoDangling(s) && AllIn(s.heap[s.open[th][0]].refs, s.heap)
    requires Live(s, id)
    ensures id in CloseFirst(s, th).heap
  {
    hide Lists, Shapes, Safe, PhaseInv, Barrier;
  }

  /** One event never frees an object the program can reach. */
  lemma StepFreesNothingReachable(s: State, e: Event, id: Id)
    requires Inv(s) && Enabled(s, e) && Reachable(s, id)
    ensures id in s.heap && !IsDead(s, id) && id in Apply(s, e).heap
  {
    hide Inv, Reachable, SingleStep, CloseFirst, ReachableIn, Barrier, NoDangling, OpenList, OnStack, DoStore;
    InvReachableLive(s, id);
    match e {
      case Collect => CollectFreesDead(s, id);
      case Close(th) => CloseKeeps(s, th); CloseFreesDead(s, th, id);
      case _ =>
    }
  }

  lemma InvReachableLive(s: State, id: Id)
    requires Inv(s) && Reachable(s, id)
    ensures Coloured(s) && Live(s, id)
  {
    hide Shapes, PhaseInv, ReachableIn, RootList, StringTable, OpenLists, UpvalHead;
    ReachableLive(s, id);
  }

  // -------------------------------------------------------------- first state

  /** A new Lua state: the main thread, its table of globals and the registry. */
  function Initial(main: Id, globals: Id, registry: Id, buckets: nat): State {
    State(map[main := Object(Thread, true, [globals]), globals := Object(Tab, false, []),
              registry := Object(Tab, false, [])],
          map[main := White(false), globals := White(false), registry := White(false)], false, Pause,
          [registry, globals, main], seq(buckets, _ => []), map[main := []], [], [], [], 0, 0,
          main, registry, [], main)
  }

  lemma InitialLists(main: Id, globals: Id, registry: Id, buckets: nat)
    requires main != globals && main != registry && globals != registry && buckets > 0
    ensures Lists(Initial(main, globals, registry, buckets))
  {
    hide RootList, StringTable, OpenLists, UpvalHead;
    InitialRootList(main, globals, registry, buckets);
    InitialOthers(Initial(main, globals, registry, buckets).heap, buckets, main);
  }

  lemma InitialRootList(main: Id, globals: Id, registry: Id, buckets: nat)
    requires main != globals && main != registry && globals != registry
    ensures var s := Initial(main, globals, registry, buckets); RootList(s.rootgc, s.heap)
  {
    var s := Initial(main, globals, registry, buckets);
    forall id ensures id in s.rootgc <==> id in s.heap {}
  }

  lemma InitialOthers(heap: Heap, buckets: nat, main: Id)
    requires buckets > 0 && main in heap && heap[main].kind.Thread?
    requires forall id :: id in heap && id != main ==> heap[id].kind.Tab?
    ensures StringTable(seq(buckets, _ => []), heap) && OpenLists(map[main := []], heap) && UpvalHead([], heap)
  {
  }

  lemma InitialShapes(main: Id, globals: Id, registry: Id, buckets: nat)
    requires main != globals && main != registry && globals != registry
    ensures var s := Initial(main, globals, registry, buckets);
      Coloured(s) && Shapes(s.heap, s.marked, s.main) && AllWhite(s) && Safe(s)
  {
  }

  /** Every run can start: the invariant holds of a new Lua state. */
  lemma InitialInv(main: Id, globals: Id, registry: Id, buckets: nat)
    requires main != globals && main != registry && globals != registry && buckets > 0
    ensures Inv(Initial(main, globals, registry, buckets))
    ensures Reachable(Initial(main, globals, registry, buckets), globals)
  {
    InitialLists(main, globals, registry, buckets);
    InitialShapes(main, globals, registry, buckets);
    hide RootList, StringTable, OpenLists, UpvalHead, Shapes, Safe, AllWhite;
    var s := Initial(main, globals, registry, buckets);
    var p := [main, globals];
    assert IsPath(s.heap, p) && p[0] in Roots(s) && p[|p| - 1] == globals;
  }

  // ------------------------------------------------------------------- runs

  /** What an event may lead to. Its outcome is fixed only where the invariant holds; where it
      fails, a routine may follow a dangling pointer and anything may come of it. */
  ghost predicate Happens(s: State, e: Event, r: State) {
    Enabled(s, e) && (Inv(s) ==> r == Apply(s, e))
  }

  /** The first state of a program. */
  ghost predicate IsInitial(s: State) {
    exists main, globals, registry, buckets: nat ::
      main != globals && main != registry && globals != registry && buckets > 0
      && s == Initial(main, globals, registry, buckets)
  }

  /** A run of the program and the collector, from a new Lua state. */
  ghost predicate IsRun(states: seq<State>, events: seq<Event>) {
    && |states| == |events| + 1 && IsInitial(states[0])
    && forall i {:trigger events[i]} :: 0 <= i < |events| ==> Happens(states[i], events[i], states[i + 1])
  }

  /** The invariant holds in every state of every run. */
  lemma {:induction false} RunKeeps(states: seq<State>, events: seq<Event>, i: nat)
    requires IsRun(states, events) && i < |states|
    ensures Inv(states[i])
  {
    hide Inv, Enabled;
    if i == 0 {
      var main, globals, registry, buckets: nat :|
        main != globals && main != registry && globals != registry && buckets > 0
        && states[0] == Initial(main, globals, registry, buckets);
      InitialInv(main, globals, registry, buckets);
    } else {
      RunKeeps(states, events, i - 1);
      assert Happens(states[i - 1], events[i - 1], states[i - 1 + 1]);
    }
  }

  /** The safety theorem: in every state of every run, whatever is reachable from the
      roots is allocated and not condemned, and the next event does not free it. */
  lemma RunsAreSafe(states: seq<State>, events: seq<Event>, i: nat, id: Id)
    requires IsRun(states, events) && i < |states| && Reachable(states[i], id)
    ensures Inv(states[i]) && id in states[i].heap && !IsDead(states[i], id)
    ensures i < |events| ==> id in states[i + 1].heap
  {
    hide Inv, Enabled, Reachable;
    RunKeeps(states, events, i);
    InvReachableLive(states[i], id);
    if i < |events| {
      assert Happens(states[i], events[i], states[i + 1]);
      StepFreesNothingReachable(states[i], events[i], id);
    }
  }
}
