/** One cycle of the collector among the events of the program: what was unreachable when the
    cycle started is freed by the end of its sweep. */
module GcCycle {
  import opened GcModel
  import opened GcMark
  import opened GcInvariant
  import opened GcSweep
  import opened GcStep
  import opened GcProgram
  import opened GcAlloc
  import opened GcClose
  import opened GcRun
  import opened GcSpared
  import opened GcFull

  /** Unmarked while the collector marks, condemned while it sweeps. */
  predicate Doomed(s: State, id: Id)
    requires id in s.marked
  {
    if s.phase.Propagate? then IsWhite(s, id) else IsDead(s, id)
  }

  /** The program has no way to get at the objects of `g`, and the cycle is about to free them. */
  ghost predicate Lost(s: State, g: set<Id>)
    requires Coloured(s)
  {
    && Sealed(s.heap, g) && Outside(Roots(s), g)
    && forall id :: id in g ==> id in s.heap && !s.heap[id].fixed && Doomed(s, id)
  }

  /** What happened between `s` and `r` left `g` alone. */
  ghost predicate Aloof(s: State, r: State, g: set<Id>)
    requires Coloured(s) && Coloured(r)
  {
    && r.phase == s.phase && Sealed(r.heap, g) && Outside(Roots(r), g)
    && forall id :: id in g && id in r.heap ==>
         id in s.heap && r.heap[id].fixed == s.heap[id].fixed && (Doomed(s, id) ==> Doomed(r, id))
  }

  /** What is left of `g`. */
  function Left(g: set<Id>, r: State): set<Id> {
    set id | id in g && id in r.heap
  }

  lemma AloofLost(s: State, r: State, g: set<Id>)
    requires Coloured(s) && Coloured(r) && Lost(s, g) && Aloof(s, r, g)
    ensures Lost(r, Left(g, r))
  {
  }

  lemma AloofTrans(a: State, b: State, c: State, g: set<Id>)
    requires Coloured(a) && Coloured(b) && Coloured(c) && Aloof(a, b, g) && Aloof(b, c, g)
    requires forall id :: id in g && id in c.heap ==> id in b.heap
    ensures Aloof(a, c, g)
  {
    hide Sealed, Outside, Doomed;
  }

  // -------------------------------------------------------- the program's events

  lemma {:induction false} PathOutside(s: State, g: set<Id>, p: seq<Id>)
    requires Sealed(s.heap, g) && Outside(Roots(s), g) && IsPath(s.heap, p) && p[0] in Roots(s)
    ensures p[|p| - 1] !in g
    decreases |p|
  {
    if |p| > 1 {
      var q := p[..|p| - 1];
      PathOutside(s, g, q);
      assert p[|p| - 2 + 1] in s.heap[p[|p| - 2]].refs;
    }
  }

  /** What the program can reach is not lost. */
  lemma ReachableOutside(s: State, g: set<Id>, id: Id)
    requires Sealed(s.heap, g) && Outside(Roots(s), g) && Reachable(s, id)
    ensures id !in g
  {
    var p :| IsPath(s.heap, p) && p[0] in Roots(s) && p[|p| - 1] == id;
    PathOutside(s, g, p);
  }

  lemma AllOutside(s: State, g: set<Id>, ids: seq<Id>)
    requires Sealed(s.heap, g) && Outside(Roots(s), g) && forall id :: id in ids ==> Reachable(s, id)
    ensures Outside(ids, g)
  {
    hide Reachable;
    forall id | id in ids ensures id !in g { ReachableOutside(s, g, id); }
  }

  ghost predicate AllDoomed(s: State, g: set<Id>)
    requires Coloured(s)
  {
    forall id :: id in g && id in s.heap ==> Doomed(s, id)
  }

  lemma BarrierAloof(s: State, o: Id, v: Id, g: set<Id>)
    requires Coloured(s) && o in s.heap && v in s.heap && v !in g && (s.phase.Propagate? ==> NoDangling(s))
    requires Sealed(s.heap, g) && Outside(Roots(s), g) && AllDoomed(s, g)
    ensures Aloof(s, Barrier(s, o, v), g)
  {
    hide Sealed, Outside, ReallyMark;
    var r := Barrier(s, o, v);
    assert Roots(r) == Roots(s) && r.heap == s.heap;
    if s.phase.Propagate? && IsWhite(s, v) && s.marked[o].Black? && !s.heap[o].kind.Tab? { ReallyMarkSpares(s, g, v); }
  }

  lemma StoreAloof(s: State, o: Id, refs: seq<Id>, v: Id, g: set<Id>)
    requires Inv(s) && Storable(s, o, refs, v) && v !in g
    requires Sealed(s.heap, g) && Outside(Roots(s), g) && AllDoomed(s, g)
    ensures Coloured(s) && Coloured(DoStore(s, o, refs, v)) && Aloof(s, DoStore(s, o, refs, v), g)
  {
    hide Inv, Outside, Barrier;
    StoreFits(s, o, refs, v);
    var s0 := Assign(s, o, refs);
    assert Roots(s0) == Roots(s);
    BarrierAloof(s0, o, v, g);
  }

  lemma StoreFits(s: State, o: Id, refs: seq<Id>, v: Id)
    requires Inv(s) && Storable(s, o, refs, v)
    ensures Coloured(s) && Coloured(Assign(s, o, refs)) && (s.phase.Propagate? ==> NoDangling(Assign(s, o, refs)))
    ensures DoStore(s, o, refs, v) == Barrier(Assign(s, o, refs), o, v)
  {
    StoreReady(s, o, refs, v);
    hide RootList, StringTable, OpenLists, UpvalHead, Shapes, Safe, PhaseInv, Barrier;
  }

  /** An object goes on the running thread's stack. */
  lemma StackAloof(s: State, id: Id, g: set<Id>)
    requires Inv(s) && Live(s, id) && id !in g && Sealed(s.heap, g) && Outside(Roots(s), g) && AllDoomed(s, g)
    ensures Coloured(s) && Coloured(OnStack(s, id)) && Aloof(s, OnStack(s, id), g)
  {
    hide Inv, Sealed, Outside, AllDoomed, DoStore;
    OnStackKeeps(s, id);
    StackFits(s, id);
    StoreAloof(s, s.running, s.heap[s.running].refs + [id], id, g);
  }

  lemma StackFits(s: State, id: Id)
    requires Inv(s) && Live(s, id)
    ensures s.running in s.heap && Storable(s, s.running, s.heap[s.running].refs + [id], id)
  {
    hide RootList, StringTable, OpenLists, UpvalHead, Shapes, PhaseInv;
    assert s.running in Roots(s) && Live(s, s.running);
  }

  /** A new object that refers to reachable ones, pushed on the stack. */
  lemma NewAloof(s: State, id: Id, o: Object, s1: State, g: set<Id>)
    requires Inv(s) && id !in s.heap && Lost(s, g) && Inv(s1) && Live(s1, id) && Outside(o.refs, g)
    requires s1.heap == s.heap[id := o] && s1.marked == s.marked[id := White(s.white)]
    requires Roots(s1) == Roots(s) && s1.phase == s.phase && s1.white == s.white
    ensures Coloured(OnStack(s1, id)) && Aloof(s, OnStack(s1, id), g)
  {
    hide Inv, Outside, OnStack;
    NewSealed(s, id, o, s1, g);
    StackAloof(s1, id, g);
    AloofTrans(s, s1, OnStack(s1, id), g);
  }

  lemma NewSealed(s: State, id: Id, o: Object, s1: State, g: set<Id>)
    requires Inv(s) && Inv(s1) && id !in s.heap && Lost(s, g) && Outside(o.refs, g)
    requires s1.heap == s.heap[id := o] && s1.marked == s.marked[id := White(s.white)]
    requires Roots(s1) == Roots(s) && s1.phase == s.phase && s1.white == s.white
    ensures Coloured(s) && Coloured(s1) && id !in g && Sealed(s1.heap, g) && Outside(Roots(s1), g)
    ensures AllDoomed(s1, g) && Aloof(s, s1, g)
  {
    hide RootList, StringTable, OpenLists, UpvalHead, Shapes, PhaseInv, Safe;
  }

  /** A string or upvalue that is found again leaves `g` first. */
  lemma FoundLost(s: State, id: Id, g: set<Id>)
    requires Coloured(s) && Lost(s, g) && id in s.heap && Outside(s.heap[id].refs, g)
    ensures Lost(s, g - {id})
  {
  }

  lemma FindAloof(s: State, id: Id, g: set<Id>)
    requires Inv(s) && Coloured(s) && id in s.heap && id !in g && Lost(s, g)
    requires Inv(Resurrect(s, id)) && Live(Resurrect(s, id), id)
    ensures Coloured(s) && Coloured(OnStack(Resurrect(s, id), id)) && Aloof(s, OnStack(Resurrect(s, id), id), g)
  {
    hide Inv, Sealed, Outside, OnStack;
    var s1 := Resurrect(s, id);
    FindMarks(s, id, g);
    StackAloof(s1, id, g);
    AloofTrans(s, s1, OnStack(s1, id), g);
  }

  lemma FindMarks(s: State, id: Id, g: set<Id>)
    requires Inv(s) && id in s.heap && id !in g && Lost(s, g)
    ensures var s1 := Resurrect(s, id);
      && Coloured(s) && Coloured(s1) && s1.heap == s.heap && Sealed(s1.heap, g) && Outside(Roots(s1), g)
      && AllDoomed(s1, g) && Aloof(s, s1, g)
  {
    hide RootList, StringTable, OpenLists, UpvalHead, Shapes, PhaseInv, Safe, Sealed, Outside;
    assert Roots(Resurrect(s, id)) == Roots(s);
  }

  lemma CloseDeadAloof(s: State, th: Id, g: set<Id>)
    requires Coloured(s) && th in s.open && s.open[th] != [] && OpenList(s.heap, s.open[th]) && s.open[th][0] in s.heap
    requires s.phase.Propagate? ==> NoDangling(s) && AllIn(s.heap[s.open[th][0]].refs, s.heap)
    requires IsDead(s, s.open[th][0]) && Lost(s, g)
    ensures Aloof(s, CloseFirst(s, th), g)
  {
    hide Outside, RefsClosed, AllIn;
    assert Roots(CloseFirst(s, th)) == Roots(s);
  }

  /** What `luaC_linkupval` makes of an upvalue that has just been closed. */
  lemma LinkedAloof(s: State, th: Id, g: set<Id>)
    requires Coloured(s) && th in s.open && s.open[th] != [] && OpenList(s.heap, s.open[th]) && s.open[th][0] in s.heap
    requires s.phase.Propagate? ==> NoDangling(s) && AllIn(s.heap[s.open[th][0]].refs, s.heap)
    requires !IsDead(s, s.open[th][0]) && Lost(s, g)
    ensures Aloof(s, CloseFirst(s, th), g)
  {
    hide Outside, Barrier;
    var uv, m, r := s.open[th][0], Moved(s, th), CloseFirst(s, th);
    MovedAloof(s, th, g);
    if s.marked[uv].Gray? && s.phase.Propagate? {
      BlackenAloof(s, m, uv, r, g);
    } else if s.marked[uv].Gray? {
      assert Roots(r) == Roots(m);
    }
  }

  lemma BlackenAloof(s: State, m: State, uv: Id, r: State, g: set<Id>)
    requires Coloured(s) && Coloured(m) && NoDangling(m) && m.phase.Propagate? && uv in m.heap && m.marked[uv].Gray?
    requires Sealed(m.heap, g) && Outside(Roots(m), g) && AllDoomed(m, g) && Aloof(s, m, g) && m.heap.Keys == s.heap.Keys
    requires r == Blacken(m, uv)
    ensures Coloured(r) && Aloof(s, r, g)
  {
    hide Outside, Barrier, RefsClosed, AllIn, Sealed, Doomed;
    var b := Paint(m, uv, Black);
    BlackAloof(m, uv, g);
    if m.heap[uv].refs != [] {
      RefOutside(m.heap, g, uv);
      BarrierAloof(b, uv, m.heap[uv].refs[0], g);
      AloofTrans(m, b, r, g);
    }
    AloofTrans(s, m, r, g);
  }

  lemma RefOutside(heap: Heap, g: set<Id>, o: Id)
    requires RefsClosed(heap) && Sealed(heap, g) && o in heap && o !in g && heap[o].refs != []
    ensures heap[o].refs[0] in heap && heap[o].refs[0] !in g
  {
    assert heap[o].refs[0] in heap[o].refs;
  }

  lemma CloseAloof(s: State, th: Id, g: set<Id>)
    requires Coloured(s) && th in s.open && s.open[th] != [] && OpenList(s.heap, s.open[th])
    requires s.phase.Propagate? ==> NoDangling(s) && AllIn(s.heap[s.open[th][0]].refs, s.heap)
    requires Lost(s, g)
    ensures Aloof(s, CloseFirst(s, th), g)
  {
    assert s.open[th][0] in s.open[th];
    if IsDead(s, s.open[th][0]) { CloseDeadAloof(s, th, g); } else { LinkedAloof(s, th, g); }
  }

  lemma MovedAloof(s: State, th: Id, g: set<Id>)
    requires Coloured(s) && th in s.open && s.open[th] != [] && s.open[th][0] in s.heap && Lost(s, g)
    ensures var m := Moved(s, th);
      && Coloured(m) && Sealed(m.heap, g) && Outside(Roots(m), g) && AllDoomed(m, g) && Aloof(s, m, g)
  {
    hide Outside;
    assert Roots(Moved(s, th)) == Roots(s);
  }

  lemma BlackAloof(m: State, uv: Id, g: set<Id>)
    requires Coloured(m) && m.phase.Propagate? && uv in m.heap && m.marked[uv].Gray?
    requires Sealed(m.heap, g) && Outside(Roots(m), g) && AllDoomed(m, g)
    ensures var b := Paint(m, uv, Black);
      && Coloured(b) && Sealed(b.heap, g) && Outside(Roots(b), g) && AllDoomed(b, g) && Aloof(m, b, g) && uv !in g
  {
    hide Outside, Sealed;
    assert Roots(Paint(m, uv, Black)) == Roots(m);
  }

  // -------------------------------------------------------- the collector's steps

  /** The cycle starts: nothing unreachable is marked. */
  lemma StartLoses(s: State)
    requires Inv(s) && s.phase.Pause?
    ensures Coloured(s) && Coloured(SingleStep(s)) && SingleStep(s).phase.Propagate?
    ensures Lost(SingleStep(s), Condemned(s))
  {
    hide RootList, StringTable, OpenLists, UpvalHead, ReachableIn, Sealed, Spared, MarkSeq, RootSet, RefsClosed;
    var g := Condemned(s);
    var s0 := s.(gray := [], grayagain := [], phase := Propagate);
    var r := SingleStep(s);
    MarkRootKeeps(s);
    CondemnedSealed(s);
    WhiteSpared(s0, g);
    RootSetOutside(s, g);
    MarkSeqSpares(s0, g, RootSet(s));
    assert r == MarkSeq(s0, RootSet(s)) && Roots(r) == Roots(s);
    SparedLost(r, g);
  }

  /** What the program cannot reach, fixed strings apart. */
  ghost function Condemned(s: State): set<Id> {
    set id | id in s.heap && !Reachable(s, id) && !s.heap[id].fixed
  }

  lemma CondemnedSealed(s: State)
    requires Inv(s)
    ensures Sealed(s.heap, Condemned(s)) && Outside(Roots(s), Condemned(s))
  {
    hide RootList, StringTable, OpenLists, UpvalHead, ReachableIn, PhaseInv, Safe;
    forall id, v | id in s.heap && id !in Condemned(s) && v in s.heap[id].refs ensures v !in Condemned(s) {
      if id == s.main { RootReachable(s, id); }
      RefReachable(s, id, v);
    }
    forall id | id in Roots(s) ensures id !in Condemned(s) { RootReachable(s, id); }
  }

  lemma RootSetOutside(s: State, g: set<Id>)
    requires s.main in s.heap && Sealed(s.heap, g) && Outside(Roots(s), g)
    ensures Outside(RootSet(s), g)
  {
    hide Reachable;
    RootSetReachable(s);
    AllOutside(s, g, RootSet(s));
  }

  lemma SparedLost(s: State, g: set<Id>)
    requires Coloured(s) && s.phase.Propagate? && Sealed(s.heap, g) && Outside(Roots(s), g) && Spared(s, g)
    requires forall id :: id in g ==> id in s.heap && !s.heap[id].fixed
    ensures Lost(s, g)
  {
  }

  lemma LostSpared(s: State, g: set<Id>)
    requires Coloured(s) && s.phase.Propagate? && Lost(s, g)
    ensures Spared(s, g)
  {
  }

  lemma PropagateLoses(s: State, g: set<Id>)
    requires Inv(s) && Coloured(s) && s.phase.Propagate? && s.gray != [] && Lost(s, g)
    ensures Coloured(SingleStep(s)) && Lost(SingleStep(s), g) && SingleStep(s).phase.Propagate?
  {
    hide RootList, StringTable, OpenLists, UpvalHead, Shapes, Safe, Sealed, Spared, Outside, MarkSeq, Shaded, RefsClosed;
    StepReady(s);
    LostSpared(s, g);
    PropagateSpares(s, g);
    assert Roots(SingleStep(s)) == Roots(s);
    SparedLost(PropagateMark(s), g);
  }

  /** After the flip what has not been marked is dead. */
  lemma AtomicLoses(s: State, g: set<Id>)
    requires Inv(s) && Coloured(s) && s.phase.Propagate? && s.gray == [] && Lost(s, g)
    ensures Coloured(SingleStep(s)) && Lost(SingleStep(s), g) && SingleStep(s).phase.SweepString?
  {
    hide RootList, StringTable, OpenLists, UpvalHead, Shapes, Safe, Sealed, Outside, MarkRest, Tri, ReadyForAtomic, MarkedClosed;
    AtomicReady(s);
    LostSpared(s, g);
    MarkRestSpares(s, g);
    MarkRestKeeps(s);
    var r := SingleStep(s);
    FlipSafe(MarkRest(s), r);
    assert Roots(r) == Roots(s);
  }

  lemma SweepLoses(s: State, r: State, g: set<Id>)
    requires Coloured(s) && Lost(s, g) && !s.phase.Propagate? && !r.phase.Propagate? && SweepEffect(s, r)
    ensures Lost(r, Left(g, r))
  {
    hide Outside;
    assert Roots(r) == Roots(s);
    forall id | id in Left(g, r) ensures !r.heap[id].fixed && Doomed(r, id) { assert Doomed(s, id) && !Survives(s, id); }
    forall id, v | id in r.heap && id !in Left(g, r) && v in r.heap[id].refs ensures v !in Left(g, r) { assert v in s.heap[id].refs; }
    OutsideLeft(Roots(s), g, r);
  }

  lemma OutsideLeft(ids: seq<Id>, g: set<Id>, r: State)
    requires Outside(ids, g)
    ensures Outside(ids, Left(g, r))
  {
  }

  lemma PhaseEffect(s: State, r: State)
    requires Coloured(s) && r == s.(phase := r.phase)
    ensures SweepEffect(s, r)
  {
  }

  /** The phases between the start of a cycle and the end of its sweep. */
  predicate Busy(p: Phase) {
    p.Propagate? || p.SweepString? || p.Sweep?
  }

  lemma CollectLoses(s: State, g: set<Id>)
    requires Inv(s) && Coloured(s) && Busy(s.phase) && Lost(s, g)
    ensures var r := SingleStep(s); Coloured(r) && Lost(r, Left(g, r)) && (Busy(r.phase) || r.phase.Finalize?)
  {
    hide RootList, StringTable, OpenLists, UpvalHead, Shapes, Safe, Sealed, Outside, MarkRest, Tri, SweepList;
    var r := SingleStep(s);
    match s.phase {
      case Propagate =>
        if s.gray != [] { PropagateLoses(s, g); } else { AtomicLoses(s, g); }
        assert Left(g, r) == g;
      case SweepString =>
        SweepBucketEffect(s);
        SweepLoses(s, r, g);
      case Sweep =>
        SweepListKeeps(s, SWEEPMAX);
        var t := SweepList(s, SWEEPMAX);
        if t == s { PhaseEffect(s, r); } else { PhaseEffect(t, r); SweepEffectTrans(s, t, r); }
        SweepLoses(s, r, g);
    }
  }

  // ----------------------------------------------------------------- one event

  predicate Finds(e: Event, id: Id) {
    e == FindString(id) || e == FindUpval(id)
  }

  /** The objects an event finds again. */
  function Found(e: Event): set<Id> {
    match e
    case FindString(id) => {id}
    case FindUpval(id) => {id}
    case _ => {}
  }

  lemma FoundIff(e: Event, id: Id)
    ensures id in Found(e) <==> Finds(e, id)
  {
  }

  /** In the middle of a cycle an event frees what is lost, or leaves it lost, unless it finds
      it again. */
  lemma EventLoses(s: State, e: Event, g: set<Id>)
    requires Inv(s) && Coloured(s) && Enabled(s, e) && Busy(s.phase) && Lost(s, g)
    ensures var r := Apply(s, e); Coloured(r) && Lost(r, Left(g - Found(e), r)) && (Busy(r.phase) || r.phase.Finalize?)
  {
    hide Inv, Enabled, Lost, Aloof, Apply, SingleStep;
    ApplyColoured(s, e);
    if e.Collect? {
      CollectLoses(s, g);
      ApplyCollect(s);
      assert g - Found(e) == g;
    } else {
      EventAloof(s, e, g);
      AloofLost(s, Apply(s, e), g - Found(e));
      AloofPhase(s, Apply(s, e), g - Found(e));
    }
  }

  lemma ApplyColoured(s: State, e: Event)
    requires Inv(s) && Enabled(s, e)
    ensures Coloured(Apply(s, e))
  {
    hide Enabled, Apply;
    assert Inv(Apply(s, e));
  }

  lemma ApplyCollect(s: State)
    requires Inv(s)
    ensures Apply(s, Collect) == SingleStep(s)
  {
    hide Inv, SingleStep;
  }

  lemma AloofPhase(s: State, r: State, g: set<Id>)
    requires Coloured(s) && Coloured(r) && Aloof(s, r, g)
    ensures r.phase == s.phase
  {
  }

  lemma InvBucket(s: State)
    requires Inv(s)
    ensures |s.strt| > 0
  {
  }

  lemma NewEventAloof(s: State, e: Event, g: set<Id>)
    requires Inv(s) && Coloured(s) && Enabled(s, e) && Lost(s, g) && (e.New? || e.NewUdata? || e.NewString? || e.NewUpval?)
    ensures Coloured(Apply(s, e)) && Aloof(s, Apply(s, e), g)
  {
    hide Inv, Aloof, OnStack, Sealed, Outside, Reachable, Storable;
    EnabledLive(s, e);
    match e {
      case New(id, kind, refs) =>
        AllOutside(s, g, refs);
        CreateKeeps(s, id, kind, refs);
        NewAloof(s, id, Object(kind, false, refs), Create(s, id, kind, refs), g);
      case NewUdata(id, refs) =>
        AllOutside(s, g, refs);
        CreateUdataKeeps(s, id, refs);
        NewAloof(s, id, Object(Udata, false, refs), CreateUdata(s, id, refs), g);
      case NewString(id, hash, fixed) =>
        AllOutside(s, g, []);
        InvBucket(s);
        CreateStringKeeps(s, id, hash, fixed);
        NewAloof(s, id, Object(Str(hash), fixed, []), CreateString(s, id, hash, fixed), g);
      case NewUpval(id, refs, pos) =>
        AllOutside(s, g, refs);
        CreateUpvalKeeps(s, id, refs, pos);
        NewAloof(s, id, Object(OpenUpval(s.running), false, refs), CreateUpval(s, id, refs, pos), g);
    }
  }

  lemma FindEventAloof(s: State, e: Event, id: Id, g: set<Id>)
    requires Inv(s) && Coloured(s) && Enabled(s, e) && Lost(s, g) && Finds(e, id)
    ensures Coloured(Apply(s, e)) && Lost(s, g - {id}) && Aloof(s, Apply(s, e), g - {id})
  {
    hide Inv, Aloof, OnStack, Sealed, Outside, Reachable, Storable;
    EnabledLive(s, e);
    if e.FindString? { StringHoldsNothing(s, id); }
    AllOutside(s, g, s.heap[id].refs);
    FoundLost(s, id, g);
    ResurrectKeeps(s, id);
    FindAloof(s, id, g - {id});
  }

  lemma OtherEventAloof(s: State, e: Event, g: set<Id>)
    requires Inv(s) && Coloured(s) && Enabled(s, e) && Lost(s, g)
    requires e.Store? || e.Close? || e.SetMetatables? || e.Resume?
    ensures Coloured(Apply(s, e)) && Aloof(s, Apply(s, e), g)
  {
    hide Inv, Aloof, Reachable, Storable, DoStore, CloseFirst, Lost, AllDoomed;
    EnabledLive(s, e);
    LostParts(s, g);
    match e {
      case Store(o, refs, v) =>
        ReachableOutside(s, g, v);
        StoreAloof(s, o, refs, v, g);
      case Close(th) =>
        CloseKeeps(s, th);
        CloseAloof(s, th, g);
      case SetMetatables(mt) =>
        AllOutside(s, g, mt);
        RunningLive(s);
        NewRootsAloof(s, mt, s.running, g);
      case Resume(th) =>
        ReachableOutside(s, g, th);
        RunningLive(s);
        NewRootsAloof(s, s.mt, th, g);
    }
  }

  lemma LostParts(s: State, g: set<Id>)
    requires Coloured(s) && Lost(s, g)
    ensures Sealed(s.heap, g) && Outside(Roots(s), g) && AllDoomed(s, g) && s.running !in g && Outside(s.mt, g)
  {
    assert s.running in Roots(s) && forall id :: id in s.mt ==> id in Roots(s);
  }

  lemma NewRootsAloof(s: State, mt: seq<Id>, th: Id, g: set<Id>)
    requires Coloured(s) && Lost(s, g) && Outside(mt, g) && th !in g
    ensures Aloof(s, s.(mt := mt, running := th), g)
  {
    assert s.main in Roots(s) && s.registry in Roots(s);
  }

  lemma EventAloof(s: State, e: Event, g: set<Id>)
    requires Inv(s) && Coloured(s) && Enabled(s, e) && !e.Collect? && Lost(s, g)
    ensures Coloured(Apply(s, e)) && Lost(s, g - Found(e)) && Aloof(s, Apply(s, e), g - Found(e))
  {
    hide Inv, Lost, Aloof, Apply;
    ApplyColoured(s, e);
    match e {
      case New(id, kind, refs) => NewEventAloof(s, e, g);
      case NewUdata(id, refs) => NewEventAloof(s, e, g);
      case NewString(id, hash, fixed) => NewEventAloof(s, e, g);
      case NewUpval(id, refs, pos) => NewEventAloof(s, e, g);
      case FindString(id) => FindEventAloof(s, e, id, g);
      case FindUpval(id) => FindEventAloof(s, e, id, g);
      case _ => OtherEventAloof(s, e, g);
    }
    if !e.FindString? && !e.FindUpval? { assert g - Found(e) == g; }
  }

  // ------------------------------------------------------------------ the theorem

  /** From state `a` on, where a cycle starts, to state `k`, before which its sweep has not ended,
      the object has not been freed nor found again. */
  ghost predicate Forgotten(states: seq<State>, events: seq<Event>, a: nat, k: nat, id: Id)
    requires k < |states| == |events| + 1
  {
    && a < k && states[a].phase.Pause? && events[a].Collect?
    && id in states[a].heap && !states[a].heap[id].fixed && !Reachable(states[a], id)
    && (forall m :: a < m < k ==> !states[m].phase.Finalize? && !Finds(events[m], id))
    && forall m :: a < m <= k ==> id in states[m].heap
  }

  lemma {:induction false} StaysLost(states: seq<State>, events: seq<Event>, a: nat, k: nat, id: Id) returns (g: set<Id>)
    requires IsRun(states, events) && k < |states| && Forgotten(states, events, a, k, id)
    ensures Coloured(states[k]) && Lost(states[k], g) && id in g && (Busy(states[k].phase) || states[k].phase.Finalize?)
    decreases k - a
  {
    hide Inv, Enabled, Lost, Apply, Reachable, SingleStep;
    if k == a + 1 {
      RunKeeps(states, events, a);
      assert Happens(states[a], events[a], states[a + 1]);
      ApplyCollect(states[a]);
      StartLoses(states[a]);
      g := Condemned(states[a]);
    } else {
      var h := StaysLost(states, events, a, k - 1, id);
      var s, e := states[k - 1], events[k - 1];
      RunKeeps(states, events, k - 1);
      assert Happens(s, e, states[k - 1 + 1]);
      EventLoses(s, e, h);
      FoundIff(e, id);
      g := Left(h - Found(e), states[k]);
    }
  }

  /** An object that is unreachable when a cycle starts, and is not fixed, is freed before the
      sweep of the cycle ends, whatever the program does meanwhile, unless the program finds it
      again, as only a string or an upvalue can be. */
  lemma CycleReclaims(states: seq<State>, events: seq<Event>, a: nat, b: nat, id: Id)
    requires IsRun(states, events) && a < b < |states|
    requires states[a].phase.Pause? && events[a].Collect? && states[b].phase.Finalize?
    requires forall m :: a < m < b ==> !states[m].phase.Finalize? && !Finds(events[m], id)
    requires id in states[a].heap && !states[a].heap[id].fixed && !Reachable(states[a], id)
    ensures exists m :: a < m <= b && id !in states[m].heap
  {
    hide Inv, Enabled, Lost, Apply, Reachable;
    if forall m :: a < m <= b ==> id in states[m].heap {
      var g := StaysLost(states, events, a, b, id);
      RunKeeps(states, events, b);
      NoneLost(states[b], g, id);
    }
  }

  /** After the sweep nothing is condemned. */
  lemma NoneLost(s: State, g: set<Id>, id: Id)
    requires Inv(s) && Coloured(s) && s.phase.Finalize? && Lost(s, g)
    ensures id !in g
  {
    hide RootList, StringTable, OpenLists, UpvalHead, Shapes, Safe, Sealed, Outside;
  }
}
