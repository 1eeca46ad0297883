/** The collector as it runs: one object whose fields the routines of lgc.cpp update
    in place. Each method is proved equal to its function on states. */
module GcCollector {
  import opened Common
  import opened GcModel
  import opened GcMark
  import opened GcInvariant
  import opened GcSweep
  import opened GcStep
  import opened GcProgram
  import opened GcFull
  import opened GcRun

  class GlobalState {
    var heap: Heap
    var marked: map<Id, Colour>
    var currentwhite: bool
    var gcstate: Phase
    var rootgc: seq<Id>
    var strt: seq<seq<Id>>
    var open: map<Id, seq<Id>>
    var uvhead: seq<Id>
    var gray: seq<Id>
    var grayagain: seq<Id>
    var sweepstrgc: nat
    var sweepgc: nat
    var mainthread: Id
    var registry: Id
    var mt: seq<Id>
    var running: Id

    ghost function St(): State
      reads this
    {
      State(heap, marked, currentwhite, gcstate, rootgc, strt, open, uvhead, gray, grayagain, sweepstrgc, sweepgc,
            mainthread, registry, mt, running)
    }

    constructor (main: Id, globals: Id, registry: Id, buckets: nat)
      requires main != globals && main != registry && globals != registry && buckets > 0
      ensures St() == Initial(main, globals, registry, buckets)
    {
      heap := map[main := Object(Thread, true, [globals]), globals := Object(Tab, false, []),
                  registry := Object(Tab, false, [])];
      marked := map[main := White(false), globals := White(false), registry := White(false)];
      currentwhite, gcstate := false, Pause;
      rootgc, strt, open, uvhead := [registry, globals, main], seq(buckets, _ => []), map[main := []], [];
      gray, grayagain, sweepstrgc, sweepgc := [], [], 0, 0;
      mainthread, this.registry, mt, running := main, registry, [], main;
    }

    // ---------------------------------------------------------------- marking

    method ReallyMarkObject(id: Id)
      requires NoDangling(St()) && id in heap && IsWhite(St(), id)
      modifies this
      ensures St() == ReallyMark(old(St()), id)
      decreases Whites(St()), 0, 0
    {
      hide RefsClosed, AllIn, Whites, MarkSeq;
      ghost var s := St();
      PaintReady(s, id, Gray);
      PaintReady(s, id, Black);
      PaintTwice(s, id, Gray, Black);
      marked := marked[id := Gray];
      assert St() == Paint(s, id, Gray);
      match heap[id].kind {
        case Str(_) =>
        case Udata =>
          marked := marked[id := Black];
          assert St() == Paint(Paint(s, id, Gray), id, Black);
          MarkValues(heap[id].refs);
        case OpenUpval(_) =>
          MarkValues(heap[id].refs);
        case ClosedUpval =>
          MarkValues(heap[id].refs);
          marked := marked[id := Black];
        case _ =>
          gray := [id] + gray;
      }
    }

    method MarkValue(id: Id)
      requires NoDangling(St()) && id in heap
      modifies this
      ensures St() == GcModel.MarkObject(old(St()), id)
      decreases Whites(St()), 1, 0
    {
      if marked[id].White? { ReallyMarkObject(id); }
    }

    /** The traversal loops: mark each value in turn. */
    method MarkValues(ids: seq<Id>)
      requires NoDangling(St()) && AllIn(ids, heap)
      modifies this
      ensures St() == MarkSeq(old(St()), ids)
      decreases Whites(St()), 2, 0
    {
      ghost var s := St();
      var i := 0;
      while i < |ids|
        invariant i <= |ids| && NoDangling(St()) && heap == s.heap && Whites(St()) <= Whites(s)
        invariant MarkSeq(St(), ids[i..]) == MarkSeq(s, ids)
      {
        assert ids[i..][0] == ids[i] && ids[i..][1..] == ids[i + 1..];
        MarkValue(ids[i]);
        i := i + 1;
      }
    }

    method PropagateMark()
      requires NoDangling(St()) && gray != []
      modifies this
      ensures St() == GcModel.PropagateMark(old(St()))
    {
      hide RefsClosed, AllIn, Whites, MarkSeq;
      TakeGrows(St());
      var id := gray[0];
      marked := marked[id := Black];
      gray := gray[1..];
      if heap[id].kind.Thread? {
        grayagain := [id] + grayagain;
        marked := marked[id := Gray];
      }
      assert St() == TakeGray(old(St()));
      MarkValues(heap[id].refs);
    }

    method PropagateAll()
      requires NoDangling(St())
      modifies this
      ensures St() == GcModel.PropagateAll(old(St()))
    {
      ghost var s := St();
      while gray != []
        invariant NoDangling(St()) && GcModel.PropagateAll(St()) == GcModel.PropagateAll(s)
        decreases Whites(St()), |gray|
      {
        PropagateMark();
      }
    }

    method MarkRoot()
      requires Coloured(St()) && RefsClosed(heap) && mainthread in heap && AllIn(RootSet(St()), heap)
      modifies this
      ensures St() == GcModel.MarkRoot(old(St()))
    {
      hide RefsClosed, AllIn, Whites, MarkSeq;
      ghost var s := St();
      NothingGray(s);
      gray, grayagain := [], [];
      gcstate := Propagate;
      ghost var s0 := St();
      var globals := if heap[mainthread].refs == [] then [] else heap[mainthread].refs[..1];
      assert [mainthread] + globals + [registry] + mt == RootSet(s0);
      MarkValues([mainthread] + globals + [registry] + mt);
    }

    method RemarkUpvals()
      requires NoDangling(St()) && AllIn(uvhead, heap)
      modifies this
      ensures St() == GcModel.RemarkUpvals(old(St()), old(uvhead))
    {
      ghost var s := St();
      var uvs := uvhead;
      var i := 0;
      while i < |uvs|
        invariant i <= |uvs| && NoDangling(St()) && heap == s.heap && uvs == s.uvhead
        invariant GcModel.RemarkUpvals(St(), uvs[i..]) == GcModel.RemarkUpvals(s, uvs)
      {
        assert uvs[i..][0] == uvs[i] && uvs[i..][1..] == uvs[i + 1..];
        if marked[uvs[i]].Gray? { MarkValues(heap[uvs[i]].refs); }
        i := i + 1;
      }
    }

    method Atomic()
      requires NoDangling(St()) && AllIn(uvhead, heap) && AllIn([running] + mt, heap)
      modifies this
      ensures St() == GcModel.Atomic(old(St()))
    {
      hide MarkSeq, GcModel.PropagateAll, GcModel.RemarkUpvals, RefsClosed, Whites;
      RemarkUpvals();
      PropagateAll();
      MarkValues([running] + mt);
      PropagateAll();
      gray, grayagain := grayagain, [];
      PropagateAll();
      currentwhite := !currentwhite;
      sweepstrgc, sweepgc := 0, 0;
      gcstate := SweepString;
    }

    // --------------------------------------------------------------- sweeping

    method FreeObject(id: Id)
      modifies this
      ensures St() == Free(old(St()), id)
    {
      heap, marked := heap - {id}, marked - {id};
      uvhead := Without(uvhead, id);
    }

    method SweepWholeList(ids: seq<Id>) returns (kept: seq<Id>)
      requires Coloured(St()) && AllIn(ids, heap) && NoDup(ids)
      modifies this
      ensures St() == SweepWhole(old(St()), ids).0 && kept == SweepWhole(old(St()), ids).1
    {
      hide Swept, NoDup, AllIn, SweepWhole;
      ghost var s := St();
      kept := [];
      var i := 0;
      assert ids[0..] == ids;
      while i < |ids|
        invariant i <= |ids| && Coloured(St()) && AllIn(ids[i..], heap) && NoDup(ids[i..])
        invariant SweepWhole(St(), ids[i..]).0 == SweepWhole(s, ids).0
        invariant kept + SweepWhole(St(), ids[i..]).1 == SweepWhole(s, ids).1
      {
        var id := ids[i];
        assert ids[i..][0] == id && ids[i..][1..] == ids[i + 1..];
        SweepWholeTurn(St(), ids[i..]);
        if marked[id] != White(!currentwhite) || heap[id].fixed {
          marked := marked[id := White(currentwhite)];
          kept := kept + [id];
        } else {
          FreeObject(id);
        }
        i := i + 1;
      }
      assert ids[i..] == [];
      SweepWholeNothing(St());
      assert kept + [] == kept;
    }

    method LinkObject(id: Id)
      modifies this
      ensures St() == Link(old(St()), id)
    {
      rootgc := [id] + rootgc;
      if sweepgc != 0 { sweepgc := sweepgc + 1; }
    }

    // --------------------------------------------------------------- barriers

    method BarrierForward(o: Id, v: Id)
      requires Coloured(St()) && o in heap && v in heap && IsWhite(St(), v)
      requires gcstate.Propagate? ==> NoDangling(St())
      modifies this
      ensures St() == GcModel.BarrierForward(old(St()), o, v)
    {
      if gcstate.Propagate? { ReallyMarkObject(v); } else { marked := marked[o := White(currentwhite)]; }
    }

    method BarrierBack(o: Id)
      requires Coloured(St()) && o in heap
      modifies this
      ensures St() == GcModel.BarrierBack(old(St()), o)
    {
      marked := marked[o := Gray];
      grayagain := [o] + grayagain;
    }

    /** `luaC_barrier` / `luaC_barriert`. */
    method CheckBarrier(o: Id, v: Id)
      requires Coloured(St()) && o in heap && v in heap
      requires gcstate.Propagate? ==> NoDangling(St())
      modifies this
      ensures St() == Barrier(old(St()), o, v)
    {
      if marked[v].White? && marked[o].Black? {
        if heap[o].kind.Tab? { BarrierBack(o); } else { BarrierForward(o, v); }
      }
    }

    /** An assignment of the program, with its barrier. */
    method Store(o: Id, refs: seq<Id>, v: Id)
      requires Inv(St()) && Storable(St(), o, refs, v)
      modifies this
      ensures St() == DoStore(old(St()), o, refs, v) && Inv(St())
      ensures o in old(heap) && heap == old(heap)[o := Object(old(heap)[o].kind, old(heap)[o].fixed, refs)]
    {
      StoreFacts(St(), o, refs, v);
      hide Inv, Barrier, Storable, NoDangling, DoStore;
      ghost var s := St();
      heap := heap[o := heap[o].(refs := refs)];
      assert St() == Assign(s, o, refs);
      CheckBarrier(o, v);
    }

    method LinkUpval(uv: Id)
      requires Coloured(St()) && uv in heap && |heap[uv].refs| <= 1
      requires gcstate.Propagate? ==> NoDangling(St())
      modifies this
      ensures St() == GcModel.LinkUpval(old(St()), uv)
    {
      LinkObject(uv);
      if marked[uv].Gray? {
        if gcstate.Propagate? {
          marked := marked[uv := Black];
          if heap[uv].refs != [] { CheckBarrier(uv, heap[uv].refs[0]); }
        } else {
          marked := marked[uv := White(currentwhite)];
        }
      }
    }

    /** One turn of `luaF_close`. */
    method CloseFirst(th: Id)
      requires Coloured(St()) && th in open && open[th] != [] && OpenList(heap, open[th])
      requires gcstate.Propagate? ==> NoDangling(St()) && AllIn(heap[open[th][0]].refs, heap)
      modifies this
      ensures St() == GcModel.CloseFirst(old(St()), th)
    {
      var uv := open[th][0];
      open := open[th := open[th][1..]];
      if marked[uv] == White(!currentwhite) {
        FreeObject(uv);
      } else {
        uvhead := Without(uvhead, uv);
        heap := heap[uv := heap[uv].(kind := ClosedUpval)];
        LinkUpval(uv);
      }
    }

    /** `luaF_close(L1, L1->stack)` of a thread being freed. */
    method CloseAll(th: Id)
      requires Coloured(St()) && !gcstate.Propagate? && th in open && OpenList(heap, open[th])
      modifies this
      ensures St() == GcModel.CloseAll(old(St()), th)
    {
      hide GcModel.CloseFirst;
      ghost var s := St();
      while open[th] != []
        invariant Coloured(St()) && !gcstate.Propagate? && th in open && OpenList(heap, open[th])
        invariant GcModel.CloseAll(St(), th) == GcModel.CloseAll(s, th)
        decreases |open[th]|
      {
        CloseFirstOpen(St(), th);
        CloseFirst(th);
      }
    }

    method SweepOpenUpvals(id: Id)
      requires Coloured(St()) && id in heap
      requires heap[id].kind.Thread? ==> id in open && OpenList(heap, open[id])
      modifies this
      ensures St() == SweepOpen(old(St()), id)
    {
      hide Swept, SweepWhole;
      if heap[id].kind.Thread? {
        var kept := SweepWholeList(open[id]);
        open := open[id := kept];
      }
    }

    method FreeRootObject(id: Id)
      requires Coloured(St()) && id in heap && !gcstate.Propagate?
      requires heap[id].kind.Thread? ==> id in open && OpenList(heap, open[id])
      modifies this
      ensures St() == FreeRoot(old(St()), id)
    {
      hide GcModel.CloseAll;
      if heap[id].kind.Thread? {
        CloseAll(id);
        FreeObject(id);
        open := open - {id};
      } else {
        FreeObject(id);
      }
    }

    method KeepOrFree(id: Id)
      requires Coloured(St()) && id in heap && !gcstate.Propagate? && sweepgc < |rootgc|
      requires heap[id].kind.Thread? ==> id in open && OpenList(heap, open[id])
      modifies this
      ensures ghost var s := old(St());
        St() == if Survives(s, id) then Paint(s, id, White(s.white)).(sweepgc := s.sweepgc + 1)
                else FreeRoot(s.(rootgc := s.rootgc[..s.sweepgc] + s.rootgc[s.sweepgc + 1..]), id)
    {
      hide FreeRoot, OpenList;
      if marked[id] != White(!currentwhite) || heap[id].fixed {
        marked := marked[id := White(currentwhite)];
        sweepgc := sweepgc + 1;
      } else {
        rootgc := rootgc[..sweepgc] + rootgc[sweepgc + 1..];
        FreeRootObject(id);
      }
    }

    method SweepTurn()
      requires Sweepable(St()) && sweepgc < |rootgc|
      modifies this
      ensures St() == OneTurn(old(St()))
    {
      hide Sweepable, SweepOpen, FreeRoot, OpenList, Turn;
      ghost var s := St();
      SweepTurnReady(s);
      SweepTurnOpened(s);
      var id := rootgc[sweepgc];
      SweepOpenUpvals(id);
      KeepOrFree(id);
    }

    /** `sweeplist` over the root list. */
    method SweepList(count: nat)
      requires Sweepable(St())
      modifies this
      ensures St() == GcStep.SweepList(old(St()), count)
    {
      hide Sweepable, OneTurn, Turn;
      ghost var s := St();
      var n := count;
      while sweepgc < |rootgc| && n > 0
        decreases n
        invariant Sweepable(St()) && GcStep.SweepList(St(), n) == GcStep.SweepList(s, count)
      {
        SweepTurn();
        n := n - 1;
      }
    }

    // ------------------------------------------------------------------ steps

    method SweepBucket()
      requires Lists(St()) && sweepstrgc < |strt|
      modifies this
      ensures St() == GcSweep.SweepBucket(old(St()))
    {
      hide Swept, SweepWhole, RootList, OpenLists, UpvalHead;
      BucketReady(St());
      var k := sweepstrgc;
      var kept := SweepWholeList(strt[k]);
      strt := strt[k := kept];
      sweepstrgc := k + 1;
      gcstate := if sweepstrgc >= |strt| then Sweep else SweepString;
    }

    /** `singlestep`: the whole state afterwards, and the invariant. */
    method SingleStep()
      requires Inv(St())
      modifies this
      ensures St() == GcStep.SingleStep(old(St())) && Inv(St())
    {
      StepFacts(St());
      hide Inv, Lists, Sweepable, NoDangling, GcModel.PropagateMark, GcModel.Atomic, GcSweep.SweepBucket, GcModel.MarkRoot,
        GcStep.SweepList, RefsClosed, AllIn;
      match gcstate {
        case Pause => MarkRoot();
        case Propagate => if gray != [] { PropagateMark(); } else { Atomic(); }
        case SweepString => SweepBucket();
        case Sweep =>
          SweepList(SWEEPMAX);
          if sweepgc >= |rootgc| { gcstate := Finalize; }
        case Finalize => gcstate := Pause;
      }
    }

    /** The loops of `luaC_fullgc`: collector steps up to a phase. */
    method RunToPhase(p: Phase)
      requires Inv(St()) && (p.Pause? || (p.Finalize? && !gcstate.Pause? && !gcstate.Propagate?))
      modifies this
      ensures St() == RunTo(old(St()), p) && Inv(St()) && gcstate == p
    {
      hide Inv, GcStep.SingleStep, Unmarked, Waiting, Threads, Unswept, Next;
      ghost var s := St();
      while gcstate != p
        invariant Inv(St()) && (p.Pause? || (!gcstate.Pause? && !gcstate.Propagate?))
        invariant RunTo(St(), p) == RunTo(s, p)
        decreases Rank(gcstate), Unmarked(St()), Waiting(St()), Threads(St()), Unswept(St())
      {
        ghost var next := Next(St());
        SingleStep();
      }
    }

    /** A cycle that has not got to its sweep is given up. */
    method AbandonCycle()
      modifies this
      ensures St() == Abandon(old(St()))
    {
      if gcstate.Pause? || gcstate.Propagate? {
        sweepstrgc, sweepgc := 0, 0;
        gray, grayagain := [], [];
        gcstate := SweepString;
      }
    }

    method RunFullGc()
      requires Inv(St())
      modifies this
      ensures St() == FullGc(old(St()))
    {
      hide Inv, RunTo, GcModel.MarkRoot, FullGc, RefsClosed, AllIn, RootSet;
      ghost var s := St();
      AbandonKeeps(s);
      AbandonCycle();
      ghost var a := St();
      RunToPhase(Finalize);
      ghost var f := St();
      RootReady(f);
      MarkRoot();
      RunToPhase(Pause);
      FullGcRuns(s, a, f, St());
    }

    /** `luaC_fullgc`: it terminates, and what is left is exactly what was reachable
        and the fixed strings. */
    method FullCollect()
      requires Inv(St())
      modifies this
      ensures Inv(St()) && gcstate.Pause?
      ensures forall id :: id in heap <==> id in old(heap) && (Reachable(old(St()), id) || old(heap)[id].fixed)
      ensures forall id :: id in heap ==> heap[id].refs == old(heap)[id].refs
    {
      hide Inv, Reachable, FullGc;
      FullGcIsExact(St());
      RunFullGc();
    }
  }

  lemma FullGcRuns(s: State, a: State, f: State, r: State)
    requires Inv(s) && Inv(a) && a == Abandon(s) && !a.phase.Pause? && !a.phase.Propagate? && f == RunTo(a, Finalize)
    requires Inv(f) && Coloured(f) && RefsClosed(f.heap) && f.main in f.heap && AllIn(RootSet(f), f.heap)
    requires Inv(GcModel.MarkRoot(f)) && r == RunTo(GcModel.MarkRoot(f), Pause)
    ensures r == FullGc(s)
  {
    hide Inv, RunTo, GcModel.MarkRoot;
  }

  lemma NothingGray(s: State)
    requires Coloured(s) && RefsClosed(s.heap)
    ensures NoDangling(s.(gray := [], grayagain := [], phase := Propagate))
  {
  }

  /** What each phase of `singlestep` requires. */
  lemma StepFacts(s: State)
    requires Inv(s)
    ensures Inv(GcStep.SingleStep(s)) && Coloured(s)
    ensures s.phase.Pause? ==> RefsClosed(s.heap) && s.main in s.heap && AllIn(RootSet(s), s.heap)
    ensures s.phase.Propagate? ==> NoDangling(s) && AllIn(s.uvhead, s.heap) && AllIn([s.running] + s.mt, s.heap)
    ensures s.phase.SweepString? ==> Lists(s) && s.sweepstr < |s.strt|
    ensures s.phase.Sweep? ==> Sweepable(s)
  {
    hide RootList, StringTable, OpenLists, UpvalHead, Shapes, Safe, Tri, GcStep.SingleStep;
    StepReady(s);
    SingleStepKeeps(s);
  }

  lemma BucketReady(s: State)
    requires Lists(s) && s.sweepstr < |s.strt|
    ensures AllIn(s.strt[s.sweepstr], s.heap) && NoDup(s.strt[s.sweepstr]) && Coloured(s)
  {
  }

  lemma RootReady(s: State)
    requires Inv(s) && s.phase.Finalize?
    ensures Coloured(s) && RefsClosed(s.heap) && s.main in s.heap && AllIn(RootSet(s), s.heap) && Inv(GcModel.MarkRoot(s))
  {
    MarkRootKeeps(s);
  }

  lemma StoreFacts(s: State, o: Id, refs: seq<Id>, v: Id)
    requires Inv(s) && Storable(s, o, refs, v)
    ensures Coloured(s) && o in s.heap && v in s.heap && Inv(DoStore(s, o, refs, v))
    ensures s.phase.Propagate? ==> NoDangling(Assign(s, o, refs))
    ensures DoStore(s, o, refs, v) == Barrier(Assign(s, o, refs), o, v)
  {
    StoreKeeps(s, o, refs, v);
    StoreReady(s, o, refs, v);
    hide RootList, StringTable, OpenLists, UpvalHead, Shapes, Safe, PhaseInv, Barrier;
  }

  /** What `SweepTurn` needs to know of the object at the sweep pointer. */
  lemma SweepTurnReady(s: State)
    requires Sweepable(s) && s.sweepgc < |s.rootgc|
    ensures var id := s.rootgc[s.sweepgc];
      && id in s.heap && Coloured(s) && !s.phase.Propagate?
      && (s.heap[id].kind.Thread? ==> id in s.open && OpenList(s.heap, s.open[id]))
    ensures OneTurn(s) == SweepOne(s)
  {
    hide Turn, SweepOne, Shapes;
    SweepOneKeeps(s);
  }

  lemma SweepTurnOpened(s: State)
    requires Sweepable(s) && s.sweepgc < |s.rootgc| && s.rootgc[s.sweepgc] in s.heap
    requires var id := s.rootgc[s.sweepgc]; s.heap[id].kind.Thread? ==> id in s.open && OpenList(s.heap, s.open[id])
    ensures var id := s.rootgc[s.sweepgc]; var s1 := SweepOpen(s, id);
      && Coloured(s1) && id in s1.heap && s1.heap[id] == s.heap[id]
      && s1 == s.(heap := s1.heap, marked := s1.marked, open := s1.open, uvhead := s1.uvhead)
      && (s1.heap[id].kind.Thread? ==> id in s1.open && OpenList(s1.heap, s1.open[id]))
  {
    hide RootList, StringTable, UpvalHead, Shapes, NoDup, SweepEffect, OpenList;
    SweepOpenSwept(s);
  }

  lemma CloseFirstOpen(s: State, th: Id)
    requires Coloured(s) && !s.phase.Propagate? && th in s.open && s.open[th] != [] && OpenList(s.heap, s.open[th])
    ensures var r := GcModel.CloseFirst(s, th);
      Coloured(r) && r.phase == s.phase && r.open == s.open[th := s.open[th][1..]] && OpenList(r.heap, r.open[th])
  {
    assert s.open[th][0] !in s.open[th][1..];
  }

  lemma SweepWholeTurn(s: State, ids: seq<Id>)
    requires Coloured(s) && AllIn(ids, s.heap) && NoDup(ids) && ids != []
    ensures ids[0] in s.heap && ids[0] in s.marked
    ensures var s1 := if Survives(s, ids[0]) then Paint(s, ids[0], White(s.white)) else Free(s, ids[0]);
      && Coloured(s1) && AllIn(ids[1..], s1.heap) && NoDup(ids[1..])
      && SweepWhole(s, ids).0 == SweepWhole(s1, ids[1..]).0
      && SweepWhole(s, ids).1 == (if Survives(s, ids[0]) then [ids[0]] else []) + SweepWhole(s1, ids[1..]).1
  {
    assert ids[0] !in ids[1..] && NoDup(ids[1..]) && ids[0] in ids;
    hide Swept, NoDup;
  }

  lemma SweepWholeNothing(s: State)
    requires Coloured(s)
    ensures AllIn([], s.heap) && NoDup([]) && SweepWhole(s, []) == (s, [])
  {
  }
}
