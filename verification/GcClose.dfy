/** Closing an open upvalue, in any phase, keeps the collector's invariant. */
module GcClose {
  import opened Common
  import opened GcModel
  import opened GcMark
  import opened GcInvariant
  import opened GcSweep
  import opened GcStep
  import opened GcProgram
  import opened GcAlloc

  lemma CloseReady(s: State, th: Id)
    requires Inv(s) && th in s.open && s.open[th] != []
    ensures OpenList(s.heap, s.open[th]) && s.heap[s.open[th][0]].kind == OpenUpval(th)
    ensures s.phase.Propagate? ==> NoDangling(s) && AllIn(s.heap[s.open[th][0]].refs, s.heap)
  {
    assert th in s.heap && s.heap[th].kind.Thread?;
    ThreadReady(s, th);
    assert s.open[th][0] in s.open[th];
    StepReady(s);
  }

  // ------------------------------------------------- the upvalue was dead

  lemma OpenListPops(open: map<Id, seq<Id>>, heap: Heap, th: Id, heap': Heap)
    requires OpenLists(open, heap) && th in open && open[th] != []
    requires forall id :: id in heap' ==> id in heap && (id != open[th][0] ==> heap'[id].kind == heap[id].kind)
    requires forall id :: id in heap && id != open[th][0] ==> id in heap'
    requires open[th][0] in heap' ==> heap'[open[th][0]].kind.ClosedUpval?
    ensures OpenLists(open[th := open[th][1..]], heap')
  {
    var uv := open[th][0];
    var l := open[th];
    var open' := open[th := l[1..]];
    assert uv in l && uv in heap && heap[uv].kind == OpenUpval(th);
    assert forall x :: x in l[1..] <==> x in l && x != uv;
    assert NoDup(l[1..]);
    hide NoDup;
    forall t, id | t in open' ensures id in open'[t] <==> id in heap' && heap'[id].kind == OpenUpval(t) {
      assert id in open[t] <==> id in heap && heap[id].kind == OpenUpval(t);
    }
  }

  lemma FreedLists(s: State, th: Id)
    requires Inv(s) && th in s.open && s.open[th] != [] && s.open[th][0] in s.heap && IsDead(s, s.open[th][0])
    requires s.heap[s.open[th][0]].kind == OpenUpval(th)
    ensures Lists(Free(s.(open := s.open[th := s.open[th][1..]]), s.open[th][0]))
  {
    hide PhaseInv, Shapes, Safe, NoDup, OpenLists, RootList, StringTable;
    var uv := s.open[th][0];
    var r := Free(s.(open := s.open[th := s.open[th][1..]]), uv);
    OpenListPops(s.open, s.heap, th, r.heap);
    ShrinkLists(s.rootgc, s.strt, s.heap, r.heap);
  }

  lemma CloseDeadKeeps(s: State, th: Id)
    requires Inv(s) && th in s.open && s.open[th] != [] && OpenList(s.heap, s.open[th]) && IsDead(s, s.open[th][0])
    requires s.heap[s.open[th][0]].kind == OpenUpval(th)
    ensures !s.phase.Propagate? && Inv(CloseFirst(s, th))
  {
    var uv := s.open[th][0];
    NotPropagating(s, uv);
    var r := CloseFirst(s, th);
    FreedLists(s, th);
    hide RootList, StringTable, UpvalHead, NoDup, OpenLists;
    ShapesShrink(s.heap, s.marked, s.main, r.heap, r.marked);
    hide Shapes;
    CloseDeadSafe(s, uv, r);
    hide Safe;
    forall t, id | t in r.open && id in r.open[t] ensures t in s.open && id in s.open[t] {}
    DeadGonePhase(s, uv, r);
  }

  lemma CloseDeadSafe(s: State, uv: Id, r: State)
    requires Coloured(s) && Safe(s) && uv in s.heap && IsDead(s, uv) && Coloured(r)
    requires s.running in s.heap && s.heap[s.running].kind.Thread?
    requires r == s.(heap := s.heap - {uv}, marked := s.marked - {uv}, open := r.open, uvhead := r.uvhead)
    ensures Safe(r) && s.running in r.heap && s.main in r.heap
  {
    forall x, v | x in r.heap && Live(r, x) && v in r.heap[x].refs ensures Live(r, v) {
      assert Live(s, x);
      assert Live(s, v);
    }
    forall x | x in Roots(r) ensures Live(r, x) { assert x in Roots(s) && Live(s, x); }
    assert s.running in Roots(r) && s.main in Roots(r);
  }

  lemma DeadGonePhase(s: State, uv: Id, r: State)
    requires Inv(s) && uv in s.heap && IsDead(s, uv) && Lists(r) && !s.phase.Propagate?
    requires r == s.(heap := s.heap - {uv}, marked := s.marked - {uv}, open := r.open, uvhead := r.uvhead)
    requires forall th, id :: th in r.open && id in r.open[th] ==> th in s.open && id in s.open[th]
    ensures PhaseInv(r)
  {
    hide RootList, StringTable, UpvalHead, NoDup, OpenLists, Shapes, Safe;
    forall id | InWhite(s, id) ensures InWhite(r, id) {}
    if s.phase.Sweep? {
      forall id | id in r.rootgc[..r.sweepgc] ensures InWhite(r, id) { assert InWhite(s, id); }
      forall th, id | th in r.rootgc[..r.sweepgc] && th in r.open && id in r.open[th] ensures InWhite(r, id) {
        assert InWhite(s, id);
      }
    }
  }

  // ------------------------------------------------- the upvalue was alive

  /** The state after an upvalue was unlinked, closed and put in front of the root
      list, before `luaC_linkupval` looks at its colour. */
  function Moved(s: State, th: Id): State
    requires th in s.open && s.open[th] != [] && s.open[th][0] in s.heap
  {
    var uv := s.open[th][0];
    Link(s.(open := s.open[th := s.open[th][1..]], uvhead := Without(s.uvhead, uv),
            heap := s.heap[uv := s.heap[uv].(kind := ClosedUpval)]), uv)
  }

  lemma MovedLists(s: State, th: Id)
    requires Inv(s) && th in s.open && s.open[th] != [] && s.open[th][0] in s.heap
    requires s.heap[s.open[th][0]].kind == OpenUpval(th)
    ensures Lists(Moved(s, th))
  {
    hide PhaseInv, Shapes, Safe, NoDup, OpenLists, RootList, StringTable;
    var uv := s.open[th][0];
    var r := Moved(s, th);
    OpenListPops(s.open, s.heap, th, r.heap);
    MovedOthers(s.rootgc, s.strt, s.heap, uv);
  }

  lemma MovedOthers(rootgc: seq<Id>, strt: seq<seq<Id>>, heap: Heap, uv: Id)
    requires RootList(rootgc, heap) && StringTable(strt, heap) && uv in heap && heap[uv].kind.OpenUpval?
    ensures var h := heap[uv := heap[uv].(kind := ClosedUpval)]; RootList([uv] + rootgc, h) && StringTable(strt, h)
  {
    assert uv !in rootgc;
    NoDupConcat([uv], rootgc);
    hide NoDup;
    var h := heap[uv := heap[uv].(kind := ClosedUpval)];
    forall b, x | 0 <= b < |strt|
      ensures x in strt[b] <==> x in h && h[x].kind.Str? && h[x].kind.hash % |strt| == b
    {
      assert x in strt[b] <==> x in heap && heap[x].kind.Str? && heap[x].kind.hash % |strt| == b;
    }
  }

  lemma MovedSafe(s: State, th: Id)
    requires Inv(s) && th in s.open && s.open[th] != [] && s.open[th][0] in s.heap
    requires s.heap[s.open[th][0]].kind == OpenUpval(th)
    ensures var r := Moved(s, th); Coloured(r) && Shapes(r.heap, r.marked, r.main) && Safe(r)
    ensures !s.marked[s.open[th][0]].Black?
    ensures var r := Moved(s, th); var uv := s.open[th][0]; uv in r.heap && (IsDead(r, uv) <==> IsDead(s, uv))
  {
    hide PhaseInv, RootList, StringTable, OpenLists, UpvalHead;
    var r := Moved(s, th);
    forall x, v | x in r.heap && Live(r, x) && v in r.heap[x].refs ensures Live(r, v) {
      assert Live(s, x);
      assert Live(s, v);
    }
    forall x | x in Roots(r) ensures Live(r, x) { assert x in Roots(s) && Live(s, x); }
  }

  /** What closing a live upvalue comes to, outside the propagate phase. */
  lemma CloseIsMoved(s: State, th: Id)
    requires Inv(s) && th in s.open && s.open[th] != [] && OpenList(s.heap, s.open[th]) && !IsDead(s, s.open[th][0])
    requires !s.phase.Propagate?
    ensures var uv := s.open[th][0]; var m := Moved(s, th);
      CloseFirst(s, th) == if s.marked[uv].Gray? then Paint(m, uv, White(s.white)) else m
  {
    assert s.open[th][0] in s.heap && |s.heap[s.open[th][0]].refs| <= 1;
    hide Lists, PhaseInv, Shapes, Safe, OpenList, NoDup, RefsClosed, Whites, Barrier;
  }

  // ---- outside the propagate phase

  lemma CloseFields(s: State, th: Id)
    requires Inv(s) && th in s.open && s.open[th] != [] && OpenList(s.heap, s.open[th]) && !IsDead(s, s.open[th][0])
    requires s.heap[s.open[th][0]].kind == OpenUpval(th) && !s.phase.Propagate?
    ensures var uv := s.open[th][0]; var r := CloseFirst(s, th);
      && r == s.(heap := s.heap[uv := s.heap[uv].(kind := ClosedUpval)], marked := r.marked,
                 rootgc := [uv] + s.rootgc, open := s.open[th := s.open[th][1..]], uvhead := r.uvhead,
                 sweepgc := if s.sweepgc == 0 then 0 else s.sweepgc + 1)
      && r.marked == s.marked[uv := White(s.white)]
      && (r == Moved(s, th) || r == Paint(Moved(s, th), uv, White(s.white)))
  {
    CloseIsMoved(s, th);
    MovedSafe(s, th);
    hide Lists, Shapes, Safe, CloseFirst;
  }

  lemma CloseLiveKeepsOtherwise(s: State, th: Id)
    requires Inv(s) && th in s.open && s.open[th] != [] && OpenList(s.heap, s.open[th]) && !IsDead(s, s.open[th][0])
    requires s.heap[s.open[th][0]].kind == OpenUpval(th) && !s.phase.Propagate?
    ensures Inv(CloseFirst(s, th))
  {
    assert s.open[th][0] in s.heap;
    hide RootList, StringTable, OpenLists, UpvalHead, NoDup, Safe, Shapes, OpenList, CloseFirst, Moved, PhaseInv;
    MovedLists(s, th);
    MovedSafe(s, th);
    CloseFields(s, th);
    WhitenSafe(Moved(s, th), s.open[th][0], CloseFirst(s, th));
    MovedPhase(s, th, s.open[th][0], CloseFirst(s, th));
  }

  lemma WhitenSafe(s: State, o: Id, r: State)
    requires Lists(s) && Shapes(s.heap, s.marked, s.main) && Safe(s) && o in s.heap && !IsDead(s, o)
    requires r == s || r == Paint(s, o, White(s.white))
    ensures Lists(r) && Shapes(r.heap, r.marked, r.main) && Safe(r)
  {
    hide RootList, StringTable, OpenLists, UpvalHead;
    forall x, v | x in r.heap && Live(r, x) && v in r.heap[x].refs ensures Live(r, v) {
      assert Live(s, x);
      assert Live(s, v);
    }
    forall x | x in Roots(r) ensures Live(r, x) { assert x in Roots(s) && Live(s, x); }
  }

  /** The fields after closing a live upvalue outside the propagate phase. */
  ghost predicate MovedTo(s: State, th: Id, uv: Id, r: State) {
    && Coloured(s) && Coloured(r) && uv in s.heap && th in s.open && s.open[th] != []
    && r == s.(heap := s.heap[uv := s.heap[uv].(kind := ClosedUpval)], marked := s.marked[uv := White(s.white)],
               rootgc := [uv] + s.rootgc, open := s.open[th := s.open[th][1..]], uvhead := r.uvhead,
               sweepgc := if s.sweepgc == 0 then 0 else s.sweepgc + 1)
  }

  lemma MovedSwept(s: State, th: Id, uv: Id, r: State)
    requires MovedTo(s, th, uv, r) && RootsSwept(s) && uv !in s.open
    ensures RootsSwept(r)
  {
    forall id | InWhite(s, id) ensures InWhite(r, id) {}
    assert r.rootgc[..r.sweepgc] == if s.sweepgc == 0 then [] else [uv] + s.rootgc[..s.sweepgc];
    forall id | id in r.rootgc[..r.sweepgc] ensures InWhite(r, id) {
      if id != uv { assert InWhite(s, id); }
    }
    forall t, id | t in r.rootgc[..r.sweepgc] && t in r.open && id in r.open[t] ensures InWhite(r, id) {
      assert t in s.open && id in s.open[t] && t != uv;
      assert InWhite(s, id);
    }
  }

  lemma MovedPhase(s: State, th: Id, uv: Id, r: State)
    requires Inv(s) && !s.phase.Propagate? && Lists(r) && MovedTo(s, th, uv, r) && !s.heap[uv].kind.Thread?
    ensures PhaseInv(r)
  {
    assert uv !in s.open;
    hide RootList, StringTable, UpvalHead, OpenLists, NoDup, Shapes, Safe, RootsSwept;
    if s.phase.Sweep? { MovedSwept(s, th, uv, r); }
  }

  // ---- in the propagate phase

  lemma MovedTri(s: State, th: Id)
    requires Inv(s) && s.phase.Propagate? && th in s.open && s.open[th] != [] && s.open[th][0] in s.heap
    requires s.heap[s.open[th][0]].kind == OpenUpval(th)
    ensures var m := Moved(s, th); TriBut(m, s.open[th][0]) && NoDangling(m) && NoneDead(m)
    ensures IsWhite(s, s.open[th][0]) ==> Tri(Moved(s, th), Incremental)
  {
    hide Lists, Safe, Shapes;
    var uv := s.open[th][0];
    var m := Moved(s, th);
    assert Coloured(s);
    forall id | id in m.heap && !IsWhite(m, id) && id != uv ensures Shaded(m, Incremental, id) {
      assert Shaded(s, Incremental, id);
    }
  }

  /** A gray upvalue goes black behind the forward barrier. */
  function Blacken(m: State, uv: Id): State
    requires NoDangling(m) && uv in m.heap && m.phase.Propagate?
  {
    if m.heap[uv].refs == [] then Paint(m, uv, Black) else Barrier(Paint(m, uv, Black), uv, m.heap[uv].refs[0])
  }

  /** What closing a live upvalue comes to, in the propagate phase. */
  lemma CloseIsBlackened(s: State, th: Id)
    requires Coloured(s) && s.phase.Propagate? && NoDangling(s)
    requires th in s.open && s.open[th] != [] && OpenList(s.heap, s.open[th]) && !IsDead(s, s.open[th][0])
    requires AllIn(s.heap[s.open[th][0]].refs, s.heap) && NoDangling(Moved(s, th))
    ensures var uv := s.open[th][0]; var m := Moved(s, th);
      CloseFirst(s, th) == if s.marked[uv].Gray? then Blacken(m, uv) else m
  {
    assert s.open[th][0] in s.heap && |s.heap[s.open[th][0]].refs| <= 1;
    hide OpenList, NoDup, Whites, Barrier;
  }

  lemma BlackenTri(m: State, uv: Id)
    requires TriBut(m, uv) && NoDangling(m) && uv in m.heap && m.heap[uv].kind.ClosedUpval? && m.marked[uv].Gray?
    requires m.phase.Propagate? && |m.heap[uv].refs| <= 1
    ensures Tri(Blacken(m, uv), Incremental) && Darkens(m, Blacken(m, uv))
    ensures Grows(m, Blacken(m, uv))
  {
    hide GrayLists, Shaded, Darkens;
    var b := Paint(m, uv, Black);
    PaintTriBut(m, uv);
    if m.heap[uv].refs != [] && IsWhite(b, m.heap[uv].refs[0]) {
      var v := m.heap[uv].refs[0];
      ForwardKeepsTri(b, uv, v);
      ReallyMarkStep(b, v);
      MarkDarkens(b, ReallyMark(b, v));
      DarkensTrans(m, b, ReallyMark(b, v));
    } else {
      BlackShaded(b, uv);
      NoBarrierTri(b, uv);
    }
  }

  lemma PaintTriBut(m: State, uv: Id)
    requires TriBut(m, uv) && NoDangling(m) && uv in m.heap && m.heap[uv].kind.ClosedUpval? && m.marked[uv].Gray?
    ensures TriBut(Paint(m, uv, Black), uv) && NoDangling(Paint(m, uv, Black)) && Darkens(m, Paint(m, uv, Black))
  {
    var b := Paint(m, uv, Black);
    forall id | id in b.heap && !IsWhite(b, id) && id != uv ensures Shaded(b, Incremental, id) {
      assert Shaded(m, Incremental, id);
    }
  }

  /** A marking step in the propagate phase that restores the tricolour invariant
      restores the whole invariant. */
  lemma DarkenedInv(m: State, r: State)
    requires Lists(m) && Shapes(m.heap, m.marked, m.main) && Safe(m) && NoneDead(m) && m.phase.Propagate?
    requires Darkens(m, r) && Grows(m, r) && Tri(r, Incremental)
    requires forall id :: id in [m.main, m.registry] ==> id in m.heap && !IsWhite(m, id)
    requires m.running in m.heap && m.heap[m.running].kind.Thread?
    ensures Inv(r)
  {
    hide RootList, StringTable, OpenLists, UpvalHead, Safe, Shapes, Tri, NoDup;
    DarkensKeeps(m, r);
    DarkensKeepsSafe(m, r);
  }

  lemma MovedInv(s: State, th: Id)
    requires Inv(s) && s.phase.Propagate? && th in s.open && s.open[th] != [] && OpenList(s.heap, s.open[th])
    requires s.heap[s.open[th][0]].kind == OpenUpval(th)
    ensures var m := Moved(s, th); var uv := s.open[th][0];
      && Lists(m) && Shapes(m.heap, m.marked, m.main) && Safe(m) && NoneDead(m) && m.phase.Propagate?
      && TriBut(m, uv) && NoDangling(m) && (IsWhite(s, uv) ==> Tri(m, Incremental))
      && (forall id :: id in [m.main, m.registry] ==> id in m.heap && !IsWhite(m, id))
      && m.running in m.heap && m.heap[m.running].kind.Thread?
      && uv in m.heap && m.heap[uv].kind.ClosedUpval? && |m.heap[uv].refs| <= 1 && m.marked[uv] == s.marked[uv]
  {
    assert s.open[th][0] in s.heap && s.running != s.open[th][0];
    hide RootList, StringTable, OpenLists, UpvalHead, NoDup, Safe, Shapes, OpenList, Tri, TriBut, RefsClosed;
    MovedLists(s, th);
    MovedSafe(s, th);
    MovedTri(s, th);
  }

  /** The parts of the invariant in the propagate phase. */
  lemma PropagatingInv(m: State)
    requires Lists(m) && Shapes(m.heap, m.marked, m.main) && Safe(m) && NoneDead(m) && m.phase.Propagate? && Tri(m, Incremental)
    requires forall id :: id in [m.main, m.registry] ==> id in m.heap && !IsWhite(m, id)
    requires m.running in m.heap && m.heap[m.running].kind.Thread?
    ensures Inv(m)
  {
    hide Tri, NoneDead, Safe, Shapes;
  }

  lemma LiveHead(s: State, th: Id)
    requires Inv(s) && s.phase.Propagate? && th in s.open && s.open[th] != [] && OpenList(s.heap, s.open[th])
    ensures s.open[th][0] in s.heap && Coloured(s) && !IsDead(s, s.open[th][0])
  {
    assert s.open[th][0] in s.open[th];
  }

  lemma CloseLiveKeepsWhilePropagating(s: State, th: Id)
    requires Inv(s) && s.phase.Propagate? && th in s.open && s.open[th] != [] && OpenList(s.heap, s.open[th])
    requires s.heap[s.open[th][0]].kind == OpenUpval(th)
    requires NoDangling(s) && AllIn(s.heap[s.open[th][0]].refs, s.heap)
    ensures Inv(CloseFirst(s, th))
  {
    hide Inv, NoDup, Safe, Shapes, Lists, OpenList, CloseFirst, Tri, Darkens, TriBut, RefsClosed, AllIn, Grows, NoneDead, Moved, Blacken;
    LiveHead(s, th);
    var uv := s.open[th][0];
    MovedSafe(s, th);
    MovedInv(s, th);
    CloseIsBlackened(s, th);
    var m := Moved(s, th);
    if s.marked[uv].Gray? {
      BlackenTri(m, uv);
      DarkenedInv(m, Blacken(m, uv));
    } else {
      PropagatingInv(m);
    }
  }

  /** One turn of `luaF_close` keeps the invariant. */
  lemma CloseKeeps(s: State, th: Id)
    requires Inv(s) && th in s.open && s.open[th] != []
    ensures OpenList(s.heap, s.open[th])
    ensures s.phase.Propagate? ==> NoDangling(s) && AllIn(s.heap[s.open[th][0]].refs, s.heap)
    ensures Inv(CloseFirst(s, th))
  {
    CloseReady(s, th);
    assert s.open[th][0] in s.marked;
    hide Inv, CloseFirst;
    if IsDead(s, s.open[th][0]) {
      CloseDeadKeeps(s, th);
    } else if s.phase.Propagate? {
      CloseLiveKeepsWhilePropagating(s, th);
    } else {
      CloseLiveKeepsOtherwise(s, th);
    }
  }
}
