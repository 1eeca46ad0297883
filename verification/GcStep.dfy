/** `singlestep` and its phases: every step keeps the collector's invariant. */
module GcStep {
  import opened GcModel
  import opened GcMark
  import opened GcInvariant
  import opened GcSweep

  const SWEEPMAX: nat := 40

  /** One turn of `sweeplist`, with its promises. */
  function OneTurn(s: State): (r: State)
    requires Sweepable(s) && s.sweepgc < |s.rootgc|
    ensures Sweepable(r) && Turn(s, r)
  {
    SweepOneKeeps(s);
    SweepOne(s)
  }

  /** `sweeplist` over the root list, at most `count` turns. */
  function SweepList(s: State, count: nat): (r: State)
    requires Sweepable(s)
    ensures Sweepable(r)
    decreases count
  {
    if count == 0 || s.sweepgc >= |s.rootgc| then s else SweepList(OneTurn(s), count - 1)
  }

  /** The `GCSsweep` step. */
  function SweepStep(s: State): (r: State)
    requires Sweepable(s)
  {
    var r := SweepList(s, SWEEPMAX);
    if r.sweepgc >= |r.rootgc| then r.(phase := Finalize) else r
  }

  lemma TurnTrans(a: State, b: State, c: State)
    requires Coloured(a) && Coloured(b) && Turn(a, b) && Turn(b, c)
    ensures Turn(a, c)
  {
    SweepEffectTrans(a, b, c);
    hide SweepEffect, RootsSwept;
  }

  lemma {:induction false} SweepListKeeps(s: State, count: nat)
    requires Sweepable(s)
    ensures if count == 0 || s.sweepgc >= |s.rootgc| then SweepList(s, count) == s else Turn(s, SweepList(s, count))
    decreases count
  {
    hide OneTurn, SweepOne, RootList, StringTable, OpenLists, UpvalHead, Shapes;
    if count > 0 && s.sweepgc < |s.rootgc| {
      var s1 := OneTurn(s);
      assert Coloured(s) && Coloured(s1);
      hide Turn, Lists, Coloured;
      SweepListKeeps(s1, count - 1);
      if SweepList(s1, count - 1) != s1 { TurnTrans(s, s1, SweepList(s1, count - 1)); }
    }
  }

  /** Sweeping the root list keeps every string's colour white. */
  lemma StringsStaySwept(s: State, r: State)
    requires Coloured(s) && |s.strt| > 0 && SweepEffect(s, r) && r.strt == s.strt && StringsSwept(s, |s.strt|)
    ensures StringsSwept(r, |r.strt|)
  {
  }

  /** The preconditions that `singlestep` needs in each phase. */
  lemma StepReady(s: State)
    requires Inv(s)
    ensures NoneDead(s) ==> RefsClosed(s.heap) && AllIn(Roots(s), s.heap) && AllIn(RootSet(s), s.heap)
    ensures s.phase.Propagate? ==> NoDangling(s) && AllIn(s.uvhead, s.heap) && AllIn([s.running] + s.mt, s.heap)
    ensures AllWhite(s) ==> NoneDead(s)
  {
    if NoneDead(s) {
      SafeClosed(s);
      assert forall id :: id in RootSet(s) ==> id in Roots(s) || id in s.heap[s.main].refs;
      assert forall id :: id in [s.running] + s.mt ==> id in Roots(s);
    }
  }

  /** `singlestep`. With no userdata to finalize, the last phase ends at once. */
  function SingleStep(s: State): (r: State)
    requires Inv(s)
  {
    StepReady(s);
    match s.phase
    case Pause => MarkRoot(s)
    case Propagate => if s.gray != [] then PropagateMark(s) else Atomic(s)
    case SweepString => SweepBucket(s)
    case Sweep => SweepStep(s)
    case Finalize => s.(phase := Pause)
  }

  // ------------------------------------------- every step keeps the invariant

  /** Mark bits only grow darker, and black only where black may be. */
  ghost predicate Darkens(s: State, r: State) {
    && Coloured(s) && Coloured(r) && MarksOnly(s, r)
    && (forall id :: id in s.heap ==>
          || r.marked[id] == s.marked[id]
          || r.marked[id].Gray?
          || (r.marked[id].Black? && !s.heap[id].kind.Str? && !s.heap[id].kind.Thread? && !s.heap[id].kind.OpenUpval?))
  }

  lemma DarkensTrans(a: State, b: State, c: State)
    requires Darkens(a, b) && Darkens(b, c)
    ensures Darkens(a, c)
  {
  }

  lemma MarkDarkens(s: State, r: State)
    requires MarkStep(s, r)
    ensures Darkens(s, r)
  {
    forall id | id in s.heap && r.marked[id] != s.marked[id]
      ensures Settled(r, id)
    {
    }
  }

  lemma TakeDarkens(s: State)
    requires NoDangling(s) && s.gray != [] && Listed(s.heap[s.gray[0]].kind)
    ensures Darkens(s, TakeGray(s))
  {
  }

  lemma PropagateDarkens(s: State)
    requires NoDangling(s) && s.gray != [] && s.gray[0] in s.heap && Listed(s.heap[s.gray[0]].kind)
    ensures Darkens(s, PropagateMark(s))
  {
    hide NoDangling, AllIn, MarkStep, TakeGray, MarkSeq, Darkens;
    TakeGrows(s);
    TakeDarkens(s);
    MarkSeqStep(TakeGray(s), s.heap[s.gray[0]].refs);
    MarkDarkens(TakeGray(s), PropagateMark(s));
    DarkensTrans(s, TakeGray(s), PropagateMark(s));
  }

  lemma {:induction false} PropagateAllDarkens(s: State, g: Stage)
    requires Tri(s, g)
    ensures NoDangling(s) && Darkens(s, PropagateAll(s))
    decreases Whites(s), |s.gray|
  {
    if s.gray != [] {
      assert s.gray[0] in s.gray;
      PropagateKeepsTri(s, g);
      PropagateDarkens(s);
      PropagateAllDarkens(PropagateMark(s), g);
      DarkensTrans(s, PropagateMark(s), PropagateAll(s));
    }
  }

  /** Marking keeps what the invariant says of lists and shapes. */
  lemma DarkensKeeps(s: State, r: State)
    requires Lists(s) && Shapes(s.heap, s.marked, s.main) && Darkens(s, r)
    ensures Lists(r) && Shapes(r.heap, r.marked, r.main)
  {
    hide RootList, StringTable, OpenLists, UpvalHead;
  }

  lemma DarkensKeepsSafe(s: State, r: State)
    requires Coloured(s) && Safe(s) && NoneDead(s) && Darkens(s, r)
    ensures Safe(r) && NoneDead(r)
  {
    SafeClosed(s);
    assert forall id :: id in Roots(r) ==> id in Roots(s);
    forall id, v | id in r.heap && v in r.heap[id].refs ensures Live(r, v) {
      assert v in s.heap;
    }
  }

  /** `markroot` starts a cycle from any state in which everything is white. */
  lemma MarkRootKeeps(s: State)
    requires Inv(s) && AllWhite(s)
    ensures RefsClosed(s.heap) && AllIn(RootSet(s), s.heap) && Inv(MarkRoot(s))
  {
    hide RootList, StringTable, OpenLists, UpvalHead, Shapes, Shaded, GrayLists, MarkSeq, RefsClosed,
      Whites, Darkens, MarkStep, Safe, Tri;
    StepReady(s);
    var s0 := s.(gray := [], grayagain := [], phase := Propagate);
    var r := MarkSeq(s0, RootSet(s));
    MarkSeqStep(s0, RootSet(s));
    PhaseKeeps(s, s0);
    WhiteTri(s0);
    MarkKeepsTri(s0, r, Incremental);
    MarkDarkens(s0, r);
    DarkensKeeps(s0, r);
    DarkensKeepsSafe(s0, r);
    assert forall id :: id in [s.main, s.registry] ==> id in RootSet(s) && !IsWhite(r, id);
    assert MarkRoot(s) == r;
  }

  lemma WhiteTri(s: State)
    requires Coloured(s) && RefsClosed(s.heap) && AllWhite(s) && s.gray == [] && s.grayagain == []
    ensures Tri(s, Incremental)
  {
  }

  lemma PropagateKeeps(s: State)
    requires Inv(s) && s.phase.Propagate? && s.gray != []
    ensures Inv(SingleStep(s))
  {
    hide RootList, StringTable, OpenLists, UpvalHead, Shapes, Shaded, MarkSeq, RefsClosed,
      SweepBucket, SweepStep, Atomic, Whites, Darkens, Safe;
    StepReady(s);
    assert s.gray[0] in s.gray;
    PropagateKeepsTri(s, Incremental);
    PropagateGrows(s);
    PropagateDarkens(s);
    DarkensKeeps(s, PropagateMark(s));
    DarkensKeepsSafe(s, PropagateMark(s));
  }

  /** Before the flip: lists and shapes as before, marked objects closed, roots marked. */
  lemma MarkRestKeeps(s: State)
    requires Inv(s) && s.phase.Propagate? && s.gray == []
    ensures NoDangling(s) && AllIn(s.uvhead, s.heap) && AllIn([s.running] + s.mt, s.heap)
    ensures var r := MarkRest(s);
      && Lists(r) && Shapes(r.heap, r.marked, r.main) && NoneDead(r)
      && MarkedClosed(r) && (forall id :: id in Roots(r) ==> id in r.heap && !IsWhite(r, id))
  {
    hide RootList, StringTable, OpenLists, Shaded, MarkSeq, MarkRest, GrayLists,
      SweepBucket, SweepStep, Atomic, Whites, MarkedClosed;
    StepReady(s);
    AtomicMarksAll(s);
    MarkRestDarkens(s);
    DarkensKeeps(s, MarkRest(s));
    DarkensKeepsSafe(s, MarkRest(s));
    assert forall id :: id in Roots(s) ==> id in [s.main, s.registry] || id in [s.running] + s.mt;
  }

  lemma MarkRestDarkens(s: State)
    requires ReadyForAtomic(s)
    ensures NoDangling(s) && Darkens(s, MarkRest(s))
  {
    hide Shaded, GrayLists, MarkSeq, Whites, Darkens;
    RemarkReachesStage(s);
    RemarkStep(s, s.uvhead);
    var a := RemarkUpvals(s, s.uvhead);
    MarkDarkens(s, a);
    var b := AtomicFirstPass(s);
    PropagateAllDarkens(a, Remarked);
    DarkensTrans(s, a, b);
    var d := AtomicSecondPass(b);
    SecondPassDarkens(b, d);
    DarkensTrans(s, b, d);
    var e := d.(gray := d.grayagain, grayagain := []);
    AgainReachesStage(d);
    PropagateAllDarkens(e, Final);
    AgainDarkens(d, e, PropagateAll(e));
    DarkensTrans(s, d, PropagateAll(e));
  }

  lemma SecondPassDarkens(b: State, d: State)
    requires Tri(b, Remarked) && AllIn([b.running] + b.mt, b.heap) && NoDangling(b)
    requires d == PropagateAll(MarkSeq(b, [b.running] + b.mt))
    ensures Darkens(b, d)
  {
    var c := MarkSeq(b, [b.running] + b.mt);
    MarkSeqStep(b, [b.running] + b.mt);
    MarkKeepsTri(b, c, Remarked);
    MarkDarkens(b, c);
    PropagateAllDarkens(c, Remarked);
    DarkensTrans(b, c, d);
  }

  lemma AgainDarkens(d: State, e: State, r: State)
    requires e == d.(gray := d.grayagain, grayagain := []) && Darkens(e, r)
    ensures Darkens(d, r)
  {
  }

  /** Flipping the white condemns exactly what is still white. */
  lemma FlipSafe(s: State, r: State)
    requires Coloured(s) && NoneDead(s) && MarkedClosed(s)
    requires forall id :: id in Roots(s) ==> id in s.heap && !IsWhite(s, id)
    requires r == s.(white := !s.white, sweepstr := 0, sweepgc := 0, phase := SweepString)
    ensures Coloured(r) && Safe(r)
    ensures forall id :: id in s.heap ==> (IsDead(r, id) <==> IsWhite(s, id))
  {
    assert forall id :: id in s.heap ==> !IsDead(s, id);
    forall id, v | id in r.heap && Live(r, id) && v in r.heap[id].refs ensures Live(r, v) {
      assert RefsMarked(s, id);
    }
    assert forall id :: id in Roots(r) ==> id in Roots(s);
  }

  lemma AtomicKeeps(s: State)
    requires Inv(s) && s.phase.Propagate? && s.gray == []
    ensures Inv(SingleStep(s))
  {
    hide RootList, OpenLists, UpvalHead, Shapes, MarkRest, MarkedClosed, SweepBucket, SweepStep, PropagateMark, Tri;
    MarkRestKeeps(s);
    FlipSafe(MarkRest(s), SingleStep(s));
  }

  lemma SweepStepKeeps(s: State)
    requires Inv(s) && s.phase.Sweep?
    ensures Inv(SingleStep(s))
  {
    hide RootList, OpenLists, UpvalHead, Shapes, Atomic, SweepBucket, PropagateMark, SweepList, RootsSwept;
    SweepListKeeps(s, SWEEPMAX);
    var r := SweepList(s, SWEEPMAX);
    if r != s { StringsStaySwept(s, r); SweepKeepsSafe(s, r); }
    assert Safe(r) && StringsSwept(r, |r.strt|);
    assert r.running == s.running && r.running in r.heap && r.heap[r.running].kind.Thread? by { assert s.running in Roots(s); }
    hide StringTable, SweepEffect;
    if r.sweepgc >= |r.rootgc| {
      SweptAllWhite(r);
      PhaseKeeps(r, r.(phase := Finalize));
      assert SingleStep(s) == r.(phase := Finalize);
    } else {
      assert SingleStep(s) == r && PhaseInv(r);
    }
  }

  /** Lists, shapes and safety do not depend on the phase or the gray lists. */
  lemma PhaseKeeps(s: State, r: State)
    requires Lists(s) && Shapes(s.heap, s.marked, s.main) && Safe(s)
    requires r == s.(phase := r.phase, gray := r.gray, grayagain := r.grayagain)
    ensures Lists(r) && Shapes(r.heap, r.marked, r.main) && Safe(r)
  {
    hide RootList, StringTable, OpenLists, UpvalHead, Shapes;
    forall id, v | id in r.heap && Live(r, id) && v in r.heap[id].refs ensures Live(r, v) {
      assert Live(s, id);
      assert Live(s, v);
    }
    assert forall id :: id in Roots(r) ==> id in Roots(s);
  }

  /** What a collector step may do to the object graph: free condemned objects. */
  ghost predicate StepEffect(s: State, r: State) {
    && Coloured(s) && Coloured(r)
    && r.main == s.main && r.registry == s.registry && r.mt == s.mt && r.running == s.running
    && (forall id :: id in s.heap && Survives(s, id) ==> id in r.heap)
    && (forall id :: id in r.heap ==>
          id in s.heap && r.heap[id].refs == s.heap[id].refs && r.heap[id].fixed == s.heap[id].fixed)
  }

  /** `singlestep` keeps the invariant and frees condemned objects only. */
  lemma SingleStepKeeps(s: State)
    requires Inv(s)
    ensures Inv(SingleStep(s)) && StepEffect(s, SingleStep(s))
  {
    hide RootList, StringTable, OpenLists, UpvalHead, Shapes, Safe, MarkRoot, PropagateMark, MarkRest,
      SweepBucket, SweepList, Tri, StringsSwept, RootsSwept;
    match s.phase {
      case Pause => MarkRootKeeps(s); StepReady(s);
      case Propagate => if s.gray != [] { PropagateKeeps(s); } else { AtomicKeeps(s); }
      case SweepString => SweepBucketKeeps(s); SweepBucketEffect(s);
      case Sweep => SweepStepKeeps(s); SweepListKeeps(s, SWEEPMAX);
      case Finalize => PhaseKeeps(s, s.(phase := Pause));
    }
  }
}
