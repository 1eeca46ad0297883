/** `luaC_fullgc`: it terminates, and afterwards exactly the reachable objects and the
    fixed strings are left. */
module GcFull {
  import opened Common
  import opened GcModel
  import opened GcMark
  import opened GcInvariant
  import opened GcSweep
  import opened GcStep
  import opened GcProgram
  import opened GcSpared

  // ------------------------------------ the collector keeps the reachable graph

  lemma {:induction false} PathKept(s: State, r: State, p: seq<Id>)
    requires Coloured(s) && Safe(s) && StepEffect(s, r) && IsPath(s.heap, p) && p[0] in Roots(s)
    ensures IsPath(r.heap, p)
    decreases |p|
  {
    forall i | 0 <= i < |p| - 1 ensures p[i] in r.heap && p[i + 1] in r.heap[p[i]].refs {
      var q := p[..i + 1];
      assert IsPath(s.heap, q) && q[0] == p[0] && q[|q| - 1] == p[i];
      PathLive(s, q);
    }
  }

  /** A collector step changes nothing of what the program can reach. */
  lemma StepKeepsReachable(s: State, r: State, id: Id)
    requires Coloured(s) && Safe(s) && StepEffect(s, r)
    ensures Reachable(s, id) <==> Reachable(r, id)
  {
    assert Roots(r) == Roots(s);
    if Reachable(s, id) {
      var p :| IsPath(s.heap, p) && p[0] in Roots(s) && p[|p| - 1] == id;
      PathKept(s, r, p);
    }
    if Reachable(r, id) {
      var p :| IsPath(r.heap, p) && p[0] in Roots(r) && p[|p| - 1] == id;
      assert IsPath(s.heap, p);
    }
  }

  // ------------------------------------------- marking stays within the reachable

  /** Every marked object is reachable. */
  ghost predicate Grounded(s: State)
    requires Coloured(s)
  {
    forall id :: id in s.heap && !IsWhite(s, id) ==> Reachable(s, id)
  }

  lemma RefReachable(s: State, id: Id, v: Id)
    requires Reachable(s, id) && id in s.heap && v in s.heap[id].refs
    ensures Reachable(s, v)
  {
    var p :| IsPath(s.heap, p) && p[0] in Roots(s) && p[|p| - 1] == id;
    var q := p + [v];
    assert IsPath(s.heap, q) by {
      forall i | 0 <= i < |q| - 1 ensures q[i] in s.heap && q[i + 1] in s.heap[q[i]].refs {
        if i < |p| - 1 { assert p[i] in s.heap && p[i + 1] in s.heap[p[i]].refs; }
      }
    }
    assert q[0] in Roots(s) && q[|q| - 1] == v;
  }

  /** What the program cannot reach. */
  ghost function Garbage(s: State): set<Id> {
    set id | id in s.heap && !Reachable(s, id)
  }

  lemma GroundedIff(s: State)
    requires Coloured(s)
    ensures Grounded(s) <==> Spared(s, Garbage(s))
  {
    hide Reachable;
  }

  lemma RootReachable(s: State, id: Id)
    requires id in Roots(s)
    ensures Reachable(s, id)
  {
    var p := [id];
    assert IsPath(s.heap, p) && p[0] in Roots(s) && p[|p| - 1] == id;
  }

  lemma GarbageSealed(s: State)
    ensures Sealed(s.heap, Garbage(s)) && Outside(Roots(s), Garbage(s))
  {
    hide ReachableIn;
    forall id, v | id in s.heap && id !in Garbage(s) && v in s.heap[id].refs ensures v !in Garbage(s) { RefReachable(s, id, v); }
    forall id | id in Roots(s) ensures id !in Garbage(s) { RootReachable(s, id); }
  }

  lemma GarbageSame(s: State, r: State)
    requires r.heap == s.heap && Roots(r) == Roots(s)
    ensures Garbage(r) == Garbage(s)
  {
    hide ReachableIn;
  }

  lemma PropagateGrounded(s: State)
    requires NoDangling(s) && Grounded(s) && GrayLists(s) && s.gray != []
    ensures Grounded(PropagateMark(s))
  {
    hide Grounded, Spared, Garbage, Sealed;
    var r := PropagateMark(s);
    GroundedIff(s);
    GarbageSealed(s);
    PropagateSpares(s, Garbage(s));
    GarbageSame(s, r);
    GroundedIff(r);
  }

  lemma MarkRestGrounded(s: State)
    requires ReadyForAtomic(s) && Grounded(s)
    ensures NoDangling(s) && Grounded(MarkRest(s))
  {
    hide Tri, Grounded, Spared, Garbage, Sealed, Outside, MarkRest;
    AtomicMarksAll(s);
    GroundedIff(s);
    GarbageSealed(s);
    MarkRestSpares(s, Garbage(s));
    GarbageSame(s, MarkRest(s));
    GroundedIff(MarkRest(s));
  }

  // ------------------------------------------------------------- termination

  function Rank(p: Phase): nat {
    match p
    case Propagate => 4
    case SweepString => 3
    case Sweep => 2
    case Finalize => 1
    case Pause => 0
  }

  /** What is left to do of the current phase. */
  ghost function Unmarked(s: State): set<Id> {
    if s.phase.Propagate? then Whites(s) else {}
  }

  ghost function Waiting(s: State): int {
    match s.phase
    case Propagate => |s.gray|
    case SweepString => |s.strt| - s.sweepstr
    case _ => 0
  }

  ghost function Threads(s: State): set<Id> {
    if s.phase.Sweep? then s.open.Keys else {}
  }

  ghost function Unswept(s: State): int {
    if s.phase.Sweep? then |s.rootgc| - s.sweepgc else 0
  }

  /** The order in which the work left goes down. */
  ghost predicate LessLeft(r: State, s: State) {
    if r.phase != s.phase then Rank(r.phase) < Rank(s.phase)
    else if Unmarked(r) != Unmarked(s) then Unmarked(r) < Unmarked(s)
    else if Waiting(r) != Waiting(s) then Waiting(r) < Waiting(s)
    else if Threads(r) != Threads(s) then Threads(r) < Threads(s)
    else Unswept(r) < Unswept(s)
  }

  /** Outside the pause, every `singlestep` makes progress. */
  lemma Progress(s: State)
    requires Inv(s) && !s.phase.Pause?
    ensures LessLeft(SingleStep(s), s) && Waiting(s) >= 0 && Unswept(s) >= 0
    ensures s.phase.SweepString? || s.phase.Sweep? ==> !SingleStep(s).phase.Pause? && !SingleStep(s).phase.Propagate?
  {
    hide RootList, StringTable, OpenLists, UpvalHead, Shapes, Safe, Tri, MarkRest, SweepList, NoDup;
    match s.phase {
      case Propagate => StepReady(s);
      case SweepString => SweepBucketEffect(s);
      case Sweep => SweepListKeeps(s, SWEEPMAX);
      case Finalize =>
    }
  }

  /** `singlestep` with its promises. */
  ghost function Next(s: State): (r: State)
    requires Inv(s) && !s.phase.Pause?
    ensures Inv(r) && LessLeft(r, s) && Waiting(s) >= 0 && Unswept(s) >= 0
    ensures r == SingleStep(s)
    ensures s.phase.SweepString? || s.phase.Sweep? ==> !r.phase.Pause? && !r.phase.Propagate?
  {
    hide SingleStep, Inv, LessLeft, Waiting, Unswept;
    Progress(s);
    SingleStepKeeps(s);
    SingleStep(s)
  }

  /** The loop of `luaC_fullgc` up to a phase: `GCSfinalize` or `GCSpause`. */
  ghost function RunTo(s: State, p: Phase): (r: State)
    requires Inv(s) && (p.Pause? || (p.Finalize? && !s.phase.Pause? && !s.phase.Propagate?))
    ensures Inv(r) && r.phase == p
    decreases Rank(s.phase), Unmarked(s), Waiting(s), Threads(s), Unswept(s)
  {
    hide SingleStep, Inv, Unmarked, Waiting, Threads, Unswept;
    if s.phase == p then s else RunTo(Next(s), p)
  }

  /** `luaC_fullgc` before its first sweep: a cycle under way is given up. */
  function Abandon(s: State): State {
    if s.phase.Pause? || s.phase.Propagate?
    then s.(sweepstr := 0, sweepgc := 0, gray := [], grayagain := [], phase := SweepString)
    else s
  }

  lemma AbandonKeeps(s: State)
    requires Inv(s)
    ensures Inv(Abandon(s)) && StepEffect(s, Abandon(s))
  {
    hide RootList, StringTable, OpenLists, UpvalHead, Shapes, NoDup, Tri;
    var r := Abandon(s);
    forall id, v | id in r.heap && Live(r, id) && v in r.heap[id].refs ensures Live(r, v) {
      assert Live(s, id);
      assert Live(s, v);
    }
    assert forall id :: id in Roots(r) ==> id in Roots(s);
    assert |s.strt| > 0 by { SomeBucket(s); }
  }

  lemma SomeBucket(s: State)
    requires Lists(s)
    ensures |s.strt| > 0
  {
  }

  lemma InvParts(s: State)
    requires Inv(s)
    ensures Coloured(s) && Safe(s) && s.main in s.heap
  {
  }

  /** `luaC_fullgc`: finish any sweep, then run one whole cycle. */
  ghost function FullGc(s: State): (r: State)
    requires Inv(s)
    ensures Inv(r) && r.phase.Pause?
  {
    hide Lists, Shapes, Safe, RunTo, MarkRoot, RefsClosed, AllIn, RootSet, Tri;
    AbandonKeeps(s);
    var s1 := RunTo(Abandon(s), Finalize);
    InvParts(s1);
    MarkRootKeeps(s1);
    RunTo(MarkRoot(s1), Pause)
  }

  // ------------------------------------------------- what a full cycle leaves

  /** The collector ran from `s` to `r`: reachable and fixed objects are as before. */
  ghost predicate Keeps(s: State, r: State) {
    && Roots(r) == Roots(s)
    && (forall id :: id in r.heap ==>
          id in s.heap && r.heap[id].refs == s.heap[id].refs && r.heap[id].fixed == s.heap[id].fixed)
    && (forall id :: id in s.heap && (Reachable(s, id) || s.heap[id].fixed) ==> id in r.heap)
    && (forall id :: Reachable(s, id) <==> Reachable(r, id))
  }

  lemma EffectKeeps(s: State, r: State)
    requires Coloured(s) && Safe(s) && StepEffect(s, r)
    ensures Keeps(s, r)
  {
    forall id ensures Reachable(s, id) <==> Reachable(r, id) { StepKeepsReachable(s, r, id); }
    forall id | id in s.heap && (Reachable(s, id) || s.heap[id].fixed) ensures id in r.heap {
      if Reachable(s, id) { ReachableLive(s, id); }
      assert Survives(s, id);
    }
  }

  lemma KeepsTrans(a: State, b: State, c: State)
    requires Keeps(a, b) && Keeps(b, c)
    ensures Keeps(a, c)
  {
    hide ReachableIn;
  }

  lemma {:induction false} RunToKeeps(s: State, p: Phase)
    requires Inv(s) && (p.Pause? || (p.Finalize? && !s.phase.Pause? && !s.phase.Propagate?))
    ensures Keeps(s, RunTo(s, p))
    decreases Rank(s.phase), Unmarked(s), Waiting(s), Threads(s), Unswept(s)
  {
    if s.phase == p {
      hide *;
      KeepsRefl(s);
    } else {
      SingleStepKeeps(s);
      EffectKeeps(s, Next(s));
      hide SingleStep, Inv, Unmarked, Waiting, Threads, Unswept, Keeps;
      RunToKeeps(Next(s), p);
      KeepsTrans(s, Next(s), RunTo(Next(s), p));
    }
  }

  lemma KeepsRefl(s: State)
    ensures Keeps(s, s)
  {
    hide ReachableIn;
  }

  /** In a cycle the program does not interrupt, only reachable objects are marked,
      and after the flip everything else but the fixed strings is condemned. */
  ghost predicate Tight(s: State) {
    && Coloured(s)
    && if s.phase.Propagate? then Grounded(s)
       else forall id :: id in s.heap ==> Reachable(s, id) || s.heap[id].fixed || IsDead(s, id)
  }

  lemma SweepTight(s: State, r: State)
    requires Inv(s) && Tight(s) && !s.phase.Propagate? && !r.phase.Propagate? && SweepEffect(s, r) && Keeps(s, r)
    ensures Tight(r)
  {
    hide ReachableIn, Inv;
  }

  lemma AtomicReady(s: State)
    requires Inv(s) && s.phase.Propagate? && s.gray == []
    ensures ReadyForAtomic(s)
  {
    StepReady(s);
  }

  lemma FlipTight(m: State, r: State)
    requires Coloured(m) && Grounded(m) && NoneDead(m)
    requires r == m.(white := !m.white, sweepstr := 0, sweepgc := 0, phase := SweepString)
    ensures Tight(r)
  {
    hide ReachableIn;
    assert Roots(r) == Roots(m);
    forall id | id in r.heap ensures Reachable(r, id) || IsDead(r, id) {
      assert Reachable(m, id) || IsWhite(m, id);
      assert !IsDead(m, id);
    }
  }

  lemma AtomicTight(s: State)
    requires Inv(s) && s.phase.Propagate? && s.gray == [] && Grounded(s)
    ensures Tight(SingleStep(s))
  {
    AtomicReady(s);
    MarkRestGrounded(s);
    MarkRestKeeps(s);
    hide Inv, Grounded, Lists, Shapes, MarkRest, NoneDead, ReadyForAtomic, Tight;
    FlipTight(MarkRest(s), SingleStep(s));
  }

  lemma TightStep(s: State)
    requires Inv(s) && Tight(s) && !s.phase.Pause?
    ensures Inv(Next(s)) && Tight(Next(s))
  {
    hide ReachableIn, RootList, StringTable, OpenLists, Shapes, Safe, MarkRest, SweepBucket, SweepList, Shaded;
    var r := Next(s);
    SingleStepKeeps(s);
    EffectKeeps(s, r);
    match s.phase {
      case Propagate =>
        if s.gray != [] { StepReady(s); PropagateGrounded(s); } else { AtomicTight(s); }
      case SweepString =>
        SweepBucketEffect(s);
        SweepTight(s, r);
      case Sweep =>
        SweepListKeeps(s, SWEEPMAX);
        SweepRefl(s);
        SweepTight(s, r);
      case Finalize =>
        SweepRefl(s);
        SweepTight(s, r);
    }
  }

  lemma SweepRefl(s: State)
    requires Coloured(s)
    ensures forall p :: SweepEffect(s, s.(phase := p))
  {
  }

  lemma {:induction false} RunToTight(s: State)
    requires Inv(s) && Tight(s)
    ensures Tight(RunTo(s, Pause))
    decreases Rank(s.phase), Unmarked(s), Waiting(s), Threads(s), Unswept(s)
  {
    hide SingleStep, Inv, Unmarked, Waiting, Threads, Unswept, Tight;
    if !s.phase.Pause? {
      TightStep(s);
      RunToTight(Next(s));
    }
  }

  lemma RootSetReachable(s: State)
    requires s.main in s.heap
    ensures forall id :: id in RootSet(s) ==> Reachable(s, id)
  {
    hide ReachableIn;
    forall id | id in RootSet(s) ensures Reachable(s, id) {
      if id in Roots(s) { RootReachable(s, id); } else { RootReachable(s, s.main); RefReachable(s, s.main, id); }
    }
  }

  lemma WhiteSpared(s: State, g: set<Id>)
    requires Coloured(s) && AllWhite(s)
    ensures Spared(s, g)
  {
  }

  lemma MarkRootGrounded(s: State, s0: State)
    requires Coloured(s) && AllWhite(s) && RefsClosed(s.heap) && s.main in s.heap && AllIn(RootSet(s), s.heap)
    requires s0 == s.(gray := [], grayagain := [], phase := Propagate)
    ensures Grounded(MarkRoot(s)) && Coloured(MarkRoot(s))
  {
    assert NoDangling(s0);
    hide ReachableIn, RefsClosed, Sealed, Spared;
    var g := Garbage(s0);
    GarbageSealed(s0);
    RootSetReachable(s0);
    WhiteSpared(s0, g);
    MarkSeqSpares(s0, g, RootSet(s));
    GarbageSame(s0, MarkRoot(s));
    GroundedIff(MarkRoot(s));
  }

  lemma MarksOnlyKeeps(s: State, r: State)
    requires MarksOnly(s, r)
    ensures Keeps(s, r)
  {
    hide ReachableIn;
    assert Roots(r) == Roots(s);
  }

  lemma MarkRootTight(s: State)
    requires Inv(s) && AllWhite(s)
    ensures RefsClosed(s.heap) && AllIn(RootSet(s), s.heap) && Tight(MarkRoot(s)) && Keeps(s, MarkRoot(s))
  {
    MarkRootKeeps(s);
    assert Coloured(s) && s.main in s.heap;
    var s0 := s.(gray := [], grayagain := [], phase := Propagate);
    hide ReachableIn, Inv, RefsClosed, AllIn, AllWhite, Grounded, Keeps, RootSet;
    MarkRootGrounded(s, s0);
    MarksOnlyKeeps(s0, MarkRoot(s));
    PhaseKept(s, s0);
    KeepsTrans(s, s0, MarkRoot(s));
  }

  lemma PhaseKept(s: State, r: State)
    requires r == s.(gray := r.gray, grayagain := r.grayagain, phase := r.phase)
    ensures Keeps(s, r)
  {
    hide ReachableIn;
    assert Roots(r) == Roots(s);
  }

  /** A run of the collector that ends in the pause with nothing left to free. */
  ghost predicate Exact(s: State, r: State) {
    && (forall id :: id in r.heap <==> id in s.heap && (Reachable(s, id) || s.heap[id].fixed))
    && (forall id :: id in r.heap ==> r.heap[id].refs == s.heap[id].refs)
    && (forall id :: Reachable(s, id) <==> Reachable(r, id))
  }

  lemma TightExact(s: State, r: State)
    requires Keeps(s, r) && Inv(r) && r.phase.Pause? && Tight(r)
    ensures Exact(s, r)
  {
    hide Reachable, Lists, Shapes, Safe;
    assert Coloured(r);
  }

  /** The full collection: it frees exactly the objects the program cannot reach,
      fixed strings apart, and leaves the reachable ones as they were. */
  lemma FullGcIsExact(s: State)
    requires Inv(s)
    ensures Exact(s, FullGc(s))
  {
    hide Reachable, RunTo, Lists, Shapes, Safe, RefsClosed, AllIn, RootSet, MarkRoot, Keeps, Tight, StepEffect, Exact;
    InvParts(s);
    AbandonKeeps(s);
    EffectKeeps(s, Abandon(s));
    var s1 := RunTo(Abandon(s), Finalize);
    RunToKeeps(Abandon(s), Finalize);
    InvParts(s1);
    MarkRootKeeps(s1);
    MarkRootTight(s1);
    var s2 := MarkRoot(s1);
    RunToKeeps(s2, Pause);
    RunToTight(s2);
    KeepsTrans(s, Abandon(s), s1);
    KeepsTrans(s, s1, s2);
    KeepsTrans(s, s2, FullGc(s));
    TightExact(s, FullGc(s));
  }
}
