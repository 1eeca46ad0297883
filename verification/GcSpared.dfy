/** Marking stays away from objects that nothing else refers to. */
module GcSpared {
  import opened GcModel
  import opened GcMark
  import opened GcInvariant

  /** No object outside `g` refers into `g`. */
  ghost predicate Sealed(heap: Heap, g: set<Id>) {
    forall id, v :: id in heap && id !in g && v in heap[id].refs ==> v !in g
  }

  /** No object of `g` is marked. */
  ghost predicate Spared(s: State, g: set<Id>)
    requires Coloured(s)
  {
    forall id :: id in g && id in s.heap ==> IsWhite(s, id)
  }

  ghost predicate Outside(ids: seq<Id>, g: set<Id>) {
    forall id :: id in ids ==> id !in g
  }

  lemma RefsOutside(heap: Heap, g: set<Id>, id: Id)
    requires Sealed(heap, g) && id in heap && id !in g
    ensures Outside(heap[id].refs, g)
  {
  }

  lemma PaintSpares(s: State, g: set<Id>, id: Id, c: Colour)
    requires Coloured(s) && id in s.heap && Spared(s, g) && id !in g
    ensures Coloured(Paint(s, id, c)) && Spared(Paint(s, id, c), g)
  {
  }

  lemma {:induction false} ReallyMarkSpares(s: State, g: set<Id>, id: Id)
    requires NoDangling(s) && id in s.heap && IsWhite(s, id) && Sealed(s.heap, g) && Spared(s, g) && id !in g
    ensures Spared(ReallyMark(s, id), g)
    decreases Whites(s), 0, 0
  {
    hide Sealed, Spared, Outside;
    assert id in Whites(s);
    RefsOutside(s.heap, g, id);
    var s1 := Paint(s, id, Gray);
    var refs := s.heap[id].refs;
    PaintSpares(s, g, id, Gray);
    match s.heap[id].kind {
      case Udata => PaintSpares(s1, g, id, Black); MarkSeqSpares(Paint(s1, id, Black), g, refs);
      case OpenUpval(_) => MarkSeqSpares(s1, g, refs);
      case ClosedUpval => MarkSeqSpares(s1, g, refs); PaintSpares(MarkSeq(s1, refs), g, id, Black);
      case Str(_) =>
      case _ => SparedSame(s1, ReallyMark(s, id), g);
    }
  }

  lemma SparedSame(s: State, r: State, g: set<Id>)
    requires Coloured(s) && Spared(s, g) && r.heap == s.heap && r.marked == s.marked
    ensures Coloured(r) && Spared(r, g)
  {
  }

  lemma {:induction false} MarkSeqSpares(s: State, g: set<Id>, ids: seq<Id>)
    requires NoDangling(s) && AllIn(ids, s.heap) && Sealed(s.heap, g) && Spared(s, g) && Outside(ids, g)
    ensures Spared(MarkSeq(s, ids), g)
    decreases Whites(s), 2, |ids|
  {
    hide Sealed, Spared;
    if ids != [] {
      assert ids[0] in ids;
      if IsWhite(s, ids[0]) { ReallyMarkSpares(s, g, ids[0]); }
      MarkSeqSpares(MarkObject(s, ids[0]), g, ids[1..]);
    }
  }

  lemma PropagateSpares(s: State, g: set<Id>)
    requires NoDangling(s) && GrayLists(s) && s.gray != [] && Sealed(s.heap, g) && Spared(s, g)
    ensures Spared(PropagateMark(s), g)
  {
    hide Sealed;
    var id := s.gray[0];
    assert id in s.gray && !IsWhite(s, id);
    RefsOutside(s.heap, g, id);
    MarkSeqSpares(TakeGray(s), g, s.heap[id].refs);
  }

  lemma {:induction false} PropagateAllSpares(s: State, g: set<Id>, stage: Stage)
    requires Tri(s, stage) && Sealed(s.heap, g) && Spared(s, g)
    ensures NoDangling(s) && Spared(PropagateAll(s), g)
    decreases Whites(s), |s.gray|
  {
    hide Sealed, Spared;
    if s.gray != [] {
      PropagateKeepsTri(s, stage);
      PropagateSpares(s, g);
      PropagateAllSpares(PropagateMark(s), g, stage);
    }
  }

  lemma {:induction false} RemarkSpares(s: State, g: set<Id>, uvs: seq<Id>)
    requires NoDangling(s) && AllIn(uvs, s.heap) && Sealed(s.heap, g) && Spared(s, g)
    ensures Spared(RemarkUpvals(s, uvs), g)
    decreases |uvs|
  {
    hide Sealed;
    if uvs != [] {
      var s1 := if s.marked[uvs[0]].Gray? then MarkSeq(s, s.heap[uvs[0]].refs) else s;
      if s.marked[uvs[0]].Gray? {
        RefsOutside(s.heap, g, uvs[0]);
        MarkSeqSpares(s, g, s.heap[uvs[0]].refs);
      }
      RemarkSpares(s1, g, uvs[1..]);
    }
  }

  lemma FirstPassSpares(s: State, g: set<Id>)
    requires ReadyForAtomic(s) && Sealed(s.heap, g) && Spared(s, g)
    ensures NoDangling(s) && Spared(PropagateAll(RemarkUpvals(s, s.uvhead)), g)
  {
    hide Sealed, Spared;
    RemarkReachesStage(s);
    RemarkSpares(s, g, s.uvhead);
    PropagateAllSpares(RemarkUpvals(s, s.uvhead), g, Remarked);
  }

  lemma SecondPassSpares(b: State, g: set<Id>)
    requires Tri(b, Remarked) && AllIn([b.running] + b.mt, b.heap) && NoDangling(b)
    requires Sealed(b.heap, g) && Spared(b, g) && Outside([b.running] + b.mt, g)
    ensures Spared(PropagateAll(MarkSeq(b, [b.running] + b.mt)), g)
  {
    hide Sealed, Spared;
    var c := MarkSeq(b, [b.running] + b.mt);
    MarkSeqSpares(b, g, [b.running] + b.mt);
    MarkSeqStep(b, [b.running] + b.mt);
    MarkKeepsTri(b, c, Remarked);
    PropagateAllSpares(c, g, Remarked);
  }

  lemma ThirdPassSpares(d: State, g: set<Id>)
    requires Tri(d, Remarked) && d.gray == [] && NoDangling(d) && Sealed(d.heap, g) && Spared(d, g)
    ensures Spared(PropagateAll(d.(gray := d.grayagain, grayagain := [])), g)
  {
    hide Sealed, Spared;
    var e := d.(gray := d.grayagain, grayagain := []);
    AgainReachesStage(d);
    SparedSame(d, e, g);
    PropagateAllSpares(e, g, Final);
  }

  /** The three passes of `atomic` mark nothing of `g` either. */
  lemma MarkRestSpares(s: State, g: set<Id>)
    requires ReadyForAtomic(s) && Sealed(s.heap, g) && Spared(s, g) && Outside(Roots(s), g)
    ensures NoDangling(s) && Spared(MarkRest(s), g)
  {
    hide Tri, Sealed, Spared;
    FirstPassSpares(s, g);
    var b := AtomicFirstPass(s);
    assert Outside([b.running] + b.mt, g) by {
      forall id | id in [b.running] + b.mt ensures id !in g { assert id in Roots(s); }
    }
    SecondPassSpares(b, g);
    var d := AtomicSecondPass(b);
    ThirdPassSpares(d, g);
  }
}
