/** What marking does: the tricolour invariant through the propagate phase and the
    three passes of `atomic`. */
module GcMark {
  import opened Common
  import opened GcModel

  /** Kinds that wait in a gray list until they are traversed. */
  predicate Listed(k: Kind) {
    k.Func? || k.Tab? || k.Thread? || k.Proto?
  }

  ghost predicate RefsMarked(s: State, id: Id)
    requires id in s.heap && Coloured(s)
  {
    forall v :: v in s.heap[id].refs ==> v in s.heap && !IsWhite(s, v)
  }

  /** How an object may look right after `reallymarkobject` has left it. */
  ghost predicate Settled(s: State, id: Id)
    requires id in s.heap && Coloured(s)
  {
    match s.heap[id].kind
    case Str(_) => s.marked[id].Gray?
    case OpenUpval(_) => s.marked[id].Gray? && RefsMarked(s, id)
    case Udata => s.marked[id].Black? && RefsMarked(s, id)
    case ClosedUpval => s.marked[id].Black? && RefsMarked(s, id)
    case _ => s.marked[id].Gray? && id in s.gray
  }

  /** The objects pushed on the gray list between `s` and `r`. */
  ghost function Pushed(s: State, r: State): seq<Id>
    requires |s.gray| <= |r.gray|
  {
    r.gray[..|r.gray| - |s.gray|]
  }

  /** `r` is `s` after some white objects were marked. */
  ghost predicate MarkStep(s: State, r: State) {
    && Coloured(s) && Coloured(r)
    && r == s.(marked := r.marked, gray := r.gray)
    && (forall id :: id in s.heap && !IsWhite(s, id) ==> r.marked[id] == s.marked[id])
    && (forall id :: id in s.heap && IsWhite(s, id) ==> r.marked[id] == s.marked[id] || Settled(r, id))
    && |s.gray| <= |r.gray| && r.gray == Pushed(s, r) + s.gray
    && NoDup(Pushed(s, r))
    && (forall id :: id in Pushed(s, r) ==>
          id in s.heap && IsWhite(s, id) && r.marked[id].Gray? && Listed(s.heap[id].kind))
  }

  lemma MarkStepTrans(a: State, b: State, c: State)
    requires MarkStep(a, b) && MarkStep(b, c)
    ensures MarkStep(a, c)
  {
    assert Pushed(a, c) == Pushed(b, c) + Pushed(a, b);
    NoDupConcat(Pushed(b, c), Pushed(a, b));
    forall id | id in a.heap && IsWhite(a, id) && c.marked[id] != a.marked[id]
      ensures Settled(c, id)
    {
      if b.marked[id] != a.marked[id] {
        assert Settled(b, id);
        assert c.marked[id] == b.marked[id];
      }
    }
  }

  /** Painting a white object, marking its references and painting it once more. */
  lemma PaintedStep(s: State, id: Id, c: Colour, r1: State, d: Colour)
    requires Coloured(s) && id in s.heap && IsWhite(s, id) && !c.White? && !d.White?
    requires MarkStep(Paint(s, id, c), r1)
    requires Settled(Paint(r1, id, d), id)
    ensures MarkStep(s, Paint(r1, id, d))
  {
    hide Settled, NoDup;
    var s1 := Paint(s, id, c);
    var r := Paint(r1, id, d);
    assert Pushed(s, r) == Pushed(s1, r1);
    forall o | o in s.heap && IsWhite(s, o) && r.marked[o] != s.marked[o]
      ensures Settled(r, o)
    {
      if o != id { PaintSettles(r1, id, d, o); }
    }
  }

  lemma PaintSettles(s: State, id: Id, d: Colour, o: Id)
    requires Coloured(s) && id in s.heap && o in s.heap && o != id && Settled(s, o) && !d.White?
    ensures Settled(Paint(s, id, d), o)
  {
  }

  /** Where an object of one of the kinds that are marked at once ends up. */
  predicate Painted(k: Kind, c: Colour, d: Colour) {
    match k
    case OpenUpval(_) => c.Gray? && d.Gray?
    case Udata => c.Black? && d.Black?
    case ClosedUpval => !c.White? && d.Black?
    case _ => false
  }

  lemma PaintReady(s: State, id: Id, c: Colour)
    requires NoDangling(s) && id in s.heap && IsWhite(s, id) && !c.White?
    ensures id in Whites(s) && NoDangling(Paint(s, id, c)) && AllIn(s.heap[id].refs, s.heap) && Paint(s, id, c).marked[id] == c
  {
  }

  lemma PaintedSettled(s: State, id: Id, c: Colour, d: Colour, r: State)
    requires Coloured(s) && id in s.heap && IsWhite(s, id) && Painted(s.heap[id].kind, c, d)
    requires MarkStep(Paint(s, id, c), r) && forall v :: v in s.heap[id].refs ==> v in r.heap && !IsWhite(r, v)
    ensures id in r.heap && r.marked[id] == c && Settled(Paint(r, id, d), id)
  {
    hide NoDup, Pushed;
    assert RefsMarked(Paint(r, id, d), id);
  }

  lemma {:induction false} PaintMarkPaint(s: State, id: Id, c: Colour, d: Colour)
    requires NoDangling(s) && id in s.heap && IsWhite(s, id) && Painted(s.heap[id].kind, c, d)
    ensures Whites(Paint(s, id, c)) < Whites(s)
    ensures var r := MarkSeq(Paint(s, id, c), s.heap[id].refs);
      MarkStep(s, Paint(r, id, d)) && r.marked[id] == c
    decreases Whites(s), 0, 0
  {
    hide RefsClosed, MarkStep, Settled, AllIn, Whites;
    PaintReady(s, id, c);
    var r := MarkSeq(Paint(s, id, c), s.heap[id].refs);
    MarkSeqStep(Paint(s, id, c), s.heap[id].refs);
    PaintedSettled(s, id, c, d, r);
    PaintedStep(s, id, c, r, d);
  }

  /** A string goes gray; an object of a listed kind goes gray into the list. */
  lemma GrayStep(s: State, id: Id, r: State)
    requires Coloured(s) && id in s.heap && IsWhite(s, id)
    requires match s.heap[id].kind
      case Str(_) => r == Paint(s, id, Gray)
      case k => Listed(k) && r == Paint(s, id, Gray).(gray := [id] + s.gray)
    ensures MarkStep(s, r)
  {
    if s.heap[id].kind.Str? {
      assert Pushed(s, r) == [];
    } else {
      assert Pushed(s, r) == [id];
    }
  }

  lemma PaintTwice(s: State, id: Id, c: Colour, d: Colour)
    requires id in s.marked
    ensures Paint(Paint(s, id, c), id, d) == Paint(s, id, d)
  {
  }

  lemma {:induction false} ReallyMarkStep(s: State, id: Id)
    requires NoDangling(s) && id in s.heap && IsWhite(s, id)
    ensures MarkStep(s, ReallyMark(s, id)) && !IsWhite(ReallyMark(s, id), id)
    decreases Whites(s), 0, 1
  {
    hide MarkStep, RefsClosed, AllIn, Whites, MarkSeq, Settled;
    var r := ReallyMark(s, id);
    match s.heap[id].kind {
      case Udata =>
        PaintMarkPaint(s, id, Black, Black);
        PaintTwice(s, id, Gray, Black);
        assert r == Paint(r, id, Black);
      case OpenUpval(_) =>
        PaintMarkPaint(s, id, Gray, Gray);
        assert r == Paint(r, id, Gray);
      case ClosedUpval =>
        PaintMarkPaint(s, id, Gray, Black);
      case _ =>
        GrayStep(s, id, r);
    }
  }

  lemma {:induction false} MarkObjectStep(s: State, id: Id)
    requires NoDangling(s) && id in s.heap
    ensures MarkStep(s, MarkObject(s, id)) && !IsWhite(MarkObject(s, id), id)
    decreases Whites(s), 1, 0
  {
    if IsWhite(s, id) { ReallyMarkStep(s, id); }
  }

  /** Marking a list of values leaves them all marked and changes nothing else but
      white objects, each left in a settled colour. */
  lemma {:induction false} MarkSeqStep(s: State, ids: seq<Id>)
    requires NoDangling(s) && AllIn(ids, s.heap)
    ensures MarkStep(s, MarkSeq(s, ids))
    ensures forall id :: id in ids ==> !IsWhite(MarkSeq(s, ids), id)
    decreases Whites(s), 2, |ids|
  {
    if ids != [] {
      var s1 := MarkObject(s, ids[0]);
      MarkObjectStep(s, ids[0]);
      MarkSeqStep(s1, ids[1..]);
      MarkStepTrans(s, s1, MarkSeq(s, ids));
    }
  }

  // ------------------------------------------------- the tricolour invariant

  /** How far the mark phase has got: still propagating (open upvalues and the
      `grayagain` list excused), open upvalues remarked (`grayagain` excused), or
      traversing `grayagain` for good (nothing excused). */
  datatype Stage = Incremental | Remarked | Final

  /** What the colour of a marked object promises at a stage. */
  ghost predicate Shaded(s: State, g: Stage, id: Id)
    requires id in s.heap && Coloured(s)
  {
    match s.heap[id].kind
    case Str(_) => s.marked[id].Gray?
    case OpenUpval(_) => s.marked[id].Gray? && (!g.Incremental? ==> RefsMarked(s, id))
    case Udata => s.marked[id].Black? && RefsMarked(s, id)
    case ClosedUpval => s.marked[id].Black? && RefsMarked(s, id)
    case Thread =>
      s.marked[id].Gray? && (id in s.gray || (id in s.grayagain && (g.Final? ==> RefsMarked(s, id))))
    case _ =>
      || (s.marked[id].Black? && RefsMarked(s, id))
      || (s.marked[id].Gray? && (id in s.gray || (id in s.grayagain && !g.Final?)))
  }

  /** The gray lists hold distinct gray objects of the right kinds. */
  ghost predicate GrayLists(s: State) {
    && Coloured(s)
    && NoDup(s.gray) && NoDup(s.grayagain)
    && (forall id :: id in s.gray ==> id !in s.grayagain)
    && (forall id :: id in s.gray || id in s.grayagain ==>
          id in s.heap && s.marked[id].Gray? && Listed(s.heap[id].kind))
  }

  /** The tricolour invariant: the references of a black object are all marked, and
      every gray object is waiting in a list or holds no unmarked reference. */
  ghost predicate Tri(s: State, g: Stage) {
    && RefsClosed(s.heap) && GrayLists(s)
    && (forall id :: id in s.heap && !IsWhite(s, id) ==> Shaded(s, g, id))
  }

  lemma MarkKeepsTri(s: State, r: State, g: Stage)
    requires Tri(s, g) && MarkStep(s, r)
    ensures Tri(r, g)
  {
    MarkKeepsLists(s, r);
    forall id | id in r.heap && !IsWhite(r, id)
      ensures Shaded(r, g, id)
    {
      if IsWhite(s, id) { assert Settled(r, id); } else { assert Shaded(s, g, id); }
    }
  }

  lemma MarkKeepsLists(s: State, r: State)
    requires GrayLists(s) && MarkStep(s, r)
    ensures GrayLists(r)
  {
    NoDupConcat(Pushed(s, r), s.gray);
  }

  lemma NoDupTail(l: seq<Id>)
    requires NoDup(l) && l != []
    ensures NoDup(l[1..]) && l[0] in l && forall x :: x in l[1..] <==> x in l && x != l[0]
  {
  }

  lemma TakeKeepsLists(s: State)
    requires NoDangling(s) && GrayLists(s) && s.gray != []
    ensures GrayLists(TakeGray(s))
  {
    hide NoDup, RefsClosed, AllIn;
    var id := s.gray[0];
    NoDupTail(s.gray);
    NoDupCons(id, s.grayagain);
  }

  lemma NoDupCons(x: Id, l: seq<Id>)
    requires NoDup(l) && x !in l
    ensures NoDup([x] + l)
  {
  }

  /** Taking a gray object off the list leaves the invariant broken at that object
      alone, until its references are marked. */
  lemma PropagateKeepsTri(s: State, g: Stage)
    requires Tri(s, g) && s.gray != []
    ensures NoDangling(s) && Tri(PropagateMark(s), g)
  {
    hide GrayLists, NoDup, MarkStep, Shaded, Settled, TakeGray, MarkSeq, RefsClosed;
    TriReady(s, g);
    TakeGrows(s);
    var id := s.gray[0];
    var s1 := TakeGray(s);
    var r := PropagateMark(s);
    MarkSeqStep(s1, s.heap[id].refs);
    TakeKeepsLists(s);
    MarkKeepsLists(s1, r);
    forall o | o in r.heap && !IsWhite(r, o)
      ensures Shaded(r, g, o)
    {
      PropagatedShaded(s, g, s1, r, o);
    }
  }

  lemma PropagatedShaded(s: State, g: Stage, s1: State, r: State, o: Id)
    requires Tri(s, g) && NoDangling(s) && s.gray != [] && s1 == TakeGray(s) && MarkStep(s1, r) && o in s.heap && !IsWhite(r, o)
    requires s.gray[0] in s.heap && forall v :: v in s.heap[s.gray[0]].refs ==> !IsWhite(r, v)
    ensures Shaded(r, g, o)
  {
    hide NoDup, Pushed, Shaded;
    var id := s.gray[0];
    if o == id {
      assert id in s.gray;
      TraversedShaded(r, g, id);
    } else if IsWhite(s, o) {
      SettledShaded(r, g, o);
    } else {
      OtherShaded(s, g, s1, r, o);
    }
  }

  lemma SettledShaded(s: State, g: Stage, o: Id)
    requires Coloured(s) && o in s.heap && Settled(s, o)
    ensures Shaded(s, g, o)
  {
  }

  /** Marking more objects and listing more gray ones keeps a shade. */
  lemma ShadedCarries(s: State, r: State, g: Stage, o: Id)
    requires Coloured(s) && Coloured(r) && r.heap == s.heap && o in s.heap
    requires r.marked[o] == s.marked[o]
    requires forall x :: x in s.heap && !IsWhite(s, x) ==> !IsWhite(r, x)
    requires o in s.gray ==> o in r.gray
    requires o in s.grayagain ==> o in r.grayagain
    requires Shaded(s, g, o)
    ensures Shaded(r, g, o)
  {
  }

  /** The object just traversed: black, or a thread gray in `grayagain`. */
  lemma TraversedShaded(s: State, g: Stage, id: Id)
    requires Coloured(s) && id in s.heap && Listed(s.heap[id].kind) && RefsMarked(s, id)
    requires if s.heap[id].kind.Thread? then s.marked[id].Gray? && id in s.grayagain
             else s.marked[id].Black?
    ensures Shaded(s, g, id)
  {
  }

  /** An object other than the one just traversed. */
  lemma OtherShaded(s: State, g: Stage, s1: State, r: State, o: Id)
    requires NoDangling(s) && s.gray != [] && s1 == TakeGray(s) && MarkStep(s1, r)
    requires o in s.heap && o != s.gray[0] && !IsWhite(s, o) && Shaded(s, g, o)
    ensures Shaded(r, g, o)
  {
    hide NoDup, RefsClosed, RefsMarked, Settled;
    assert o in s.gray ==> o in s1.gray;
    ShadedCarries(s, r, g, o);
  }

  lemma {:induction false} PropagateAllKeepsTri(s: State, g: Stage)
    requires Tri(s, g)
    ensures NoDangling(s) && Tri(PropagateAll(s), g)
    decreases Whites(s), |s.gray|
  {
    if s.gray != [] {
      PropagateKeepsTri(s, g);
      PropagateAllKeepsTri(PropagateMark(s), g);
    }
  }

  // ------------------------------------------------------------------ atomic

  /** Nothing marked in `s` is white in `r`. */
  ghost predicate Grows(s: State, r: State) {
    && Coloured(s) && Coloured(r) && r.heap == s.heap
    && (forall id :: id in s.heap && !IsWhite(s, id) ==> !IsWhite(r, id))
  }

  lemma MarkStepGrows(s: State, r: State)
    requires MarkStep(s, r)
    ensures Grows(s, r)
  {
    hide NoDup, Pushed;
  }

  lemma TakeGrows(s: State)
    requires NoDangling(s) && s.gray != []
    ensures Grows(s, TakeGray(s)) && s.gray[0] in s.heap && AllIn(s.heap[s.gray[0]].refs, s.heap)
  {
    assert s.gray[0] in s.gray;
  }

  lemma PropagateGrows(s: State)
    requires NoDangling(s) && s.gray != []
    ensures Grows(s, PropagateMark(s))
  {
    hide NoDangling, AllIn, MarkStep, TakeGray, MarkSeq;
    var s1 := TakeGray(s);
    TakeGrows(s);
    MarkSeqStep(s1, s.heap[s.gray[0]].refs);
    MarkStepGrows(s1, PropagateMark(s));
  }

  lemma {:induction false} PropagateAllGrows(s: State)
    requires NoDangling(s)
    ensures Grows(s, PropagateAll(s))
    decreases Whites(s), |s.gray|
  {
    if s.gray != [] {
      PropagateGrows(s);
      PropagateAllGrows(PropagateMark(s));
    }
  }

  /** The value of one upvalue after its turn and the rest of the loop. */
  lemma RemarkTurn(s: State, uv: Id, s1: State, r: State)
    requires Tri(s, Incremental) && uv in s.heap && s.heap[uv].kind.OpenUpval?
    requires MarkStep(s, s1) && MarkStep(s1, r)
    requires s.marked[uv].Gray? ==> RefsMarked(s1, uv)
    ensures IsWhite(r, uv) || RefsMarked(r, uv)
  {
    hide NoDup, RefsClosed;
    if IsWhite(s, uv) {
      MarkStepTrans(s, s1, r);
      assert IsWhite(r, uv) || Settled(r, uv);
    } else {
      assert Shaded(s, Incremental, uv);
    }
  }

  lemma TriReady(s: State, g: Stage)
    requires Tri(s, g)
    ensures NoDangling(s) && forall id :: id in s.heap ==> AllIn(s.heap[id].refs, s.heap)
  {
  }

  /** After `remarkupvals` the value of every marked upvalue of the list is marked. */
  lemma {:induction false} RemarkStep(s: State, uvs: seq<Id>)
    requires Tri(s, Incremental) && AllIn(uvs, s.heap)
    requires forall uv :: uv in uvs ==> s.heap[uv].kind.OpenUpval?
    ensures NoDangling(s)
    ensures var r := RemarkUpvals(s, uvs);
      MarkStep(s, r) && forall uv :: uv in uvs ==> IsWhite(r, uv) || RefsMarked(r, uv)
    decreases |uvs|
  {
    hide Tri, MarkStep, RefsClosed, Whites, MarkSeq;
    TriReady(s, Incremental);
    if uvs != [] {
      var uv := uvs[0];
      var s1 := if s.marked[uv].Gray? then MarkSeq(s, s.heap[uv].refs) else s;
      if s.marked[uv].Gray? { MarkSeqStep(s, s.heap[uv].refs); } else { MarkStepRefl(s); }
      MarkKeepsTri(s, s1, Incremental);
      RemarkStep(s1, uvs[1..]);
      var r := RemarkUpvals(s, uvs);
      RemarkTurn(s, uv, s1, r);
      MarkStepTrans(s, s1, r);
    } else {
      MarkStepRefl(s);
    }
  }

  lemma MarkStepRefl(s: State)
    requires Coloured(s)
    ensures MarkStep(s, s)
  {
  }

  lemma RemarkReachesStage(s: State)
    requires Tri(s, Incremental) && AllIn(s.uvhead, s.heap)
    requires forall uv :: uv in s.uvhead <==> uv in s.heap && s.heap[uv].kind.OpenUpval?
    ensures NoDangling(s) && Tri(RemarkUpvals(s, s.uvhead), Remarked)
  {
    RemarkStep(s, s.uvhead);
    var r := RemarkUpvals(s, s.uvhead);
    MarkKeepsTri(s, r, Incremental);
    forall id | id in r.heap && !IsWhite(r, id)
      ensures Shaded(r, Remarked, id)
    {
      assert Shaded(r, Incremental, id);
    }
  }

  /** Taking up the `grayagain` list once the gray list is empty. */
  lemma AgainReachesStage(s: State)
    requires Tri(s, Remarked) && s.gray == []
    ensures Tri(s.(gray := s.grayagain, grayagain := []), Final)
  {
    var r := s.(gray := s.grayagain, grayagain := []);
    forall id | id in r.heap && !IsWhite(r, id)
      ensures Shaded(r, Final, id)
    {
      assert Shaded(s, Remarked, id);
    }
  }

  /** Every marked object refers to marked objects only. */
  ghost predicate MarkedClosed(s: State) {
    Coloured(s) && forall id :: id in s.heap && !IsWhite(s, id) ==> RefsMarked(s, id)
  }

  lemma FinalClosed(s: State)
    requires Tri(s, Final) && s.gray == []
    requires forall id :: id in s.heap && s.heap[id].kind.Str? ==> s.heap[id].refs == []
    ensures MarkedClosed(s)
  {
    forall id | id in s.heap && !IsWhite(s, id)
      ensures RefsMarked(s, id)
    {
      assert Shaded(s, Final, id);
    }
  }

  /** What `atomic` requires: the invariant of the propagate phase. */
  ghost predicate ReadyForAtomic(s: State) {
    && Tri(s, Incremental) && s.gray == []
    && AllIn([s.running] + s.mt, s.heap)
    && (forall uv :: uv in s.uvhead <==> uv in s.heap && s.heap[uv].kind.OpenUpval?)
    && (forall id :: id in s.heap && s.heap[id].kind.Str? ==> s.heap[id].refs == [])
  }

  lemma AtomicFirstPass(s: State) returns (b: State)
    requires ReadyForAtomic(s)
    ensures NoDangling(s) && b == PropagateAll(RemarkUpvals(s, s.uvhead))
    ensures Tri(b, Remarked) && Grows(s, b)
  {
    RemarkReachesStage(s);
    RemarkStep(s, s.uvhead);
    var a := RemarkUpvals(s, s.uvhead);
    PropagateAllKeepsTri(a, Remarked);
    PropagateAllGrows(a);
    b := PropagateAll(a);
  }

  lemma AtomicSecondPass(b: State) returns (d: State)
    requires Tri(b, Remarked) && AllIn([b.running] + b.mt, b.heap)
    ensures NoDangling(b) && d == PropagateAll(MarkSeq(b, [b.running] + b.mt))
    ensures Tri(d, Remarked) && Grows(b, d)
    ensures forall id :: id in [b.running] + b.mt ==> !IsWhite(d, id)
  {
    var c := MarkSeq(b, [b.running] + b.mt);
    MarkSeqStep(b, [b.running] + b.mt);
    MarkKeepsTri(b, c, Remarked);
    PropagateAllKeepsTri(c, Remarked);
    PropagateAllGrows(c);
    d := PropagateAll(c);
  }

  lemma AtomicThirdPass(d: State) returns (r: State)
    requires Tri(d, Remarked) && d.gray == []
    requires forall id :: id in d.heap && d.heap[id].kind.Str? ==> d.heap[id].refs == []
    ensures NoDangling(d) && r == PropagateAll(d.(gray := d.grayagain, grayagain := []))
    ensures MarkedClosed(r) && Grows(d, r)
  {
    var e := d.(gray := d.grayagain, grayagain := []);
    AgainReachesStage(d);
    PropagateAllKeepsTri(e, Final);
    PropagateAllGrows(e);
    r := PropagateAll(e);
    FinalClosed(r);
  }

  /** `atomic` leaves the marked objects closed under reference; they hold all that
      was marked before, the running thread and the basic metatables. */
  lemma AtomicMarksAll(s: State)
    requires ReadyForAtomic(s)
    ensures NoDangling(s)
    ensures var r := MarkRest(s);
      && MarkedClosed(r) && Grows(s, r)
      && (forall id :: id in [s.running] + s.mt ==> !IsWhite(r, id))
  {
    hide Tri, MarkedClosed;
    var b := AtomicFirstPass(s);
    var d := AtomicSecondPass(b);
    var r := AtomicThirdPass(d);
  }
}
