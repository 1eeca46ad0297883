/** The invariant of the collector between two steps of the program or the collector. */
module GcInvariant {
  import opened Common
  import opened GcModel
  import opened GcMark

  /** Kinds that live in the root list. */
  predicate InRoot(k: Kind) {
    !k.Str? && !k.OpenUpval?
  }

  ghost predicate RootList(rootgc: seq<Id>, heap: Heap) {
    && NoDup(rootgc)
    && (forall id :: id in rootgc <==> id in heap && InRoot(heap[id].kind))
  }

  ghost predicate StringTable(strt: seq<seq<Id>>, heap: Heap) {
    && |strt| > 0
    && (forall b :: 0 <= b < |strt| ==> NoDup(strt[b]))
    && (forall b, id :: 0 <= b < |strt| ==>
          (id in strt[b] <==> id in heap && heap[id].kind.Str? && heap[id].kind.hash % |strt| == b))
  }

  ghost predicate OpenLists(open: map<Id, seq<Id>>, heap: Heap) {
    && (forall th :: th in open <==> th in heap && heap[th].kind.Thread?)
    && (forall th :: th in open ==> NoDup(open[th]))
    && (forall th, id :: th in open ==>
          (id in open[th] <==> id in heap && heap[id].kind == OpenUpval(th)))
    && (forall id :: id in heap && heap[id].kind.OpenUpval? ==> heap[id].kind.thread in open)
  }

  ghost predicate UpvalHead(uvhead: seq<Id>, heap: Heap) {
    && NoDup(uvhead)
    && (forall id :: id in uvhead <==> id in heap && heap[id].kind.OpenUpval?)
  }

  /** Every object is on exactly one of the lists it can be swept from. */
  ghost predicate Lists(s: State) {
    && Coloured(s) && RootList(s.rootgc, s.heap) && StringTable(s.strt, s.heap)
    && OpenLists(s.open, s.heap) && UpvalHead(s.uvhead, s.heap)
  }

  /** Strings hold no reference and upvalues at most one; strings, threads and open
      upvalues are never black; the main thread and some strings are fixed. */
  ghost predicate Shapes(heap: Heap, marked: map<Id, Colour>, main: Id)
    requires marked.Keys == heap.Keys
  {
    && (forall id :: id in heap && heap[id].kind.Str? ==> heap[id].refs == [])
    && (forall id :: id in heap && (heap[id].kind.OpenUpval? || heap[id].kind.ClosedUpval?) ==>
          |heap[id].refs| <= 1)
    && (forall id :: id in heap && marked[id].Black? ==>
          !heap[id].kind.Str? && !heap[id].kind.Thread? && !heap[id].kind.OpenUpval?)
    && (forall id :: id in heap && heap[id].fixed ==> heap[id].kind.Str? || id == main)
    && main in heap && heap[main].kind.Thread? && heap[main].fixed
  }

  /** Allocated and not condemned. */
  ghost predicate Live(s: State, id: Id)
    requires Coloured(s)
  {
    id in s.heap && !IsDead(s, id)
  }

  /** The roots of the program. */
  function Roots(s: State): seq<Id> {
    [s.main, s.registry, s.running] + s.mt
  }

  /** Roots are live, and a live object refers to live objects only. */
  ghost predicate Safe(s: State)
    requires Coloured(s)
  {
    && (forall id :: id in Roots(s) ==> Live(s, id))
    && (forall id, v :: id in s.heap && Live(s, id) && v in s.heap[id].refs ==> Live(s, v))
  }

  ghost predicate AllWhite(s: State)
    requires Coloured(s)
  {
    forall id :: id in s.heap ==> s.marked[id] == White(s.white)
  }

  ghost predicate NoneDead(s: State)
    requires Coloured(s)
  {
    forall id :: id in s.heap ==> !IsDead(s, id)
  }

  /** Every string of the first `n` buckets has the current white. */
  ghost predicate StringsSwept(s: State, n: nat)
    requires Coloured(s) && |s.strt| > 0
  {
    forall id :: id in s.heap && s.heap[id].kind.Str? && s.heap[id].kind.hash % |s.strt| < n ==>
      s.marked[id] == White(s.white)
  }

  ghost predicate InWhite(s: State, id: Id)
    requires Coloured(s)
  {
    id in s.heap && s.marked[id] == White(s.white)
  }

  /** Behind the sweep pointer of the root list everything has the current white,
      the open upvalues of the threads passed included. */
  ghost predicate RootsSwept(s: State)
    requires Coloured(s)
  {
    && s.sweepgc <= |s.rootgc|
    && (forall id :: id in s.rootgc[..s.sweepgc] ==> InWhite(s, id))
    && (forall th, id :: th in s.rootgc[..s.sweepgc] && th in s.open && id in s.open[th] ==> InWhite(s, id))
  }

  /** What each phase promises. */
  ghost predicate PhaseInv(s: State)
    requires Lists(s)
  {
    match s.phase
    case Pause => AllWhite(s)
    case Propagate =>
      && Tri(s, Incremental) && NoneDead(s)
      && (forall id :: id in [s.main, s.registry] ==> id in s.heap && !IsWhite(s, id))
    case SweepString => s.sweepstr < |s.strt| && s.sweepgc == 0 && StringsSwept(s, s.sweepstr)
    case Sweep => StringsSwept(s, |s.strt|) && RootsSwept(s)
    case Finalize => AllWhite(s)
  }

  ghost predicate Inv(s: State) {
    && Lists(s) && Shapes(s.heap, s.marked, s.main) && Safe(s) && PhaseInv(s)
    && s.running in s.heap && s.heap[s.running].kind.Thread?
  }

  // ----------------------------------------------------------- consequences

  /** With no object dead, no reference dangles. */
  lemma SafeClosed(s: State)
    requires Coloured(s) && Safe(s) && NoneDead(s)
    ensures RefsClosed(s.heap) && AllIn(Roots(s), s.heap)
  {
    forall id, v | id in s.heap && v in s.heap[id].refs ensures v in s.heap {
      assert Live(s, id);
      assert Live(s, v);
    }
  }

  /** Once both sweeps are over, every object has the current white. */
  lemma SweptAllWhite(s: State)
    requires Lists(s) && StringsSwept(s, |s.strt|) && RootsSwept(s) && s.sweepgc >= |s.rootgc|
    ensures AllWhite(s)
  {
    assert s.rootgc[..s.sweepgc] == s.rootgc;
    forall id | id in s.heap ensures s.marked[id] == White(s.white) {
      match s.heap[id].kind {
        case Str(h) => assert h % |s.strt| < |s.strt|;
        case OpenUpval(th) => assert th in s.rootgc && id in s.open[th]; assert InWhite(s, id);
        case _ => assert id in s.rootgc; assert InWhite(s, id);
      }
    }
  }
}
