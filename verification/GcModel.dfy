/** The incremental collector of lgc.cpp as functions on a value: the heap, the
    mark bits, the collector's lists, and one function for each routine.
    Class `Collector.GlobalState` refines these functions in place. */
module GcModel {
  import opened Common

  type Id = nat

  /** A string is hashed into a bucket; the value of an open upvalue is still in a
      stack slot of its thread. */
  datatype Kind =
    | Str(hash: nat) | Udata | OpenUpval(thread: Id) | ClosedUpval
    | Func | Tab | Thread | Proto

  /** The colour bits of `marked`: two whites, black, and gray when none is set. */
  datatype Colour = White(bit: bool) | Gray | Black

  /** `refs` lists the collectable values of an object in the order the collector
      visits them; slot 0 of a thread is its table of globals. */
  datatype Object = Object(kind: Kind, fixed: bool, refs: seq<Id>)

  type Heap = map<Id, Object>

  datatype Phase = Pause | Propagate | SweepString | Sweep | Finalize

  datatype State = State(
    heap: Heap,
    marked: map<Id, Colour>,
    white: bool,               // currentwhite
    phase: Phase,              // gcstate
    rootgc: seq<Id>,           // every collectable object but strings and open upvalues
    strt: seq<seq<Id>>,        // buckets of the string table
    open: map<Id, seq<Id>>,    // openupval list of each thread
    uvhead: seq<Id>,           // list of all open upvalues
    gray: seq<Id>,
    grayagain: seq<Id>,
    sweepstr: nat,             // sweepstrgc: next bucket to sweep
    sweepgc: nat,              // number of rootgc elements before the sweep pointer
    main: Id,
    registry: Id,
    mt: seq<Id>,               // metatables of the basic types
    running: Id                // the running thread
  )

  /** Every allocated object has mark bits. */
  ghost predicate Coloured(s: State) {
    s.marked.Keys == s.heap.Keys
  }

  predicate IsWhite(s: State, id: Id)
    requires id in s.marked
  {
    s.marked[id].White?
  }

  predicate IsDead(s: State, id: Id)
    requires id in s.marked
  {
    s.marked[id] == White(!s.white)
  }

  /** Every reference of every object is to an allocated object. */
  ghost predicate RefsClosed(heap: Heap) {
    forall id, r :: id in heap && r in heap[id].refs ==> r in heap
  }

  ghost predicate AllIn(ids: seq<Id>, heap: Heap) {
    forall id :: id in ids ==> id in heap
  }

  /** What the mark phase needs in order never to follow a dangling pointer. */
  ghost predicate NoDangling(s: State) {
    && Coloured(s) && RefsClosed(s.heap)
    && AllIn(s.gray, s.heap) && AllIn(s.grayagain, s.heap)
  }

  ghost function Whites(s: State): set<Id> {
    set id | id in s.marked && IsWhite(s, id)
  }

  function Paint(s: State, id: Id, c: Colour): (r: State)
    requires id in s.marked
    ensures !c.White? ==> Whites(r) == Whites(s) - {id}
  {
    s.(marked := s.marked[id := c])
  }

  // ---------------------------------------------------------------- marking

  /** Only mark bits and gray lists differ. */
  ghost predicate MarksOnly(s: State, r: State) {
    r == s.(marked := r.marked, gray := r.gray, grayagain := r.grayagain)
  }

  /** `reallymarkobject`: userdata go black at once, closed upvalues after their
      value, open upvalues and strings stay gray, the rest wait in the gray list. */
  function ReallyMark(s: State, id: Id): (r: State)
    requires NoDangling(s) && id in s.heap && IsWhite(s, id)
    ensures NoDangling(r) && MarksOnly(s, r) && Whites(r) < Whites(s)
    decreases Whites(s), 0, 0
  {
    assert id in Whites(s);
    var s1 := Paint(s, id, Gray);
    var refs := s.heap[id].refs;
    match s.heap[id].kind
    case Str(_) => s1
    case Udata => MarkSeq(Paint(s1, id, Black), refs)
    case OpenUpval(_) => MarkSeq(s1, refs)
    case ClosedUpval => Paint(MarkSeq(s1, refs), id, Black)
    case _ => s1.(gray := [id] + s1.gray)
  }

  /** `markobject` / `markvalue`. */
  function MarkObject(s: State, id: Id): (r: State)
    requires NoDangling(s) && id in s.heap
    ensures NoDangling(r) && MarksOnly(s, r) && Whites(r) <= Whites(s)
    ensures Whites(r) == Whites(s) ==> r == s
    decreases Whites(s), 1, 0
  {
    if IsWhite(s, id) then ReallyMark(s, id) else s
  }

  function MarkSeq(s: State, ids: seq<Id>): (r: State)
    requires NoDangling(s) && AllIn(ids, s.heap)
    ensures NoDangling(r) && MarksOnly(s, r) && Whites(r) <= Whites(s)
    ensures Whites(r) == Whites(s) ==> r == s
    decreases Whites(s), 2, |ids|
  {
    if ids == [] then s else MarkSeq(MarkObject(s, ids[0]), ids[1..])
  }

  /** `propagatemark`: blacken the first gray object; a thread goes gray again
      into the `grayagain` list. */
  function PropagateMark(s: State): (r: State)
    requires NoDangling(s) && s.gray != []
    ensures NoDangling(r) && MarksOnly(s, r) && Whites(r) <= Whites(s)
    ensures Whites(r) == Whites(s) ==> |r.gray| < |s.gray|
  {
    MarkSeq(TakeGray(s), s.heap[s.gray[0]].refs)
  }

  /** The first half of `propagatemark`, up to the traversal of the object. */
  function TakeGray(s: State): (r: State)
    requires NoDangling(s) && s.gray != []
    ensures NoDangling(r) && MarksOnly(s, r) && Whites(r) <= Whites(s)
    ensures r.gray == s.gray[1..]
  {
    var id := s.gray[0];
    var s1 := s.(gray := s.gray[1..]);
    if s.heap[id].kind.Thread?
    then Paint(s1, id, Gray).(grayagain := [id] + s1.grayagain)
    else Paint(s1, id, Black)
  }

  /** `propagateall`. */
  function PropagateAll(s: State): (r: State)
    requires NoDangling(s)
    ensures NoDangling(r) && MarksOnly(s, r) && r.gray == []
    decreases Whites(s), |s.gray|
  {
    if s.gray == [] then s else PropagateAll(PropagateMark(s))
  }

  /** The table of globals of the main thread, in slot 0. */
  function Globals(s: State): seq<Id>
    requires s.main in s.heap
  {
    var refs := s.heap[s.main].refs;
    if refs == [] then [] else refs[..1]
  }

  /** The values marked by `markroot`, in order. */
  function RootSet(s: State): seq<Id>
    requires s.main in s.heap
  {
    [s.main] + Globals(s) + [s.registry] + s.mt
  }

  /** `markroot`: forget the old lists, mark the root set, enter the propagate phase. */
  function MarkRoot(s: State): (r: State)
    requires Coloured(s) && RefsClosed(s.heap) && s.main in s.heap && AllIn(RootSet(s), s.heap)
    ensures NoDangling(r) && MarksOnly(s.(phase := Propagate), r)
  {
    MarkSeq(s.(gray := [], grayagain := [], phase := Propagate), RootSet(s))
  }

  /** `remarkupvals`: mark the value of every gray upvalue of the open list. */
  function RemarkUpvals(s: State, uvs: seq<Id>): (r: State)
    requires NoDangling(s) && AllIn(uvs, s.heap)
    ensures NoDangling(r) && MarksOnly(s, r)
    decreases |uvs|
  {
    if uvs == [] then s else
      var s1 := if s.marked[uvs[0]].Gray? then MarkSeq(s, s.heap[uvs[0]].refs) else s;
      RemarkUpvals(s1, uvs[1..])
  }

  /** The marking that `atomic` still has to do, in its three passes. */
  function MarkRest(s: State): (r: State)
    requires NoDangling(s) && AllIn(s.uvhead, s.heap) && AllIn([s.running] + s.mt, s.heap)
    ensures Coloured(r) && r.gray == [] && MarksOnly(s, r)
  {
    var s1 := PropagateAll(RemarkUpvals(s, s.uvhead));
    var s2 := PropagateAll(MarkSeq(s1, [s.running] + s.mt));
    PropagateAll(s2.(gray := s2.grayagain, grayagain := []))
  }

  /** `atomic`: finish the mark phase, flip the current white, prepare the sweep. */
  function Atomic(s: State): (r: State)
    requires NoDangling(s) && AllIn(s.uvhead, s.heap) && AllIn([s.running] + s.mt, s.heap)
  {
    MarkRest(s).(white := !s.white, sweepstr := 0, sweepgc := 0, phase := SweepString)
  }

  // --------------------------------------------------------------- sweeping

  /** The liveness test of `sweeplist`: a fixed object survives although dead. */
  predicate Survives(s: State, id: Id)
    requires id in s.marked && id in s.heap
  {
    !IsDead(s, id) || s.heap[id].fixed
  }

  lemma NoDupConcat(a: seq<Id>, b: seq<Id>)
    requires NoDup(a) && NoDup(b) && forall x :: x in a ==> x !in b
    ensures NoDup(a + b)
  {
    forall i, j | 0 <= i < j < |a + b| ensures (a + b)[i] != (a + b)[j] {
      if i < |a| <= j { assert a[i] in a && b[j - |a|] in b; }
    }
  }

  function Without(ids: seq<Id>, id: Id): (r: seq<Id>)
    ensures forall x :: x in r <==> x in ids && x != id
    ensures NoDup(ids) ==> NoDup(r)
  {
    if ids == [] then [] else
      var rest := Without(ids[1..], id);
      assert NoDup(ids) ==> NoDup(ids[1..]) && ids[0] !in ids[1..];
      assert ids[0] !in ids[1..] ==> ids[0] !in rest;
      if ids[0] == id then rest else [ids[0]] + rest
  }

  /** `freeobj` of an object that is on no list but, for an open upvalue, `uvhead`. */
  function Free(s: State, id: Id): State {
    s.(heap := s.heap - {id}, marked := s.marked - {id}, uvhead := Without(s.uvhead, id))
  }

  /** What a sweep of the whole list `ids` does: exactly the dead objects of the
      list that are not fixed are freed, the others go to the current white. */
  ghost predicate Swept(s: State, ids: seq<Id>, r: State, kept: seq<Id>)
    requires Coloured(s) && AllIn(ids, s.heap)
  {
    && Coloured(r)
    && r == s.(heap := r.heap, marked := r.marked, uvhead := r.uvhead)
    && NoDup(kept)
    && (forall id :: id in kept <==> id in ids && Survives(s, id))
    && (forall id :: id in r.heap <==> id in s.heap && (id in ids ==> id in kept))
    && (forall id :: id in r.heap ==>
          r.heap[id] == s.heap[id] && r.marked[id] == if id in ids then White(s.white) else s.marked[id])
    && (forall id :: id in r.uvhead <==> id in s.uvhead && (id in ids ==> id in kept))
    && (NoDup(s.uvhead) ==> NoDup(r.uvhead))
  }

  /** `sweepwholelist`: the new state and the surviving list. */
  function SweepWhole(s: State, ids: seq<Id>): (r: (State, seq<Id>))
    requires Coloured(s) && AllIn(ids, s.heap) && NoDup(ids)
    ensures Coloured(r.0) && Swept(s, ids, r.0, r.1)
    ensures r.0 == s.(heap := r.0.heap, marked := r.0.marked, uvhead := r.0.uvhead)
    decreases |ids|
  {
    if ids == [] then (s, []) else
      var id := ids[0];
      var alive := Survives(s, id);
      var s1 := if alive then Paint(s, id, White(s.white)) else Free(s, id);
      assert id !in ids[1..];
      var (s2, kept) := SweepWhole(s1, ids[1..]);
      (s2, if alive then [id] + kept else kept)
  }

  /** `luaC_link`: a new object goes in front of the root list, with the current
      white; the sweep pointer moves along unless it is the head pointer itself. */
  function Link(s: State, id: Id): State {
    s.(rootgc := [id] + s.rootgc, sweepgc := if s.sweepgc == 0 then 0 else s.sweepgc + 1)
  }

  /** `luaC_barrierf`: mark the value while propagating; else whiten the black object. */
  function BarrierForward(s: State, o: Id, v: Id): (r: State)
    requires Coloured(s) && o in s.heap && v in s.heap && IsWhite(s, v)
    requires s.phase.Propagate? ==> NoDangling(s)
    ensures Coloured(r) && r.heap == s.heap
  {
    if s.phase.Propagate? then ReallyMark(s, v) else Paint(s, o, White(s.white))
  }

  /** `luaC_barrierback`: a black table goes gray again. */
  function BarrierBack(s: State, o: Id): (r: State)
    requires o in s.heap && Coloured(s)
    ensures Coloured(r) && r.heap == s.heap
  {
    Paint(s, o, Gray).(grayagain := [o] + s.grayagain)
  }

  /** `luaC_barrier` and, for a table, `luaC_barriert`, after storing `v` in `o`. */
  function Barrier(s: State, o: Id, v: Id): (r: State)
    requires Coloured(s) && o in s.heap && v in s.heap
    requires s.phase.Propagate? ==> NoDangling(s)
    ensures Coloured(r) && r.heap == s.heap
    ensures s.phase.Propagate? ==> NoDangling(r)
  {
    if !IsWhite(s, v) || !s.marked[o].Black? then s
    else if s.heap[o].kind.Tab? then BarrierBack(s, o)
    else BarrierForward(s, o, v)
  }

  /** `luaC_linkupval`: an upvalue that has just been closed joins the root list; a
      gray one goes black behind a barrier while propagating, else white. */
  function LinkUpval(s: State, uv: Id): (r: State)
    requires Coloured(s) && uv in s.heap && |s.heap[uv].refs| <= 1
    requires s.phase.Propagate? ==> NoDangling(s)
    ensures Coloured(r) && r.heap == s.heap
  {
    var s1 := Link(s, uv);
    if !s.marked[uv].Gray? then s1
    else if !s.phase.Propagate? then Paint(s1, uv, White(s.white))
    else
      var s2 := Paint(s1, uv, Black);
      if s.heap[uv].refs == [] then s2 else Barrier(s2, uv, s.heap[uv].refs[0])
  }

  /** What closing needs to know of the open upvalues of a thread. */
  ghost predicate OpenList(heap: Heap, uvs: seq<Id>) {
    && NoDup(uvs)
    && (forall id :: id in uvs ==> id in heap && heap[id].kind.OpenUpval? && |heap[id].refs| <= 1)
  }

  /** One turn of `luaF_close` on thread `th`. */
  function CloseFirst(s: State, th: Id): (r: State)
    requires Coloured(s) && th in s.open && s.open[th] != [] && OpenList(s.heap, s.open[th])
    requires s.phase.Propagate? ==> NoDangling(s) && AllIn(s.heap[s.open[th][0]].refs, s.heap)
    ensures Coloured(r)
  {
    var uv := s.open[th][0];
    var s1 := s.(open := s.open[th := s.open[th][1..]]);
    if IsDead(s, uv) then Free(s1, uv)
    else
      var s2 := s1.(uvhead := Without(s1.uvhead, uv),
                    heap := s1.heap[uv := s1.heap[uv].(kind := ClosedUpval)]);
      LinkUpval(s2, uv)
  }

  /** `luaF_close(L1, L1->stack)`: close every open upvalue of a thread being freed. */
  function CloseAll(s: State, th: Id): (r: State)
    requires Coloured(s) && !s.phase.Propagate?
    requires th in s.open && OpenList(s.heap, s.open[th])
    ensures Coloured(r)
    decreases |s.open[th]|
  {
    if s.open[th] == [] then s else CloseAll(CloseFirst(s, th), th)
  }

  /** `sweepwholelist` on the open upvalues of a thread met in the root list. */
  function SweepOpen(s: State, id: Id): (r: State)
    requires Coloured(s) && id in s.heap
    requires s.heap[id].kind.Thread? ==> id in s.open && OpenList(s.heap, s.open[id])
    ensures Coloured(r)
  {
    if s.heap[id].kind.Thread? then
      var (r, kept) := SweepWhole(s, s.open[id]);
      r.(open := r.open[id := kept])
    else s
  }

  /** `freeobj` of an object of the root list; a thread closes its upvalues first. */
  function FreeRoot(s: State, id: Id): (r: State)
    requires Coloured(s) && id in s.heap && !s.phase.Propagate?
    requires s.heap[id].kind.Thread? ==> id in s.open && OpenList(s.heap, s.open[id])
    ensures Coloured(r)
  {
    if s.heap[id].kind.Thread? then
      var s1 := CloseAll(s, id);
      Free(s1, id).(open := s1.open - {id})
    else Free(s, id)
  }

  /** One turn of the loop of `sweeplist` over the root list. */
  function SweepOne(s: State): (r: State)
    requires Coloured(s) && !s.phase.Propagate?
    requires s.sweepgc < |s.rootgc| && s.rootgc[s.sweepgc] in s.heap
    requires var id := s.rootgc[s.sweepgc];
      s.heap[id].kind.Thread? ==> id in s.open && OpenList(s.heap, s.open[id])
    ensures Coloured(r)
  {
    var p := s.sweepgc;
    var id := s.rootgc[p];
    var s1 := SweepOpen(s, id);
    if Survives(s1, id) then Paint(s1, id, White(s.white)).(sweepgc := p + 1)
    else FreeRoot(s1.(rootgc := s.rootgc[..p] + s.rootgc[p + 1..]), id)
  }
}
