/** Every step of the build keeps the invariant; what follows for whole runs. */
module SchSafety {
  import opened Common
  import opened SchTree
  import opened SchSearch
  import opened SchExpand
  import opened SchSystem

  // ------------------------------------------------------------- status changes

  /** A node whose children are built is taken or finished. */
  lemma SetSound(g: Graph, rank: Id -> nat, next: Id, n: Id, st: Status)
    requires Sound(g, rank) && Bounded(g, rank, next) && n in g && !g[n].kind.FakeRoot?
    requires Level(st) >= 2 && Level(g[n].status) <= Level(st)
    requires forall c :: c in g[n].children && c in g ==> g[c].status == Built
    ensures Sound(SetStatus(g, n, st), rank) && Bounded(SetStatus(g, n, st), rank, next)
  {
    hide Shaped, ChildrenOk, InOrder;
    var g' := SetStatus(g, n, st);
    forall k | k in g' ensures ChildrenOk(g', rank, k) && Shaped(g', g'[k]) && InOrder(g', g'[k]) {
      SetNode(g, rank, n, st, k);
    }
    assert forall k :: k in g' ==> g'[k].kind == g[k].kind;
    SameSingle(g, g');
  }

  lemma SetNode(g: Graph, rank: Id -> nat, n: Id, st: Status, k: Id)
    requires n in g && k in g && ChildrenOk(g, rank, k) && Shaped(g, g[k]) && InOrder(g, g[k]) && !g[n].kind.FakeRoot?
    requires Level(st) >= 2 && Level(g[n].status) <= Level(st)
    requires forall c :: c in g[n].children && c in g ==> g[c].status == Built
    ensures var g' := SetStatus(g, n, st); ChildrenOk(g', rank, k) && Shaped(g', g'[k]) && InOrder(g', g'[k])
  {
    hide Shaped;
    var g' := SetStatus(g, n, st);
    SetShaped(g, rank, n, st, k);
    assert forall c :: c in g && g[c].status == Built ==> g'[c].status == Built;
    assert n !in g[n].children || g[n].status == Built;
  }

  lemma SetShaped(g: Graph, rank: Id -> nat, n: Id, st: Status, k: Id)
    requires n in g && k in g && ChildrenOk(g, rank, k) && Shaped(g, g[k]) && !g[n].kind.FakeRoot? && Level(st) >= 2
    ensures Shaped(SetStatus(g, n, st), SetStatus(g, n, st)[k])
  {
    hide Arranged;
    var g' := SetStatus(g, n, st);
    assert forall c :: c in g ==> g'[c].kind == g[c].kind && g'[c].children == g[c].children;
    KindsArranged(g, g', g[k].children);
  }

  /** A file is taken when what its target depends on is built. */
  lemma SetLater(g: Graph, n: Id, st: Status)
    requires FilesLater(g) && n in g && Level(g[n].status) <= Level(st)
    requires forall p :: Own(g, p, n) && g[p].kind.Target? && g[n].kind.File? ==> DepsBuilt(g, p)
    ensures FilesLater(SetStatus(g, n, st))
  {
    hide FilesLater, DepsBuilt;
    var g' := SetStatus(g, n, st);
    forall p, m | Own(g', p, m) && g'[p].kind.Target? && g'[m].kind.File? && Level(g'[m].status) >= 2 ensures DepsBuilt(g', p) {
      assert Own(g, p, m);
      LaterAt(g, p, m);
      SetDeps(g, n, st, p);
    }
    AllLater(g');
  }

  lemma LaterAt(g: Graph, p: Id, m: Id)
    requires FilesLater(g) && Own(g, p, m) && g[p].kind.Target? && g[m].kind.File?
    ensures Level(g[m].status) >= 2 ==> DepsBuilt(g, p)
  {
    hide DepsBuilt;
  }

  lemma AllLater(g: Graph)
    requires forall p, m {:trigger Own(g, p, m)} ::
      Own(g, p, m) && g[p].kind.Target? && g[m].kind.File? && Level(g[m].status) >= 2 ==> DepsBuilt(g, p)
    ensures FilesLater(g)
  {
  }

  lemma SetDeps(g: Graph, n: Id, st: Status, p: Id)
    requires n in g && p in g && DepsBuilt(g, p) && Level(g[n].status) <= Level(st)
    ensures DepsBuilt(SetStatus(g, n, st), p)
  {
  }

  /** The target of a node that has been found. */
  lemma AssignedLater(g: Graph, n: Id, t: Option<Id>)
    requires Single(g) && n in g && Assigned(g, n, t)
    ensures forall p :: Own(g, p, n) && g[p].kind.Target? && g[n].kind.File? ==> DepsBuilt(g, p)
  {
    hide DepsBuilt, Single;
    forall p | Own(g, p, n) && g[p].kind.Target? && g[n].kind.File? ensures DepsBuilt(g, p) {
      assert Own(g, t.value, n);
      OneParent(g, p, t.value, n);
    }
  }

  lemma OneParent(g: Graph, p: Id, q: Id, m: Id)
    requires Single(g) && Own(g, p, m) && Own(g, q, m)
    ensures p == q
  {
  }

  lemma ExpandLater(g: Graph, rank: Id -> nat, next: Id, n: Id)
    requires Expandable(g, rank, next, n) && FilesLater(g)
    ensures FilesLater(Expand(g, n, next))
  {
    hide Sound, Populated, DepsBuilt, FilesLater;
    BoundedAt(g, rank, next, n);
    PopulatedAt(g, n, next, |FilesOf(g[n])|);
    var g' := Expand(g, n, next);
    forall p, m | Own(g', p, m) && g'[p].kind.Target? && g'[m].kind.File? && Level(g'[m].status) >= 2 ensures DepsBuilt(g', p) {
      assert m in g && g'[m] == g[m] && p in g && Own(g, p, m);
      LaterAt(g, p, m);
      ExpandDeps(g, rank, next, n, p);
    }
    AllLater(g');
  }

  lemma BoundedAt(g: Graph, rank: Id -> nat, next: Id, n: Id)
    requires Bounded(g, rank, next) && n in g
    ensures n < next && forall k :: k in g ==> k < next
  {
  }

  lemma ExpandDeps(g: Graph, rank: Id -> nat, next: Id, n: Id, p: Id)
    requires Expandable(g, rank, next, n) && p in g && DepsBuilt(g, p) && n < next && p in Expand(g, n, next)
    ensures DepsBuilt(Expand(g, n, next), p)
  {
    hide Sound, Populated;
    PopulatedAt(g, n, next, |FilesOf(g[n])|);
    OldChildren(g, rank, p);
  }

  lemma SetFields(g: Graph, n: Id, st: Status)
    requires n in g
    ensures forall k :: k in SetStatus(g, n, st) <==> k in g
    ensures forall k :: k in g ==> SetStatus(g, n, st)[k].kind == g[k].kind
  {
  }

  lemma SetTaken(g: Graph, n: Id, st: Status)
    requires n in g && Level(st) >= 2
    ensures Taken(SetStatus(g, n, st)) == Taken(g) + {n}
  {
  }

  lemma {:induction false} UnderSame(g: Graph, g': Graph, rank: Id -> nat, n: Id, m: Id)
    requires Acyclic(g, rank) && Acyclic(g', rank) && n in g && g.Keys == g'.Keys && forall k :: k in g ==> g'[k].children == g[k].children
    requires Under(g', rank, n, m)
    ensures Under(g, rank, n, m)
    decreases rank(n)
  {
    if n != m {
      var c :| c in g'[n].children && c in g' && rank(c) < rank(n) && Under(g', rank, c, m);
      UnderSame(g, g', rank, c, m);
    }
  }

  /** What has been started stays started. */
  lemma StillTaken(g: Graph, rank: Id -> nat, n: Id, st: Status, root: Id)
    requires Acyclic(g, rank) && n in g && Level(st) >= 2 && Acyclic(SetStatus(g, n, st), rank) && root in g && AllTaken(g, rank, root)
    ensures AllTaken(SetStatus(g, n, st), rank, root)
  {
    var g' := SetStatus(g, n, st);
    forall m | Under(g', rank, root, m) ensures m in g' && (Level(g'[m].status) >= 2 || (m == root && g'[m].kind.FakeRoot?)) {
      UnderSame(g, g', rank, root, m);
    }
  }

  /** What has not been started is still not started when another node is finished. */
  lemma StillLeft(g: Graph, rank: Id -> nat, n: Id, st: Status, root: Id)
    requires Acyclic(g, rank) && n in g && Level(g[n].status) >= 2 && Acyclic(SetStatus(g, n, st), rank) && root in g && SomeLeft(g, rank, root)
    ensures SomeLeft(SetStatus(g, n, st), rank, root)
  {
    var m :| m in g && Under(g, rank, root, m) && Level(g[m].status) < 2 && !g[m].kind.FakeRoot?;
    UnderSame(SetStatus(g, n, st), g, rank, root, m);
  }

  lemma StillLacks(g: Graph, n: Id, st: Status)
    requires n in g
    ensures SomeLacks(g) ==> SomeLacks(SetStatus(g, n, st))
  {
    var g' := SetStatus(g, n, st);
    if SomeLacks(g) {
      var k :| k in g && Lacks(g[k]);
      assert g'[k].deps == g[k].deps;
    }
  }

  // ------------------------------------------------------------- dispatching steps

  /** Only the program counter and the two flags of the search change. */
  lemma PcKeeps(s: System, s': System, rank: Id -> nat)
    requires Inv(s, rank) && s' == s.(pc := s'.pc, needToWait := s'.needToWait, treeChanged := s'.treeChanged)
    requires Current(s'.pc) == Current(s.pc) && (s'.pc.Counted? <==> s.pc.Counted?) && GraphInv(s', rank) && PcInv(s', rank)
    ensures Inv(s', rank)
  {
    hide GraphInv, PcInv, AtWorkers, AreFailed, Accounted, AtDispatcher, StartedOnce, Results, SomeFailed, FailuresKept, Counts;
  }

  lemma MoveKeeps(s: System, rank: Id -> nat)
    requires Inv(s, rank) && CanDispatch(s) && Moves(s.pc)
    ensures Inv(Moved(s), rank)
  {
    hide GraphInv, JobsInv, CountInv, NextPc, FoundInv, PcOk, All, Left;
    if s.hasFail { FailIsError(s); }
    MovedGraph(s, rank);
    NextOk(s, All(s, rank), Left(s, rank));
    PcKeeps(s, Moved(s), rank);
  }

  lemma MovedGraph(s: System, rank: Id -> nat)
    requires GraphInv(s, rank) && CanDispatch(s) && Moves(s.pc)
    ensures Current(NextPc(s)) == Current(s.pc) && (NextPc(s).Counted? <==> s.pc.Counted?)
    ensures GraphInv(Moved(s), rank) && All(Moved(s), rank) == All(s, rank) && Left(Moved(s), rank) == Left(s, rank) && FoundInv(Moved(s))
  {
    hide Sound, Bounded, Taken, FilesLater, AllTaken, SomeLeft;
  }

  lemma NextOk(s: System, all: bool, left: bool)
    requires PcOk(s, s.pc, all, left) && CanDispatch(s) && Moves(s.pc) && (s.hasFail ==> s.errorOccured)
    ensures PcOk(Moved(s), NextPc(s), all, left)
  {
  }

  /** A failed node has reported an error. */
  lemma FailIsError(s: System)
    requires JobsInv(s) && CountInv(s) && s.hasFail
    ensures s.errorOccured
  {
    hide AtWorkers, Accounted, AtDispatcher, StartedOnce, Counts, Results, FailuresKept;
    var n :| n in s.failed;
    assert n in s.results && s.results[n] != 0;
  }

  // ------------------------------------------------------------- the search

  lemma SearchKeeps(s: System, rank: Id -> nat)
    requires Inv(s, rank) && s.pc.Searching?
    ensures s.root.Some? && s.root.value in s.g && Inv(DoSearch(s, rank), rank)
  {
    hide JobsInv, CountInv, Taken, AllTaken, Found, Sound, Bounded;
    SoundAcyclic(s.g, rank);
    SearchWithin(s.g, rank, s.root.value, None, false);
    var r := Find(s.g, rank, s.root.value, None, false);
    if r.node.Some? && s.g[r.node.value].kind.Target? && s.g[r.node.value].status == Pristine {
      SearchExpands(s, rank, r);
    } else {
      SearchPlain(s, rank, r);
    }
  }

  lemma SearchPlain(s: System, rank: Id -> nat, r: Search)
    requires Inv(s, rank) && s.pc.Searching? && r == Find(s.g, rank, s.root.value, None, false)
    requires r.node.Some? ==> r.node.value in s.g && !(s.g[r.node.value].kind.Target? && s.g[r.node.value].status == Pristine)
    ensures Inv(s.(needToWait := r.wait, pc := Searched(r.node, r.target)), rank)
  {
    hide Taken, CountInv, JobsInv, Find, Under, SomeLeft, SomeBuilding, FilesLater, Sound, Bounded, Ready;
    SoundAcyclic(s.g, rank);
    SearchEnds(s.g, rank, s.root.value);
    FindLeft(s.g, rank, s.root.value, None, false);
    if r.node.None? && r.wait { BuildingExpected(s, rank); }
    if r.node.Some? {
      SearchFinds(s.g, rank, s.root.value);
      NotPristine(s.g, r.node.value);
    }
    PcKeeps(s, s.(needToWait := r.wait, pc := Searched(r.node, r.target)), rank);
  }

  lemma NotPristine(g: Graph, n: Id)
    requires Ready(g, n)
    ensures g[n].status == Pristine || g[n].status == Expanded
  {
  }

  /** A node that is being built is at a worker, or its job has failed. */
  lemma BuildingExpected(s: System, rank: Id -> nat)
    requires Sound(s.g, rank) && JobsInv(s) && Current(s.pc).None? && s.root.Some? && s.root.value in s.g
    requires SomeBuilding(s.g, rank, s.root.value)
    ensures Expected(s)
  {
    hide Sound, Under, AtWorkers, AreFailed, AtDispatcher, StartedOnce;
    SoundAcyclic(s.g, rank);
    var b :| b in s.g && Under(s.g, rank, s.root.value, b) && s.g[b].status == Building;
    assert b in s.workers || b in s.failed;
  }

  lemma ExpandJobs(g: Graph, rank: Id -> nat, next: Id, n: Id, workers: map<Id, Phase>, failed: set<Id>, started: seq<Id>, results: map<Id, int>)
    requires Expandable(g, rank, next, n)
    requires AtWorkers(g, workers, started) && AreFailed(g, failed, workers, results) && Accounted(g, workers, failed, None) && StartedOnce(g, started)
    ensures var g' := Expand(g, n, next);
      && AtWorkers(g', workers, started) && AreFailed(g', failed, workers, results) && Accounted(g', workers, failed, None)
      && AtDispatcher(g', workers, failed, started, None) && StartedOnce(g', started) && Taken(g') == Taken(g) && g.Keys <= g'.Keys
      && forall k :: k in g ==> g'[k].kind == g[k].kind
  {
    hide Sound, Populated;
    PopulatedAt(g, n, next, |FilesOf(g[n])|);
    var g' := Expand(g, n, next);
    hide Expand, FilesOf;
    assert forall k {:trigger g'[k]} :: k in g' ==> if k in g then g'[k].kind == g[k].kind && (k == n || g'[k] == g[k]) else g'[k].status == Pristine;
    assert g'[n].status == Expanded;
    SameJobs(g, g', n, workers, failed, started, results);
  }

  /** Apart from `n`, which is no job, nodes are the same or new. */
  lemma SameJobs(g: Graph, g': Graph, n: Id, workers: map<Id, Phase>, failed: set<Id>, started: seq<Id>, results: map<Id, int>)
    requires n in g && n in g' && Level(g[n].status) < 2 && Level(g'[n].status) < 2 && forall k :: k in g ==> k in g'
    requires forall k {:trigger g'[k]} :: k in g' && k != n ==> if k in g then g'[k] == g[k] else g'[k].status == Pristine
    requires AtWorkers(g, workers, started) && AreFailed(g, failed, workers, results) && Accounted(g, workers, failed, None) && StartedOnce(g, started)
    ensures AtWorkers(g', workers, started) && AreFailed(g', failed, workers, results) && Accounted(g', workers, failed, None)
    ensures AtDispatcher(g', workers, failed, started, None) && StartedOnce(g', started) && Taken(g') == Taken(g)
  {
  }

  lemma ExpandedFile(g: Graph, rank: Id -> nat, next: Id, n: Id, m: Id)
    requires Expandable(g, rank, next, n) && Ready(g, n) && n in Expand(g, n, next) && m in Expand(g, n, next)[n].children
    ensures FileOf(Expand(g, n, next), n, m)
  {
    hide Sound;
    ExpandedChildren(g, rank, next, n);
  }

  /** The state after a target has been expanded. */
  ghost predicate ExpandedTo(s: System, n: Id, s': System) {
    && n in s.g && s.next > n && Current(s'.pc).None? && !s'.pc.Counted?
    && s' == s.(g := Expand(s.g, n, s.next), next := s.next + |FilesOf(s.g[n])|, needToWait := s'.needToWait, pc := s'.pc)
  }

  lemma ExpandedGraph(s: System, rank: Id -> nat, n: Id, s': System)
    requires GraphInv(s, rank) && JobsInv(s) && s.pc.Searching? && Expandable(s.g, rank, s.next, n) && ExpandedTo(s, n, s')
    ensures GraphInv(s', rank) && JobsInv(s')
  {
    hide Sound, Bounded, Taken, AtWorkers, AreFailed, Accounted, AtDispatcher, StartedOnce, Expand, FilesLater, FilesOf;
    ExpandLater(s.g, rank, s.next, n);
    ExpandSound(s.g, rank, s.next, n);
    ExpandJobs(s.g, rank, s.next, n, s.workers, s.failed, s.started, s.results);
  }

  lemma SearchingFacts(s: System, rank: Id -> nat)
    requires GraphInv(s, rank) && PcInv(s, rank) && s.pc.Searching?
    ensures s.root.Some? && s.root.value in s.g && !s.needToWait && Current(s.pc).None?
  {
    hide Sound, Bounded, Taken, FilesLater;
  }

  lemma ExpandedPc(s: System, rank: Id -> nat, s': System)
    requires GraphInv(s, rank) && PcInv(s, rank) && s.pc.Searching? && GraphInv(s', rank)
    requires s'.running == s.running && s'.max == s.max && s'.root == s.root
    requires (s'.pc.Thrown? && SomeLacks(s'.g)) || (s'.pc.Searched? && s'.pc.found.Some? && Found(s'.g, s'.pc.found.value, s'.pc.target))
    ensures PcInv(s', rank)
  {
    hide GraphInv, Found, AllTaken, SomeLeft, SomeLacks;
  }

  lemma ExpandLacks(g: Graph, rank: Id -> nat, next: Id, n: Id)
    requires Expandable(g, rank, next, n) && next > n && Lacks(g[n])
    ensures SomeLacks(Expand(g, n, next))
  {
    PopulatedAt(g, n, next, |FilesOf(g[n])|);
    assert Expand(g, n, next)[n].deps == g[n].deps;
  }

  /** What the search does after it has found a target that is not expanded. */
  lemma ExpandingSearch(s: System, rank: Id -> nat, n: Id)
    requires Sound(s.g, rank) && Bounded(s.g, rank, s.next) && s.root.Some? && s.root.value in s.g && s.pc.Searching?
    requires Expandable(s.g, rank, s.next, n) && Ready(s.g, n) && Find(s.g, rank, s.root.value, None, s.needToWait).node == Some(n)
    ensures var s' := DoSearch(s, rank);
      && ExpandedTo(s, n, s')
      && ((s'.pc.Thrown? && SomeLacks(s'.g)) || (s'.pc.Searched? && s'.pc.found.Some? && Found(s'.g, s'.pc.found.value, s'.pc.target)))
  {
    hide Sound, Bounded, Find, Expand, Found, Ready, Lacks, FilesOf, Under, SomeLacks, Acyclic;
    SoundAcyclic(s.g, rank);
    IsExpandable(s.g, rank, s.next, n);
    ExpandSound(s.g, rank, s.next, n);
    SoundAcyclic(Expand(s.g, n, s.next), rank);
    var r := Find(s.g, rank, s.root.value, None, s.needToWait);
    ExpandFound(s.g, rank, s.next, n, r.target, r.wait);
    NothingNew(s.g[n]);
    if Lacks(s.g[n]) { ExpandLacks(s.g, rank, s.next, n); }
  }

  lemma SearchExpands(s: System, rank: Id -> nat, r: Search)
    requires Inv(s, rank) && s.pc.Searching? && r == Find(s.g, rank, s.root.value, None, false)
    requires r.node.Some? && r.node.value in s.g && s.g[r.node.value].kind.Target? && s.g[r.node.value].status == Pristine
    ensures Inv(DoSearch(s, rank), rank)
  {
    hide Sound, Bounded, JobsInv, CountInv, PcInv, Taken, FilesLater, Find, Expand, Found, Ready, Expandable, Lacks, FilesOf, Under, DoSearch, SomeLacks;
    SearchingFacts(s, rank);
    var n := r.node.value;
    SearchFinds(s.g, rank, s.root.value);
    IsExpandable(s.g, rank, s.next, n);
    ExpandingSearch(s, rank, n);
    var s' := DoSearch(s, rank);
    ExpandedGraph(s, rank, n, s');
    CountSame(s, s');
    ExpandedPc(s, rank, s');
  }

  lemma NothingNew(n: Node)
    ensures Lacks(n) ==> FilesOf(n) == []
  {
  }

  lemma IsExpandable(g: Graph, rank: Id -> nat, next: Id, n: Id)
    requires Sound(g, rank) && Bounded(g, rank, next) && n in g && g[n].kind.Target? && g[n].status == Pristine
    ensures Expandable(g, rank, next, n) && n < next
  {
    hide Sound;
  }

  lemma CountSame(s: System, s': System)
    requires CountInv(s) && s' == s.(g := s'.g, next := s'.next, needToWait := s'.needToWait, pc := s'.pc)
    requires s.pc.Counted? <==> s'.pc.Counted?
    ensures CountInv(s')
  {
    hide Counts, Results, SomeFailed, FailuresKept;
  }

  /** The search from the target that has just been expanded. */
  lemma ExpandFound(g: Graph, rank: Id -> nat, next: Id, n: Id, target: Option<Id>, wait: bool)
    requires Expandable(g, rank, next, n) && Ready(g, n) && n < next
    ensures n in Expand(g, n, next) && Acyclic(Expand(g, n, next), rank)
    ensures var r := Find(Expand(g, n, next), rank, n, target, wait); r.node.Some? && Found(Expand(g, n, next), r.node.value, r.target)
  {
    hide Find, Expand, FileOf, Expandable, Sound;
    ExpandFinds(g, rank, next, n, target, wait);
    var g' := Expand(g, n, next);
    SoundAcyclic(g', rank);
    ExpandedChildren(g, rank, next, n);
    var r := Find(g', rank, n, target, wait);
    if r.node.value != n { ExpandedFile(g, rank, next, n, r.node.value); }
  }

  // ------------------------------------------------------------- making a job

  /** The nodes in use when one more node is taken by the dispatching thread. */
  lemma MarkJobs(g: Graph, n: Id, workers: map<Id, Phase>, failed: set<Id>, started: seq<Id>, results: map<Id, int>)
    requires n in g && Level(g[n].status) < 2
    requires AtWorkers(g, workers, started) && AreFailed(g, failed, workers, results) && Accounted(g, workers, failed, None)
    requires StartedOnce(g, started)
    ensures var g' := SetStatus(g, n, Building);
      && AtWorkers(g', workers, started) && AreFailed(g', failed, workers, results) && Accounted(g', workers, failed, Some(n))
      && AtDispatcher(g', workers, failed, started, Some(n)) && StartedOnce(g', started)
      && |Taken(g')| == |Taken(g)| + 1
  {
    SetTaken(g, n, Building);
  }

  lemma MarkKeeps(s: System, rank: Id -> nat, n: Id, t: Option<Id>)
    requires Inv(s, rank) && s.pc == Searched(Some(n), t)
    ensures Inv(Mark(s, n, t), rank)
  {
    hide Sound, Bounded, AllTaken, SomeLeft, FilesLater, AtWorkers, AreFailed, Accounted, AtDispatcher, StartedOnce, SomeFailed, FailuresKept, Results, Counts, Taken;
    SetSound(s.g, rank, s.next, n, Building);
    SoundSingle(s.g, rank);
    AssignedLater(s.g, n, t);
    SetLater(s.g, n, Building);
    MarkJobs(s.g, n, s.workers, s.failed, s.started, s.results);
    StillAssigned(s.g, n, n, t, Building);
  }

  lemma SoundSingle(g: Graph, rank: Id -> nat)
    requires Sound(g, rank)
    ensures Single(g)
  {
  }

  /** Files keep their target when statuses advance. */
  lemma StillAssigned(g: Graph, k: Id, n: Id, t: Option<Id>, st: Status)
    requires n in g && k in g && Assigned(g, n, t) && Level(g[k].status) <= Level(st)
    ensures Assigned(SetStatus(g, k, st), n, t)
  {
  }

  lemma MakeJobs(g: Graph, n: Id, workers: map<Id, Phase>, failed: set<Id>, started: seq<Id>, results: map<Id, int>, st: Status)
    requires n in g && g[n].status == Building && (st == Building || st == Built)
    requires AtWorkers(g, workers, started) && AreFailed(g, failed, workers, results) && Accounted(g, workers, failed, Some(n))
    requires AtDispatcher(g, workers, failed, started, Some(n)) && StartedOnce(g, started)
    ensures var g' := SetStatus(g, n, st); var cur := if st == Building then Some(n) else None;
      && AtWorkers(g', workers, started) && AreFailed(g', failed, workers, results) && Accounted(g', workers, failed, cur)
      && AtDispatcher(g', workers, failed, started, cur) && StartedOnce(g', started) && Taken(g') == Taken(g)
  {
    SetTaken(g, n, st);
    assert Taken(g) + {n} == Taken(g);
  }

  lemma MarkedFacts(s: System, rank: Id -> nat, n: Id, t: Option<Id>)
    requires Inv(s, rank) && s.pc == Marked(n, t)
    ensures n in s.g && s.g[n].status == Building && (s.g[n].kind == Target(true) ==> t == Some(n))
  {
    hide Sound, Bounded, AllTaken, AtWorkers, AreFailed, Accounted, StartedOnce, CountInv, Taken;
  }

  /** The state after a job has been made, or not. */
  function MadeState(s: System, n: Id, st: Status): System
    requires n in s.g
  {
    s.(g := SetStatus(s.g, n, st), pc := if st == Built then Create else Made(n))
  }

  lemma MakeKeeps(s: System, rank: Id -> nat, n: Id, t: Option<Id>, u: bool)
    requires Inv(s, rank) && s.pc == Marked(n, t)
    ensures n in s.g && (s.g[n].kind == Target(true) ==> t.Some? && t.value in s.g) && Inv(Make(s, n, t, u), rank)
  {
    hide GraphInv, JobsInv, CountInv, PcInv, SetStatus;
    MarkedFacts(s, rank, n, t);
    var st := if u && !s.g[n].kind.Hook? then Built else Building;
    assert Make(s, n, t, u) == MadeState(s, n, st);
    MadeGraph(s, rank, n, t, st);
    MadeJobs(s, rank, n, t, st);
    CountSame(s, MadeState(s, n, st));
  }

  lemma MadeGraph(s: System, rank: Id -> nat, n: Id, t: Option<Id>, st: Status)
    requires Inv(s, rank) && s.pc == Marked(n, t) && n in s.g && s.g[n].status == Building && (st == Building || st == Built)
    ensures GraphInv(MadeState(s, n, st), rank) && PcInv(MadeState(s, n, st), rank)
  {
    hide Sound, Bounded, AllTaken, JobsInv, CountInv, Taken, SetStatus, Assigned, FilesLater, SomeLeft;
    TakenLater(s.g, n);
    SetLater(s.g, n, st);
    NodeFacts(s.g, rank, n);
    SetSound(s.g, rank, s.next, n, st);
    SetFields(s.g, n, st);
    SetTaken(s.g, n, st);
    TakenAt(s.g, n);
  }

  lemma TakenLater(g: Graph, n: Id)
    requires FilesLater(g) && n in g && Level(g[n].status) >= 2
    ensures forall p :: Own(g, p, n) && g[p].kind.Target? && g[n].kind.File? ==> DepsBuilt(g, p)
  {
    hide DepsBuilt;
  }

  lemma TakenAt(g: Graph, n: Id)
    requires n in g && Level(g[n].status) >= 2
    ensures Taken(g) + {n} == Taken(g)
  {
  }

  lemma MadeJobs(s: System, rank: Id -> nat, n: Id, t: Option<Id>, st: Status)
    requires Inv(s, rank) && s.pc == Marked(n, t) && n in s.g && s.g[n].status == Building && (st == Building || st == Built)
    ensures JobsInv(MadeState(s, n, st))
  {
    hide GraphInv, CountInv, PcInv, AtWorkers, AreFailed, Accounted, AtDispatcher, StartedOnce, SetStatus;
    MakeJobs(s.g, n, s.workers, s.failed, s.started, s.results, st);
  }

  lemma NodeFacts(g: Graph, rank: Id -> nat, n: Id)
    requires Sound(g, rank) && n in g && Level(g[n].status) >= 2
    ensures !g[n].kind.FakeRoot? && forall c :: c in g[n].children && c in g ==> g[c].status == Built
  {
    assert Shaped(g, g[n]) && InOrder(g, g[n]);
  }

  lemma MadeKeeps(s: System, rank: Id -> nat, n: Id)
    requires Inv(s, rank) && s.pc == Made(n)
    ensures Inv(s.(running := s.running + 1, pc := Counted(n)), rank)
  {
    hide Sound, Bounded, AllTaken, SomeLeft, FilesLater, AtWorkers, AreFailed, Accounted, StartedOnce, AtDispatcher, SomeFailed, FailuresKept, Results, Taken;
  }

  /** The job's worker starts. */
  lemma StartJobs(g: Graph, n: Id, workers: map<Id, Phase>, failed: set<Id>, started: seq<Id>, results: map<Id, int>, running: nat, max: nat)
    requires AtWorkers(g, workers, started) && AreFailed(g, failed, workers, results) && Accounted(g, workers, failed, Some(n))
    requires AtDispatcher(g, workers, failed, started, Some(n)) && StartedOnce(g, started) && Counts(running, max, workers, true)
    requires Results(results, started, workers) && FailuresKept(results, workers, failed)
    ensures var w, l := workers[n := Running], started + [n];
      && AtWorkers(g, w, l) && AreFailed(g, failed, w, results) && Accounted(g, w, failed, None)
      && StartedOnce(g, l) && Counts(running, max, w, false) && Results(results, l, w) && FailuresKept(results, w, failed)
  {
    assert Unreported(workers[n := Running]) == Unreported(workers) + {n};
    assert n !in results;
  }

  lemma StartKeeps(s: System, rank: Id -> nat, n: Id)
    requires Inv(s, rank) && s.pc == Counted(n)
    ensures Inv(s.(workers := s.workers[n := Running], started := s.started + [n], pc := Top), rank)
  {
    hide Sound, Bounded, AllTaken, SomeLeft, FilesLater, AtWorkers, AreFailed, Accounted, StartedOnce, SomeFailed, FailuresKept, Results, Taken, Counts;
    StartJobs(s.g, n, s.workers, s.failed, s.started, s.results, s.running, s.max);
  }

  // ------------------------------------------------------------- worker steps

  lemma ReportJobs(g: Graph, n: Id, result: int, workers: map<Id, Phase>, failed: set<Id>, started: seq<Id>, results: map<Id, int>,
                   running: nat, max: nat, counted: bool)
    requires n in workers && workers[n].Running? && running > 0
    requires AtWorkers(g, workers, started) && AreFailed(g, failed, workers, results)
    requires Counts(running, max, workers, counted) && Results(results, started, workers) && FailuresKept(results, workers, failed)
    ensures var w, res := workers[n := Reported(result)], results[n := result];
      && AtWorkers(g, w, started) && AreFailed(g, failed, w, res) && w.Keys == workers.Keys
      && Counts(running - 1, max, w, counted) && Results(res, started, w) && FailuresKept(res, w, failed)
      && (SomeFailed(res) <==> SomeFailed(results) || result != 0)
  {
    var w, res := workers[n := Reported(result)], results[n := result];
    assert Unreported(workers) == Unreported(w) + {n};
    assert n !in results;
    if SomeFailed(results) {
      var k :| k in results && results[k] != 0;
      assert res[k] != 0;
    }
    if result != 0 { assert res[n] != 0; }
  }

  lemma SameKeys(g: Graph, workers: map<Id, Phase>, w: map<Id, Phase>, failed: set<Id>, started: seq<Id>, cur: Option<Id>)
    requires w.Keys == workers.Keys
    requires Accounted(g, workers, failed, cur) && AtDispatcher(g, workers, failed, started, cur)
    ensures Accounted(g, w, failed, cur) && AtDispatcher(g, w, failed, started, cur)
  {
    assert forall n :: n in w <==> n in w.Keys;
    assert forall n :: n in workers <==> n in workers.Keys;
  }

  lemma ReportKeeps(s: System, rank: Id -> nat, n: Id, result: int)
    requires Inv(s, rank) && n in s.workers && s.workers[n].Running? && s.running > 0
    ensures Inv(Report(s, n, result), rank)
  {
    hide GraphInv, PcInv, AtWorkers, AreFailed, Accounted, AtDispatcher, StartedOnce, SomeFailed, FailuresKept, Results, Counts;
    ReportJobs(s.g, n, result, s.workers, s.failed, s.started, s.results, s.running, s.max, s.pc.Counted?);
    SameKeys(s.g, s.workers, s.workers[n := Reported(result)], s.failed, s.started, Current(s.pc));
    ReportPc(s, rank, n, result);
  }

  lemma ReportPc(s: System, rank: Id -> nat, n: Id, result: int)
    requires Inv(s, rank) && s.running > 0
    ensures GraphInv(Report(s, n, result), rank) && PcInv(Report(s, n, result), rank)
  {
    hide Sound, Bounded, AllTaken, SomeLeft, FilesLater, Taken, Found, Assigned, JobsInv, Results, SomeFailed, FailuresKept, Counts;
    AtMost(s.running, s.max, s.workers, s.pc.Counted?);
  }

  lemma AtMost(running: nat, max: nat, workers: map<Id, Phase>, counted: bool)
    requires Counts(running, max, workers, counted)
    ensures running <= max
  {
  }

  /** A worker that has failed leaves its node as it is; any other one has it built. */
  function Finished(g: Graph, n: Id, bad: bool): Graph
    requires n in g
  {
    if bad then g else SetStatus(g, n, Built)
  }

  lemma ReleaseGraph(g: Graph, n: Id, workers: map<Id, Phase>, failed: set<Id>, started: seq<Id>, results: map<Id, int>, cur: Option<Id>)
    requires n in workers && workers[n].Reported? && n in g
    requires AtWorkers(g, workers, started) && AreFailed(g, failed, workers, results) && Accounted(g, workers, failed, cur)
    requires AtDispatcher(g, workers, failed, started, cur) && StartedOnce(g, started) && Results(results, started, workers)
    ensures var bad := workers[n].result != 0; var g', f', w := Finished(g, n, bad), if bad then failed + {n} else failed, workers - {n};
      && AtWorkers(g', w, started) && AreFailed(g', f', w, results) && Accounted(g', w, f', cur)
      && AtDispatcher(g', w, f', started, cur) && StartedOnce(g', started) && Taken(g') == Taken(g)
  {
    SetTaken(g, n, Built);
    assert Taken(g) + {n} == Taken(g);
  }

  lemma ReleaseCounts(n: Id, workers: map<Id, Phase>, failed: set<Id>, started: seq<Id>, results: map<Id, int>, running: nat, max: nat, counted: bool)
    requires n in workers && workers[n].Reported?
    requires Results(results, started, workers) && FailuresKept(results, workers, failed) && Counts(running, max, workers, counted)
    ensures var f', w := if workers[n].result != 0 then failed + {n} else failed, workers - {n};
      Results(results, started, w) && FailuresKept(results, w, f') && Counts(running, max, w, counted)
  {
    assert Unreported(workers - {n}) == Unreported(workers);
  }

  lemma ReleasePc(s: System, rank: Id -> nat, n: Id)
    requires Inv(s, rank) && n in s.workers && s.workers[n].Reported? && n in s.g && s.workers[n].result == 0
    ensures Sound(SetStatus(s.g, n, Built), rank) && Bounded(SetStatus(s.g, n, Built), rank, s.next)
    ensures s.root.Some? && s.root.value in s.g && AllTaken(s.g, rank, s.root.value) ==> AllTaken(SetStatus(s.g, n, Built), rank, s.root.value)
    ensures s.root.Some? && s.root.value in s.g && SomeLeft(s.g, rank, s.root.value) ==> SomeLeft(SetStatus(s.g, n, Built), rank, s.root.value)
    ensures FilesLater(SetStatus(s.g, n, Built))
    ensures forall k, t :: k in s.g && Assigned(s.g, k, t) ==> Assigned(SetStatus(s.g, n, Built), k, t)
    ensures forall k, t :: Found(s.g, k, t) ==> Found(SetStatus(s.g, n, Built), k, t)
    ensures SomeLacks(s.g) ==> SomeLacks(SetStatus(s.g, n, Built))
  {
    hide Sound, Bounded, AllTaken, SomeLeft, FilesLater, CountInv, PcInv, Taken, AreFailed, Accounted, AtDispatcher, StartedOnce;
    TakenLater(s.g, n);
    SetLater(s.g, n, Built);
    StillLacks(s.g, n, Built);
    NodeFacts(s.g, rank, n);
    SetSound(s.g, rank, s.next, n, Built);
    SoundAcyclic(s.g, rank);
    SoundAcyclic(SetStatus(s.g, n, Built), rank);
    if s.root.Some? && s.root.value in s.g && AllTaken(s.g, rank, s.root.value) { StillTaken(s.g, rank, n, Built, s.root.value); }
    if s.root.Some? && s.root.value in s.g && SomeLeft(s.g, rank, s.root.value) { StillLeft(s.g, rank, n, Built, s.root.value); }
  }

  lemma ReleaseKeeps(s: System, rank: Id -> nat, n: Id)
    requires Inv(s, rank) && n in s.workers && s.workers[n].Reported? && n in s.g
    ensures Inv(Release(s, n), rank)
  {
    hide GraphInv, PcInv, AtWorkers, AreFailed, Accounted, AtDispatcher, StartedOnce, SomeFailed, FailuresKept, Results, Taken, Counts, SetStatus;
    ReleaseGraph(s.g, n, s.workers, s.failed, s.started, s.results, Current(s.pc));
    ReleaseCounts(n, s.workers, s.failed, s.started, s.results, s.running, s.max, s.pc.Counted?);
    if s.workers[n].result == 0 { ReleaseBuilt(s, rank, n); } else { ReleaseFailed(s, rank, n); }
  }

  lemma ReleaseBuilt(s: System, rank: Id -> nat, n: Id)
    requires Inv(s, rank) && n in s.workers && s.workers[n].Reported? && n in s.g && s.workers[n].result == 0
    requires Taken(SetStatus(s.g, n, Built)) == Taken(s.g)
    ensures GraphInv(Release(s, n), rank) && PcInv(Release(s, n), rank)
  {
    hide Sound, Bounded, AllTaken, SomeLeft, FilesLater, CountInv, JobsInv, Taken, Assigned, Found;
    ReleasePc(s, rank, n);
  }

  lemma ReleaseFailed(s: System, rank: Id -> nat, n: Id)
    requires Inv(s, rank) && n in s.workers && s.workers[n].Reported? && n in s.g && s.workers[n].result != 0
    ensures GraphInv(Release(s, n), rank) && PcInv(Release(s, n), rank)
  {
    hide Sound, Bounded, AllTaken, SomeLeft, FilesLater, AtWorkers, CountInv, JobsInv, Taken, Assigned, Ready, Found;
  }

  // ------------------------------------------------------------- all steps

  lemma StepKeeps(s: System, rank: Id -> nat, e: Event)
    requires Inv(s, rank) && Enabled(s, rank, e)
    ensures Inv(Apply(s, rank, e), rank)
  {
    hide GraphInv, JobsInv, CountInv, PcInv, Sound, Bounded, Mark, Make, Report, Release, DoSearch, Moved;
    match e {
      case Finish(n, r) => ReportKeeps(s, rank, n, r);
      case End(n) => ReleaseKeeps(s, rank, n);
      case Step(u) =>
        match s.pc {
          case Searching => SearchKeeps(s, rank);
          case Searched(Some(n), t) => MarkKeeps(s, rank, n, t);
          case Marked(n, t) => MakeKeeps(s, rank, n, t, u);
          case Made(n) => MadeKeeps(s, rank, n);
          case Counted(n) => StartKeeps(s, rank, n);
          case _ => MoveKeeps(s, rank);
        }
    }
  }

  // ------------------------------------------------------------- whole runs

  /** The start of a build: nothing has been done on the graph. */
  ghost predicate Initial(s: System, rank: Id -> nat) {
    && Sound(s.g, rank) && Bounded(s.g, rank, s.next) && (forall n :: n in s.g ==> s.g[n].status == Pristine)
    && (s.root.Some? ==> s.root.value in s.g && !s.g[s.root.value].kind.File? && !s.g[s.root.value].kind.Hook?)
    && s.pc == Top && s.running == 0 && s.processed == 0 && !s.errorOccured && !s.hasFail
    && s.workers == map[] && s.started == [] && s.results == map[] && s.failed == {}
  }

  /** A run: states joined by enabled events, in any interleaving. */
  ghost predicate IsRun(t: seq<System>, es: seq<Event>, rank: Id -> nat) {
    && |t| == |es| + 1 && Initial(t[0], rank)
    && forall i {:trigger es[i]} :: 0 <= i < |es| ==> Enabled(t[i], rank, es[i]) && t[i + 1] == Apply(t[i], rank, es[i])
  }

  lemma InitialInv(s: System, rank: Id -> nat)
    requires Initial(s, rank)
    ensures Inv(s, rank)
  {
    hide Sound, Bounded;
    assert Taken(s.g) == {} && Unreported(s.workers) == {};
  }

  lemma {:induction false} RunKeeps(t: seq<System>, es: seq<Event>, rank: Id -> nat, i: nat)
    requires IsRun(t, es, rank) && i < |t|
    ensures Inv(t[i], rank)
  {
    hide Inv, Initial, Enabled, Apply;
    if i == 0 {
      InitialInv(t[0], rank);
    } else {
      RunKeeps(t, es, rank, i - 1);
      assert Enabled(t[i - 1], rank, es[i - 1]);
      StepKeeps(t[i - 1], rank, es[i - 1]);
    }
  }

  /** How a single step changes a node. */
  ghost predicate Advances(g: Graph, g': Graph, n: Id)
    requires n in g
  {
    && n in g' && g'[n].kind == g[n].kind && Level(g[n].status) <= Level(g'[n].status)
    && (Level(g[n].status) < 2 && Level(g'[n].status) >= 2 ==>
        && g'[n].status == Building && g'[n].children == g[n].children
        && (g[n].kind.Target? ==> g[n].status == Expanded)
        && forall c :: c in g[n].children && c in g ==> g[c].status == Built)
    && (Level(g[n].status) >= 2 ==> g'[n].children == g[n].children)
  }

  /** Statuses never go back; a node is taken only when everything it depends on is built, and
      a target only after its files have become its children. */
  lemma StepAdvances(s: System, rank: Id -> nat, e: Event, n: Id)
    requires Inv(s, rank) && Enabled(s, rank, e) && n in s.g
    ensures Advances(s.g, Apply(s, rank, e).g, n)
  {
    hide GraphInv, JobsInv, CountInv, PcInv, Advances, Mark, Make, DoSearch, Sound, Bounded, Release;
    SameAdvances(s.g, n);
    match e {
      case Finish(_, _) =>
      case End(k) => ReleaseAdvances(s, rank, k, n);
      case Step(u) =>
        match s.pc {
          case Searching =>
            SearchKeeps(s, rank);
            SearchAdvances(s, rank, n);
          case Searched(Some(k), t) => MarkAdvances(s, rank, k, t, n);
          case Marked(k, t) => MakeAdvances(s, rank, k, t, u, n);
          case _ =>
        }
    }
  }

  lemma SameAdvances(g: Graph, n: Id)
    requires n in g
    ensures Advances(g, g, n)
  {
  }

  lemma MarkAdvances(s: System, rank: Id -> nat, k: Id, t: Option<Id>, n: Id)
    requires Inv(s, rank) && s.pc == Searched(Some(k), t) && n in s.g
    ensures k in s.g && Advances(s.g, Mark(s, k, t).g, n)
  {
    hide GraphInv, JobsInv, CountInv;
  }

  lemma MakeAdvances(s: System, rank: Id -> nat, k: Id, t: Option<Id>, u: bool, n: Id)
    requires Inv(s, rank) && s.pc == Marked(k, t) && n in s.g
    ensures k in s.g && (s.g[k].kind == Target(true) ==> t.Some? && t.value in s.g) && Advances(s.g, Make(s, k, t, u).g, n)
  {
    hide GraphInv, CountInv, AtWorkers, AreFailed, Accounted, StartedOnce;
  }

  lemma ReleaseAdvances(s: System, rank: Id -> nat, k: Id, n: Id)
    requires Inv(s, rank) && k in s.workers && s.workers[k].Reported? && k in s.g && n in s.g
    ensures Advances(s.g, Release(s, k).g, n)
  {
    hide GraphInv, CountInv, PcInv, AreFailed, Accounted, AtDispatcher, StartedOnce, Advances, SetStatus;
    SameAdvances(s.g, n);
    BuiltAdvances(s.g, k, n);
  }

  lemma BuiltAdvances(g: Graph, k: Id, n: Id)
    requires k in g && n in g && g[k].status == Building
    ensures Advances(g, SetStatus(g, k, Built), n)
  {
  }

  lemma SearchAdvances(s: System, rank: Id -> nat, n: Id)
    requires Inv(s, rank) && s.pc.Searching? && s.root.Some? && s.root.value in s.g && n in s.g
    ensures Advances(s.g, DoSearch(s, rank).g, n)
  {
    hide Sound, Bounded, PcInv, CountInv, JobsInv, Taken, FilesLater, Find, Expand, Advances, Lacks, FilesOf;
    SoundAcyclic(s.g, rank);
    SearchWithin(s.g, rank, s.root.value, None, s.needToWait);
    SameAdvances(s.g, n);
    var r := Find(s.g, rank, s.root.value, None, s.needToWait);
    if r.node.Some? && s.g[r.node.value].kind.Target? && s.g[r.node.value].status == Pristine {
      ExpandAdvances(s.g, rank, s.next, r.node.value, n);
    }
  }

  lemma ExpandAdvances(g: Graph, rank: Id -> nat, next: Id, k: Id, n: Id)
    requires Bounded(g, rank, next) && k in g && n in g && g[k].kind.Target? && g[k].status == Pristine
    ensures k < next && Advances(g, Expand(g, k, next), n)
  {
    hide Expand;
    ExpandAt(g, rank, next, k);
  }

  lemma ExpandAt(g: Graph, rank: Id -> nat, next: Id, n: Id)
    requires Bounded(g, rank, next) && n in g
    ensures n < next && forall k :: k in g ==> k in Expand(g, n, next)
    ensures Expand(g, n, next)[n].kind == g[n].kind && Expand(g, n, next)[n].status == Expanded
    ensures forall k :: k in g && k != n ==> Expand(g, n, next)[k] == g[k]
  {
    PopulatedAt(g, n, next, |FilesOf(g[n])|);
  }

  /** In every run, however the workers are interleaved with the dispatching thread and
      whatever their results: a node that is being built or built has everything it depends on
      built, and if it is a file, so are the dependencies and the hook of its target; no node is
      dispatched twice; the counter counts the unreported jobs and stays within its bound; and
      the final result is true exactly when no job reported a failure, after all of them have
      reported. */
  lemma RunsAreSafe(t: seq<System>, es: seq<Event>, rank: Id -> nat, i: nat)
    requires IsRun(t, es, rank) && i < |t|
    ensures var s := t[i];
      && (forall n, c :: n in s.g && Level(s.g[n].status) >= 2 && c in s.g[n].children ==> c in s.g && s.g[c].status == Built)
      && (forall p, m :: Own(s.g, p, m) && s.g[p].kind.Target? && s.g[m].kind.File? && Level(s.g[m].status) >= 2 ==> DepsBuilt(s.g, p))
      && (forall a, b :: 0 <= a < b < |s.started| ==> s.started[a] != s.started[b])
      && s.running == |Unreported(s.workers)| + (if s.pc.Counted? then 1 else 0) <= s.max
      && s.processed == |Taken(s.g)|
      && (s.pc.Done? ==> forall n :: n in s.started ==> n in s.results)
      && (s.pc.Done? ==> (s.pc.result <==> forall n {:trigger s.results[n]} :: n in s.results ==> s.results[n] == 0))
  {
    RunKeeps(t, es, rank, i);
    RunFacts(t[i], rank);
  }

  lemma RunFacts(s: System, rank: Id -> nat)
    requires Inv(s, rank)
    ensures forall n, c :: n in s.g && Level(s.g[n].status) >= 2 && c in s.g[n].children ==> c in s.g && s.g[c].status == Built
    ensures s.pc.Done? ==> (forall n :: n in s.started ==> n in s.results)
    ensures s.pc.Done? ==> (s.pc.result <==> forall n {:trigger s.results[n]} :: n in s.results ==> s.results[n] == 0)
  {
    hide AllTaken, Bounded, Taken;
    forall n, c | n in s.g && Level(s.g[n].status) >= 2 && c in s.g[n].children ensures c in s.g && s.g[c].status == Built {
      assert InOrder(s.g, s.g[n]) && ChildrenOk(s.g, rank, n);
    }
    if s.pc.Done? {
      AllReported(s.workers);
    }
  }

  lemma AllReported(w: map<Id, Phase>)
    requires |Unreported(w)| == 0
    ensures forall n :: n in w ==> w[n].Reported?
  {
    forall n | n in w ensures w[n].Reported? { assert n !in Unreported(w); }
  }

  /** Under the root everything is built, or about to be called so by its worker. */
  ghost predicate Complete(s: System, rank: Id -> nat)
    requires Sound(s.g, rank) && s.root.Some? && s.root.value in s.g
  {
    forall m :: Under(s.g, rank, s.root.value, m) && m in s.g && !s.g[m].kind.FakeRoot? ==>
      s.g[m].status == Built || (m in s.workers && s.workers[m] == Reported(0))
  }

  /** A build that ends with success has no root, or is complete, or a change of the tree after a
      search has ended it: then, and only then, something is left. */
  lemma CompleteBuild(t: seq<System>, es: seq<Event>, rank: Id -> nat, i: nat)
    requires IsRun(t, es, rank) && i < |t| && t[i].pc.Done? && t[i].pc.result
    ensures t[i].pc.why in {Nothing, NoRoot, Changed} && (t[i].pc.why.NoRoot? <==> t[i].root.None?)
    ensures t[i].root.Some? ==>
      Sound(t[i].g, rank) && t[i].root.value in t[i].g && (Complete(t[i], rank) <==> !t[i].pc.why.Changed?)
  {
    RunKeeps(t, es, rank, i);
    CompleteFacts(t[i], rank);
  }

  lemma CompleteFacts(s: System, rank: Id -> nat)
    requires Inv(s, rank) && s.pc.Done? && s.pc.result
    ensures s.pc.why in {Nothing, NoRoot, Changed} && (s.pc.why.NoRoot? <==> s.root.None?)
    ensures s.root.Some? ==> Sound(s.g, rank) && s.root.value in s.g && (Complete(s, rank) <==> !s.pc.why.Changed?)
  {
    hide Bounded, Taken, Under, FilesLater;
    AllReported(s.workers);
  }
}
