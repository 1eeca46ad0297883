/** The whole build: the dispatching thread, its worker threads and their atomic steps. */
module SchSystem {
  import opened Common
  import opened SchTree
  import opened SchSearch
  import opened SchExpand

  /** A worker runs its command, reports the result to the job manager, and then releases
      its node. */
  datatype Phase = Running | Reported(result: int)

  /** Why no further job is started. */
  datatype Reason = Error | Nothing | Changed | Failed | NoRoot

  /** Where the dispatching thread is in `JobManager::run` and `JobFactory::createJob`. */
  datatype Pc =
    | Top
    | WaitJobs(woken: bool)
    | Checked
    | Create
    | Searching
    | Searched(found: Option<Id>, target: Option<Id>)
    | BeforeWait
    | WaitTree(woken: bool)
    | Marked(node: Id, owner: Option<Id>)
    | Made(node: Id)
    | Counted(node: Id)
    | NoJob(why: Reason)
    | WaitAll(woken: bool, why: Reason)
    | Done(result: bool, why: Reason)
    | Thrown

  /** `started`, `results` and `failed` record the history of the run. */
  datatype System = System(
    g: Graph, next: Id, root: Option<Id>,
    needToWait: bool, treeChanged: bool, processed: nat, hasFail: bool,
    running: nat, max: nat, errorOccured: bool,
    pc: Pc, workers: map<Id, Phase>,
    started: seq<Id>, results: map<Id, int>, failed: set<Id>)

  function SetStatus(g: Graph, n: Id, st: Status): Graph
    requires n in g
  {
    g[n := g[n].(status := st)]
  }

  // ------------------------------------------------------------- the steps

  ghost predicate CanDispatch(s: System) {
    match s.pc
    case WaitJobs(w) => w
    case WaitTree(w) => w
    case WaitAll(w, _) => w
    case Done(_, _) => false
    case Thrown => false
    case Searching => s.root.Some? && s.root.value in s.g
    case Searched(Some(n), _) => n in s.g
    case Marked(n, t) => n in s.g && (s.g[n].kind == Target(true) ==> t.Some? && t.value in s.g)
    case _ => true
  }

  /** The search under the lock of the tree; a target that is found for the first time is
      expanded, which throws if a dependency is unknown, and searched again. */
  ghost function DoSearch(s: System, rank: Id -> nat): System
    requires Sound(s.g, rank) && Bounded(s.g, rank, s.next) && s.root.Some? && s.root.value in s.g
  {
    SearchWithin(s.g, rank, s.root.value, None, s.needToWait);
    var r := Find(s.g, rank, s.root.value, None, s.needToWait);
    if r.node.Some? && s.g[r.node.value].kind.Target? && s.g[r.node.value].status == Pristine then
      var n := r.node.value;
      var g' := Expand(s.g, n, s.next);
      ExpandSound(s.g, rank, s.next, n);
      var r' := Find(g', rank, n, r.target, r.wait);
      if Lacks(s.g[n]) then s.(g := g', needToWait := r.wait, pc := Thrown)
      else s.(g := g', next := s.next + |FilesOf(s.g[n])|, needToWait := r'.wait, pc := Searched(r'.node, r'.target))
    else s.(needToWait := r.wait, pc := Searched(r.node, r.target))
  }

  lemma SearchWithin(g: Graph, rank: Id -> nat, root: Id, target: Option<Id>, wait: bool)
    requires Sound(g, rank) && root in g
    ensures var r := Find(g, rank, root, target, wait); r.node.Some? ==> r.node.value in g
  {
    FindResult(g, rank, root, target, wait);
  }

  /** Where the next step only moves the program counter. The wait for a change of the tree
      begins some time after the test for one, and a change in between wakes nobody. */
  predicate Moves(pc: Pc) {
    match pc
    case Searching => false
    case Searched(f, _) => f.None?
    case Marked(_, _) => false
    case Made(_) => false
    case Counted(_) => false
    case _ => true
  }

  function Mark(s: System, n: Id, t: Option<Id>): System
    requires n in s.g
  {
    s.(g := SetStatus(s.g, n, Building), processed := s.processed + 1, pc := Marked(n, t))
  }

  /** A job is created, unless the output is up to date; a custom target's job is that of the
      reported target. */
  function Make(s: System, n: Id, t: Option<Id>, upToDate: bool): System
    requires n in s.g && (s.g[n].kind == Target(true) ==> t.Some? && t.value in s.g)
  {
    var m := if s.g[n].kind == Target(true) then t.value else n;
    if upToDate && !s.g[n].kind.Hook? then s.(g := SetStatus(s.g, m, Built), pc := Create)
    else s.(g := SetStatus(s.g, m, Building), pc := Made(m))
  }

  /** Where the dispatching thread goes when it only moves on. */
  function NextPc(s: System): Pc {
    match s.pc
    case Top => if s.errorOccured then NoJob(Error) else if s.running >= s.max then WaitJobs(false) else Checked
    case WaitJobs(_) => Checked
    case Checked => if s.errorOccured then NoJob(Error) else if s.root.None? then NoJob(NoRoot) else Create
    case Create => Searching
    case Searched(_, _) => if s.needToWait && !s.treeChanged then BeforeWait else NoJob(if s.needToWait then Changed else Nothing)
    case BeforeWait => WaitTree(false)
    case WaitTree(_) => if s.hasFail then NoJob(Failed) else Create
    case NoJob(w) => if s.running > 0 then WaitAll(false, w) else Done(!s.errorOccured, w)
    case WaitAll(_, w) => Done(!s.errorOccured, w)
    case _ => s.pc
  }

  /** A search starts with both flags cleared. */
  function Moved(s: System): System {
    var s1 := if s.pc.Create? then s.(treeChanged := false, needToWait := false) else s;
    s1.(pc := NextPc(s))
  }

  /** One step of the dispatching thread; `upToDate` says whether the output of the node at
      hand is newer than its inputs. */
  ghost function Dispatch(s: System, rank: Id -> nat, upToDate: bool): (s': System)
    requires Sound(s.g, rank) && Bounded(s.g, rank, s.next) && CanDispatch(s)
    ensures Moves(s.pc) || s.pc.Made? || s.pc.Counted? ==> s'.g == s.g
  {
    hide Sound, Bounded, DoSearch, Mark, Make, NextPc;
    match s.pc
    case Searching => DoSearch(s, rank)
    case Searched(Some(n), t) => Mark(s, n, t)
    case Marked(n, t) => Make(s, n, t, upToDate)
    case Made(n) => s.(running := s.running + 1, pc := Counted(n))
    case Counted(n) => s.(workers := s.workers[n := Running], started := s.started + [n], pc := Top)
    case _ => Moved(s)
  }

  /** The notifications of `onJobFinished`. */
  function Woken(pc: Pc, running: nat, max: nat): Pc {
    match pc
    case WaitJobs(w) => WaitJobs(w || running < max)
    case WaitAll(w, why) => WaitAll(w || running == 0, why)
    case _ => pc
  }

  /** `onJobFinished`, called by the worker of `n`. */
  function Report(s: System, n: Id, result: int): System
    requires s.running > 0
  {
    var running := s.running - 1;
    s.(running := running, errorOccured := s.errorOccured || result != 0, pc := Woken(s.pc, running, s.max),
       workers := s.workers[n := Reported(result)], results := s.results[n := result])
  }

  /** The end of the worker of `n`: its guard writes the node's final status, or records the
      failure, and announces a change of the tree. */
  function Release(s: System, n: Id): System
    requires n in s.workers && s.workers[n].Reported? && n in s.g
  {
    var s1 := if s.workers[n].result != 0 then s.(hasFail := true, failed := s.failed + {n})
              else s.(g := SetStatus(s.g, n, Built));
    s1.(treeChanged := true, pc := if s.pc.WaitTree? then WaitTree(true) else s.pc, workers := s.workers - {n})
  }

  datatype Event = Step(upToDate: bool) | Finish(node: Id, result: int) | End(node: Id)

  ghost predicate Enabled(s: System, rank: Id -> nat, e: Event) {
    Sound(s.g, rank) && Bounded(s.g, rank, s.next) &&
    match e
    case Step(_) => CanDispatch(s)
    case Finish(n, _) => n in s.workers && s.workers[n].Running? && s.running > 0
    case End(n) => n in s.workers && s.workers[n].Reported? && n in s.g
  }

  ghost function Apply(s: System, rank: Id -> nat, e: Event): System
    requires Enabled(s, rank, e)
  {
    match e
    case Step(u) => Dispatch(s, rank, u)
    case Finish(n, r) => Report(s, n, r)
    case End(n) => Release(s, n)
  }

  // ------------------------------------------------------------- the invariant

  /** The node that the dispatching thread is making a job for. */
  function Current(pc: Pc): Option<Id> {
    match pc
    case Marked(n, _) => Some(n)
    case Made(n) => Some(n)
    case Counted(n) => Some(n)
    case _ => None
  }

  ghost function Unreported(w: map<Id, Phase>): set<Id> {
    set n | n in w && w[n].Running?
  }

  /** Nodes that have been taken for building. */
  ghost function Taken(g: Graph): set<Id> {
    set n | n in g && Level(g[n].status) >= 2
  }

  ghost predicate GraphInv(s: System, rank: Id -> nat) {
    && Sound(s.g, rank) && Bounded(s.g, rank, s.next)
    && (s.root.Some? ==> s.root.value in s.g && !s.g[s.root.value].kind.File? && !s.g[s.root.value].kind.Hook?)
    && s.processed == |Taken(s.g)| && FilesLater(s.g)
  }

  // A node is being built exactly while it is at the dispatching thread or at a worker, or
  // after its worker has failed.

  ghost predicate AtWorkers(g: Graph, workers: map<Id, Phase>, started: seq<Id>) {
    forall n :: n in workers ==> n in g && g[n].status == Building && n in started
  }

  ghost predicate AreFailed(g: Graph, failed: set<Id>, workers: map<Id, Phase>, results: map<Id, int>) {
    forall n :: n in failed ==> n in g && g[n].status == Building && n !in workers && n in results && results[n] != 0
  }

  ghost predicate Accounted(g: Graph, workers: map<Id, Phase>, failed: set<Id>, current: Option<Id>) {
    forall n {:trigger g[n]} :: n in g && g[n].status == Building ==> n in workers || n in failed || current == Some(n)
  }

  ghost predicate AtDispatcher(g: Graph, workers: map<Id, Phase>, failed: set<Id>, started: seq<Id>, current: Option<Id>) {
    current.Some? ==>
      var n := current.value;
      n in g && g[n].status == Building && n !in workers && n !in failed && n !in started
  }

  /** No node is started twice, and what has been started is taken. */
  ghost predicate StartedOnce(g: Graph, started: seq<Id>) {
    && (forall n :: n in started ==> n in g && Level(g[n].status) >= 2)
    && (forall i, j :: 0 <= i < j < |started| ==> started[i] != started[j])
  }

  ghost predicate JobsInv(s: System) {
    && AtWorkers(s.g, s.workers, s.started) && AreFailed(s.g, s.failed, s.workers, s.results)
    && Accounted(s.g, s.workers, s.failed, Current(s.pc)) && AtDispatcher(s.g, s.workers, s.failed, s.started, Current(s.pc))
    && StartedOnce(s.g, s.started) && (s.hasFail <==> s.failed != {})
  }

  /** The counter counts the jobs that have been counted and have not reported. */
  ghost predicate Counts(running: nat, max: nat, workers: map<Id, Phase>, counted: bool) {
    running == |Unreported(workers)| + (if counted then 1 else 0) && running <= max
  }

  /** A started job has a result or its worker is running. */
  ghost predicate Results(results: map<Id, int>, started: seq<Id>, workers: map<Id, Phase>) {
    && (forall n :: n in results ==> n in started)
    && (forall n :: n in started ==> n in results || (n in workers && workers[n].Running?))
    && (forall n :: n in workers ==> (workers[n].Reported? <==> n in results))
    && (forall n :: n in workers && workers[n].Reported? ==> n in results && workers[n].result == results[n])
  }

  ghost predicate SomeFailed(results: map<Id, int>) {
    exists n :: n in results && results[n] != 0
  }

  ghost predicate FailuresKept(results: map<Id, int>, workers: map<Id, Phase>, failed: set<Id>) {
    forall n {:trigger results[n]} :: n in results && results[n] != 0 && n !in workers ==> n in failed
  }

  ghost predicate CountInv(s: System) {
    && Counts(s.running, s.max, s.workers, s.pc.Counted?) && Results(s.results, s.started, s.workers)
    && (s.errorOccured <==> SomeFailed(s.results)) && FailuresKept(s.results, s.workers, s.failed)
  }

  /** Everything under the root has been started. */
  ghost predicate AllTaken(g: Graph, rank: Id -> nat, root: Id)
    requires Acyclic(g, rank) && root in g
  {
    forall m :: Under(g, rank, root, m) ==> m in g && (Level(g[m].status) >= 2 || (m == root && g[m].kind.FakeRoot?))
  }

  ghost predicate All(s: System, rank: Id -> nat)
    requires GraphInv(s, rank)
  {
    s.root.Some? && AllTaken(s.g, rank, s.root.value)
  }

  ghost predicate Left(s: System, rank: Id -> nat)
    requires GraphInv(s, rank)
  {
    s.root.Some? && SomeLeft(s.g, rank, s.root.value)
  }

  /** What holds when no further job is started, for each reason; `all` and `left` say whether
      everything under the root has been started and whether something is left. */
  predicate Ended(s: System, w: Reason, all: bool, left: bool) {
    && (w.Nothing? ==> all) && (w.Changed? ==> left) && (w.NoRoot? ==> s.root.None?)
    && (w.Error? || w.Failed? ==> s.errorOccured)
  }

  /** A worker is there that can end, unless the tree has changed since the search began or some
      job has failed. */
  predicate Expected(s: System) {
    s.workers != map[] || s.treeChanged || s.hasFail
  }

  predicate PcOk(s: System, pc: Pc, all: bool, left: bool) {
    match pc
    case WaitJobs(w) => w <==> s.running < s.max
    case Checked => s.running < s.max
    case Create => s.running < s.max && s.root.Some?
    case Searching => s.running < s.max && s.root.Some? && !s.needToWait
    case Searched(f, _) => s.running < s.max && s.root.Some? && (f.None? ==> if s.needToWait then left && Expected(s) else all)
    case BeforeWait => s.running < s.max && s.root.Some? && Expected(s)
    case WaitTree(w) => s.running < s.max && s.root.Some? && (!w ==> Expected(s))
    case Marked(_, _) => s.running < s.max && s.root.Some?
    case Made(_) => s.running < s.max && s.root.Some?
    case NoJob(w) => Ended(s, w, all, left)
    case WaitAll(woken, w) => (woken <==> s.running == 0) && Ended(s, w, all, left)
    case Done(r, w) => s.running == 0 && (r <==> !s.errorOccured) && Ended(s, w, all, left)
    case _ => true
  }

  ghost predicate FoundInv(s: System) {
    match s.pc
    case Searched(Some(n), t) => Found(s.g, n, t)
    case Marked(n, t) => n in s.g && Assigned(s.g, n, t)
    case Thrown => SomeLacks(s.g)
    case _ => true
  }

  /** Some dependency is unknown. */
  ghost predicate SomeLacks(g: Graph) {
    exists n :: n in g && Lacks(g[n])
  }

  ghost predicate PcInv(s: System, rank: Id -> nat)
    requires GraphInv(s, rank)
  {
    PcOk(s, s.pc, All(s, rank), Left(s, rank)) && FoundInv(s)
  }

  /** A node and the target whose settings its job uses. */
  ghost predicate Assigned(g: Graph, n: Id, t: Option<Id>)
    requires n in g
  {
    && (g[n].kind.Target? ==> t == Some(n))
    && (g[n].kind.File? ==> t.Some? && FileOf(g, t.value, n))
  }

  ghost predicate Found(g: Graph, n: Id, t: Option<Id>) {
    Ready(g, n) && Assigned(g, n, t) && (g[n].kind.Target? ==> g[n].status == Expanded)
  }

  ghost predicate Inv(s: System, rank: Id -> nat) {
    GraphInv(s, rank) && JobsInv(s) && CountInv(s) && PcInv(s, rank)
  }
}
