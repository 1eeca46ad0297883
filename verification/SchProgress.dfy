/** Every build comes to an end or gets stuck, and exactly when it gets stuck. */
module SchProgress {
  import opened Common
  import opened SchTree
  import opened SchSearch
  import opened SchExpand
  import opened SchSystem
  import opened SchSafety

  // ------------------------------------------------------------- stuck builds

  ghost predicate Over(s: System) {
    s.pc.Done? || s.pc.Thrown?
  }

  /** The build is not over, and nobody can do anything. */
  ghost predicate Stuck(s: System, rank: Id -> nat) {
    !Over(s) && forall e :: !Enabled(s, rank, e)
  }

  /** A wait that nobody is left to end. */
  predicate Forgotten(s: System) {
    s.workers == map[] && (s.pc == WaitTree(false) || s.pc == WaitJobs(false))
  }

  lemma WorkerActs(s: System, rank: Id -> nat, n: Id)
    requires Inv(s, rank) && n in s.workers
    ensures Enabled(s, rank, if s.workers[n].Running? then Finish(n, 0) else End(n))
  {
    hide Sound, Bounded, PcInv, AreFailed, Accounted, AtDispatcher, StartedOnce, Results, FailuresKept, Taken, FilesLater;
    if s.workers[n].Running? { assert n in Unreported(s.workers); }
  }

  lemma DispatcherActs(s: System, rank: Id -> nat)
    requires Inv(s, rank) && !Over(s) && !CanDispatch(s)
    ensures s.pc == WaitTree(false) || s.pc == WaitJobs(false) || (s.pc.WaitAll? && s.running > 0)
  {
    hide Sound, Bounded, JobsInv, CountInv, Taken, FilesLater, AllTaken, SomeLeft;
    match s.pc {
      case Marked(n, t) => MarkedFacts(s, rank, n, t);
      case _ =>
    }
  }

  /** A build is stuck exactly when it waits and no worker is left. */
  lemma StuckIff(s: System, rank: Id -> nat)
    requires Inv(s, rank)
    ensures Stuck(s, rank) <==> Forgotten(s)
  {
    hide Inv, Enabled, CountInv;
    if s.workers != map[] {
      var n :| n in s.workers;
      WorkerActs(s, rank, n);
    } else if !Over(s) && !Forgotten(s) {
      InvCounts(s, rank);
      if CanDispatch(s) {
        StepEnabled(s, rank);
      } else {
        DispatcherActs(s, rank);
        NoWorkers(s);
      }
    } else {
      NobodyActs(s, rank);
    }
  }

  lemma InvCounts(s: System, rank: Id -> nat)
    requires Inv(s, rank)
    ensures CountInv(s)
  {
  }

  lemma StepEnabled(s: System, rank: Id -> nat)
    requires Inv(s, rank) && CanDispatch(s)
    ensures Enabled(s, rank, Step(false))
  {
    hide Sound, Bounded, JobsInv, CountInv, PcInv;
  }

  lemma NobodyActs(s: System, rank: Id -> nat)
    requires s.workers == map[] && (Over(s) || Forgotten(s))
    ensures forall e :: !Enabled(s, rank, e)
  {
    hide Sound, Bounded;
  }

  /** With a job slot, the one step by which a build gets stuck is the beginning of a wait for a
      change of the tree when no worker is left: none of the nodes that are being built is at a
      worker any more, because their jobs have failed, or because the last one ended after the
      test for a change. Without a job slot every build gets stuck at once. */
  lemma StuckStep(s: System, rank: Id -> nat, e: Event)
    requires Inv(s, rank) && Enabled(s, rank, e)
    ensures s.max > 0 ==> (Stuck(Apply(s, rank, e), rank) <==> e.Step? && s.pc.BeforeWait? && s.workers == map[])
    ensures s.pc.BeforeWait? && s.workers == map[] ==> s.treeChanged || s.hasFail
    ensures s.max == 0 && e.Step? && s.pc.Top? && !s.errorOccured && s.workers == map[] ==> Stuck(Apply(s, rank, e), rank)
  {
    hide Sound, Bounded, GraphInv, JobsInv, CountInv, FoundInv, DoSearch, Mark, Make, Stuck, Moved, Forgotten, All, Left;
    StepKeeps(s, rank, e);
    StuckIff(Apply(s, rank, e), rank);
    NoWorkers(s);
    match e {
      case Step(u) =>
        if Moves(s.pc) { MovedForgets(s); } else { BusyForgets(s, rank, u); }
      case Finish(n, r) => ReportForgets(s, n, r);
      case End(n) =>
        NoWorkers(Release(s, n));
        ReleaseForgets(s, rank, n);
    }
  }

  lemma NoWorkers(s: System)
    requires CountInv(s)
    ensures s.workers == map[] && !s.pc.Counted? ==> s.running == 0
    ensures s.max == 0 ==> s.running == 0
  {
    hide Results, SomeFailed, FailuresKept;
    if s.workers == map[] { assert Unreported(s.workers) == {}; }
  }

  lemma MovedForgets(s: System)
    requires Moves(s.pc) && CanDispatch(s)
    ensures Forgotten(Moved(s)) <==>
      s.workers == map[] && (s.pc.BeforeWait? || (s.pc.Top? && !s.errorOccured && s.running >= s.max))
  {
  }

  lemma BusyForgets(s: System, rank: Id -> nat, u: bool)
    requires Sound(s.g, rank) && Bounded(s.g, rank, s.next) && CanDispatch(s) && !Moves(s.pc)
    ensures !Forgotten(Dispatch(s, rank, u))
  {
    hide Sound, Bounded, DoSearch, Mark, Make;
    match s.pc {
      case Searching => SearchGoes(s, rank);
      case Searched(Some(n), t) => MarkGoes(s, n, t, u);
      case Marked(n, t) => MarkGoes(s, n, t, u);
      case _ =>
    }
  }

  lemma MarkGoes(s: System, n: Id, t: Option<Id>, u: bool)
    requires n in s.g
    ensures Mark(s, n, t).pc.Marked?
    ensures (s.g[n].kind == Target(true) ==> t.Some? && t.value in s.g) ==> Make(s, n, t, u).pc.Create? || Make(s, n, t, u).pc.Made?
  {
    hide SetStatus;
  }

  lemma SearchGoes(s: System, rank: Id -> nat)
    requires Sound(s.g, rank) && Bounded(s.g, rank, s.next) && s.root.Some? && s.root.value in s.g
    ensures DoSearch(s, rank).pc.Searched? || DoSearch(s, rank).pc.Thrown?
  {
    hide Sound, Bounded, Find, Expand, Lacks, FilesOf, Acyclic;
    SoundAcyclic(s.g, rank);
  }

  lemma ReportForgets(s: System, n: Id, result: int)
    requires n in s.workers && s.running > 0
    ensures !Forgotten(Report(s, n, result))
  {
    assert n in Report(s, n, result).workers;
  }

  lemma ReleaseForgets(s: System, rank: Id -> nat, n: Id)
    requires GraphInv(s, rank) && PcInv(s, rank) && n in s.workers && s.workers[n].Reported? && n in s.g
    requires Release(s, n).workers == map[] && !s.pc.Counted? ==> s.running == 0
    ensures s.max > 0 ==> !Forgotten(Release(s, n))
  {
    hide Sound, Bounded, SetStatus, Taken, FilesLater, AllTaken, SomeLeft, FoundInv;
  }

  // ------------------------------------------------------------- the work that is left

  /** A node that can still be started, with the files that its expansion will add. */
  function NodeWork(n: Node): nat {
    if Level(n.status) >= 2 then 0 else 1 + (if n.status == Pristine then |FilesOf(n)| else 0)
  }

  ghost function WorkOf(g: Graph, ids: set<Id>): nat
    requires ids <= g.Keys
  {
    if ids == {} then 0
    else
      var n :| n in ids;
      NodeWork(g[n]) + WorkOf(g, ids - {n})
  }

  ghost function Work(g: Graph): nat {
    WorkOf(g, g.Keys)
  }

  lemma {:induction false} WorkWith(g: Graph, ids: set<Id>, n: Id)
    requires ids <= g.Keys && n in ids
    ensures WorkOf(g, ids) == NodeWork(g[n]) + WorkOf(g, ids - {n})
    decreases |ids|
  {
    hide NodeWork;
    var k :| k in ids && WorkOf(g, ids) == NodeWork(g[k]) + WorkOf(g, ids - {k});
    if k != n {
      WorkWith(g, ids - {k}, n);
      WorkWith(g, ids - {n}, k);
      assert ids - {k} - {n} == ids - {n} - {k};
    }
  }

  lemma {:induction false} WorkSame(g: Graph, g': Graph, ids: set<Id>)
    requires ids <= g.Keys && ids <= g'.Keys && forall n :: n in ids ==> NodeWork(g'[n]) == NodeWork(g[n])
    ensures WorkOf(g', ids) == WorkOf(g, ids)
    decreases |ids|
  {
    hide NodeWork;
    if ids != {} {
      var n :| n in ids;
      WorkSame(g, g', ids - {n});
      WorkWith(g, ids, n);
      WorkWith(g', ids, n);
    }
  }

  /** Nodes that each count one. */
  lemma {:induction false} WorkOnes(g: Graph, ids: set<Id>, more: set<Id>)
    requires ids <= g.Keys && more <= g.Keys && ids !! more && forall n :: n in more ==> NodeWork(g[n]) == 1
    ensures WorkOf(g, ids + more) == WorkOf(g, ids) + |more|
    decreases |more|
  {
    hide NodeWork;
    if more == {} {
      assert ids + more == ids;
    } else {
      var n :| n in more;
      WorkOnes(g, ids, more - {n});
      WorkWith(g, ids + more, n);
      assert ids + more - {n} == ids + (more - {n});
    }
  }

  lemma WorkSet(g: Graph, n: Id, st: Status)
    requires n in g && Level(st) >= 2
    ensures Work(SetStatus(g, n, st)) == Work(g) - NodeWork(g[n])
  {
    hide WorkOf;
    var g' := SetStatus(g, n, st);
    assert g'.Keys == g.Keys;
    WorkWith(g, g.Keys, n);
    WorkWith(g', g.Keys, n);
    WorkSame(g, g', g.Keys - {n});
  }

  lemma ExpandWorks(g: Graph, rank: Id -> nat, next: Id, n: Id)
    requires Expandable(g, rank, next, n)
    ensures n < next && var k, g' := |FilesOf(g[n])|, Expand(g, n, next);
      && g'.Keys == g.Keys + NumberSet(next, k) && g.Keys !! NumberSet(next, k)
      && NodeWork(g[n]) == 1 + k && NodeWork(g'[n]) == 1
      && (forall id :: id in g && id != n ==> g'[id] == g[id]) && forall id :: id in NumberSet(next, k) ==> NodeWork(g'[id]) == 1
  {
    hide Sound, Populated, NumberSet;
    BoundedAt(g, rank, next, n);
    var k, g' := |FilesOf(g[n])|, Expand(g, n, next);
    PopulatedAt(g, n, next, k);
    KeysAre(g', g.Keys, NumberSet(next, k));
    forall id | id in NumberSet(next, k) ensures NodeWork(g'[id]) == 1 { assert g'[id] == FileNode(g[n].files[id - next]); }
  }

  lemma KeysAre(g: Graph, a: set<Id>, b: set<Id>)
    requires forall id :: id in g <==> id in a || id in b
    ensures g.Keys == a + b
  {
  }

  /** Expansion turns the files that were counted at their target into nodes. */
  lemma WorkExpand(g: Graph, rank: Id -> nat, next: Id, n: Id)
    requires Expandable(g, rank, next, n)
    ensures n < next && Work(Expand(g, n, next)) == Work(g)
  {
    hide WorkOf, NodeWork, Sound, Expand, NumberSet, FilesOf;
    ExpandWorks(g, rank, next, n);
    var g', more := Expand(g, n, next), NumberSet(next, |FilesOf(g[n])|);
    WorkWith(g, g.Keys, n);
    WorkWith(g', g.Keys, n);
    WorkSame(g, g', g.Keys - {n});
    WorkOnes(g', g.Keys, more);
  }

  ghost function NumberSet(from: Id, n: nat): (s: set<Id>)
    ensures |s| == n && forall k :: k in s <==> from <= k < from + n
  {
    if n == 0 then {} else NumberSet(from, n - 1) + {from + n - 1}
  }

  // ------------------------------------------------------------- every run ends

  function PcRank(pc: Pc): nat {
    match pc
    case Top => 20
    case WaitJobs(_) => 19
    case Checked => 18
    case WaitTree(w) => if w then 17 else 12
    case Create => 16
    case Searching => 15
    case Searched(_, _) => 14
    case BeforeWait => 13
    case Marked(_, _) => 11
    case Made(_) => 10
    case Counted(_) => 9
    case NoJob(_) => 8
    case WaitAll(_, _) => 7
    case Done(_, _) => 0
    case Thrown => 0
  }

  /** What the workers and the job at hand have still to do. */
  ghost function Pending(s: System): nat {
    |s.workers| + |Unreported(s.workers)| + (if Current(s.pc).Some? then 3 else 0)
  }

  /** How many events there can still be, at most. */
  ghost function Measure(s: System): nat {
    21 * (4 * Work(s.g) + Pending(s)) + PcRank(s.pc)
  }

  lemma StepShrinks(s: System, rank: Id -> nat, e: Event)
    requires Inv(s, rank) && Enabled(s, rank, e)
    ensures Measure(Apply(s, rank, e)) < Measure(s)
  {
    hide GraphInv, JobsInv, CountInv, PcInv, Sound, Bounded, Mark, Make, Report, Release, DoSearch, Moved, Work, Pending, PcRank;
    match e {
      case Finish(n, r) => ReportShrinks(s, n, r);
      case End(n) => ReleaseShrinks(s, rank, n);
      case Step(u) =>
        match s.pc {
          case Searching => SearchShrinks(s, rank);
          case Searched(Some(n), t) => MarkShrinks(s, rank, n, t);
          case Marked(n, t) => MakeShrinks(s, rank, n, t, u);
          case Made(n) => MadeShrinks(s, n);
          case Counted(n) => StartShrinks(s, rank, n);
          case _ => MovedShrinks(s);
        }
    }
  }

  lemma ReportShrinks(s: System, n: Id, result: int)
    requires n in s.workers && s.workers[n].Running? && s.running > 0
    ensures Measure(Report(s, n, result)) < Measure(s)
  {
    var w := s.workers[n := Reported(result)];
    assert w.Keys == s.workers.Keys;
    assert Unreported(s.workers) == Unreported(w) + {n};
  }

  lemma ReleaseShrinks(s: System, rank: Id -> nat, n: Id)
    requires Inv(s, rank) && n in s.workers && s.workers[n].Reported? && n in s.g
    ensures Measure(Release(s, n)) < Measure(s)
  {
    hide Inv, Work, Pending, Release;
    AtWorkerTaken(s, rank, n);
    ReleaseWork(s, n);
    ReleasePending(s, n);
  }

  lemma AtWorkerTaken(s: System, rank: Id -> nat, n: Id)
    requires Inv(s, rank) && n in s.workers
    ensures n in s.g && Level(s.g[n].status) >= 2
  {
    hide GraphInv, CountInv, PcInv, AreFailed, Accounted, AtDispatcher, StartedOnce;
  }

  lemma ReleaseWork(s: System, n: Id)
    requires n in s.workers && s.workers[n].Reported? && n in s.g && Level(s.g[n].status) >= 2
    ensures Work(Release(s, n).g) == Work(s.g)
  {
    hide Work, SetStatus, NodeWork;
    WorkSet(s.g, n, Built);
    TakenWorkless(s.g, n);
  }

  lemma ReleasePending(s: System, n: Id)
    requires n in s.workers && s.workers[n].Reported? && n in s.g
    ensures Pending(Release(s, n)) == Pending(s) - 1
  {
    hide SetStatus, Unreported;
    OneWorkerLess(s.workers, n);
  }

  lemma TakenWorkless(g: Graph, n: Id)
    requires n in g && Level(g[n].status) >= 2
    ensures NodeWork(g[n]) == 0
  {
  }

  lemma OneWorkerLess(w: map<Id, Phase>, n: Id)
    requires n in w && w[n].Reported?
    ensures |w - {n}| == |w| - 1 && Unreported(w - {n}) == Unreported(w)
  {
    assert (w - {n}).Keys == w.Keys - {n};
  }

  lemma SearchShrinks(s: System, rank: Id -> nat)
    requires Inv(s, rank) && s.pc.Searching?
    ensures s.root.Some? && s.root.value in s.g && Measure(DoSearch(s, rank)) < Measure(s)
  {
    hide GraphInv, PcInv, JobsInv, CountInv, DoSearch, Work, Sound, Bounded;
    SearchingFacts(s, rank);
    InvSound(s, rank);
    SearchGoes(s, rank);
    SearchWork(s, rank);
  }

  lemma InvSound(s: System, rank: Id -> nat)
    requires GraphInv(s, rank)
    ensures Sound(s.g, rank) && Bounded(s.g, rank, s.next)
  {
    hide Sound, Bounded;
  }

  lemma SearchWork(s: System, rank: Id -> nat)
    requires Sound(s.g, rank) && Bounded(s.g, rank, s.next) && s.root.Some? && s.root.value in s.g
    ensures var s' := DoSearch(s, rank); Work(s'.g) == Work(s.g) && s'.workers == s.workers
  {
    hide Sound, Bounded, Find, Expand, Lacks, FilesOf, Work, Expandable, Acyclic;
    SoundAcyclic(s.g, rank);
    SearchWithin(s.g, rank, s.root.value, None, s.needToWait);
    var r := Find(s.g, rank, s.root.value, None, s.needToWait);
    if r.node.Some? && s.g[r.node.value].kind.Target? && s.g[r.node.value].status == Pristine {
      IsExpandable(s.g, rank, s.next, r.node.value);
      WorkExpand(s.g, rank, s.next, r.node.value);
    }
  }

  lemma MarkShrinks(s: System, rank: Id -> nat, n: Id, t: Option<Id>)
    requires Inv(s, rank) && s.pc == Searched(Some(n), t)
    ensures n in s.g && Measure(Mark(s, n, t)) < Measure(s)
  {
    hide GraphInv, JobsInv, CountInv, Work, SetStatus;
    WorkSet(s.g, n, Building);
  }

  lemma MakeShrinks(s: System, rank: Id -> nat, n: Id, t: Option<Id>, u: bool)
    requires Inv(s, rank) && s.pc == Marked(n, t)
    ensures n in s.g && (s.g[n].kind == Target(true) ==> t.Some? && t.value in s.g) && Measure(Make(s, n, t, u)) < Measure(s)
  {
    hide GraphInv, JobsInv, CountInv, PcInv, Work, SetStatus, NodeWork, Unreported;
    MarkedFacts(s, rank, n, t);
    TakenWorkless(s.g, n);
    WorkSet(s.g, n, Building);
    WorkSet(s.g, n, Built);
  }

  lemma MadeShrinks(s: System, n: Id)
    requires s.pc == Made(n)
    ensures Measure(s.(running := s.running + 1, pc := Counted(n))) < Measure(s)
  {
    hide Work;
  }

  lemma StartShrinks(s: System, rank: Id -> nat, n: Id)
    requires Inv(s, rank) && s.pc == Counted(n)
    ensures Measure(s.(workers := s.workers[n := Running], started := s.started + [n], pc := Top)) < Measure(s)
  {
    hide GraphInv, CountInv, PcInv, AtWorkers, AreFailed, Accounted, StartedOnce, Work;
    OneMoreWorker(s.workers, n);
  }

  lemma OneMoreWorker(w: map<Id, Phase>, n: Id)
    requires n !in w
    ensures |w[n := Running]| == |w| + 1 && |Unreported(w[n := Running])| == |Unreported(w)| + 1
  {
    assert w[n := Running].Keys == w.Keys + {n};
    assert Unreported(w[n := Running]) == Unreported(w) + {n};
  }

  lemma MovedShrinks(s: System)
    requires CanDispatch(s) && Moves(s.pc)
    ensures Measure(Moved(s)) < Measure(s)
  {
    hide Work;
  }

  /** Every run ends: it has at most this many events, whatever the workers do. */
  lemma {:induction false} RunBound(t: seq<System>, es: seq<Event>, rank: Id -> nat, i: nat)
    requires IsRun(t, es, rank) && i < |t|
    ensures i + Measure(t[i]) <= 84 * Work(t[0].g) + 20
    decreases i
  {
    hide Initial, Enabled, Apply, Measure, Inv;
    if i == 0 {
      FirstMeasure(t[0], rank);
    } else {
      RunBound(t, es, rank, i - 1);
      RunKeeps(t, es, rank, i - 1);
      assert Enabled(t[i - 1], rank, es[i - 1]);
      StepShrinks(t[i - 1], rank, es[i - 1]);
    }
  }

  lemma FirstMeasure(s: System, rank: Id -> nat)
    requires Initial(s, rank)
    ensures Measure(s) == 84 * Work(s.g) + 20
  {
    hide Work, Sound, Bounded;
    assert Unreported(s.workers) == {};
  }

  /** No run goes on for ever. One that cannot go on is over, or waits with no worker left; it is
      over with an exception only if some dependency is unknown; and with a job slot it can only
      be stuck in the wait for a change of the tree, after a failure or a change. */
  lemma BuildEnds(t: seq<System>, es: seq<Event>, rank: Id -> nat)
    requires IsRun(t, es, rank)
    ensures |es| <= 84 * Work(t[0].g) + 20
    ensures var s := t[|es|];
      && ((forall e :: !Enabled(s, rank, e)) <==> s.workers == map[] && (Over(s) || Forgotten(s)))
      && (s.pc.Thrown? ==> SomeLacks(s.g))
      && (Forgotten(s) && s.max > 0 ==> s.pc.WaitTree? && (s.treeChanged || s.hasFail))
  {
    hide Inv, Enabled, Initial, Apply, Measure, Work;
    RunBound(t, es, rank, |es|);
    RunKeeps(t, es, rank, |es|);
    var s := t[|es|];
    StuckIff(s, rank);
    if s.workers == map[] {
      if Over(s) { NobodyActs(s, rank); }
    } else {
      var n :| n in s.workers;
      WorkerActs(s, rank, n);
    }
    EndFacts(s, rank);
  }

  lemma EndFacts(s: System, rank: Id -> nat)
    requires Inv(s, rank)
    ensures s.pc.Thrown? ==> SomeLacks(s.g)
    ensures Forgotten(s) && s.max > 0 ==> s.pc.WaitTree? && (s.treeChanged || s.hasFail)
  {
    hide Sound, Bounded, JobsInv, Results, SomeFailed, FailuresKept, Taken, FilesLater, AllTaken, SomeLeft, SomeLacks;
    NoWorkers(s);
  }
}
