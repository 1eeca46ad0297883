/** Four runs with surprising results. */
module SchRuns {
  import opened Common
  import opened SchTree
  import opened SchSearch
  import opened SchExpand
  import opened SchSystem
  import opened SchSafety
  import opened SchProgress

  // ------------------------------------------------------------- the states of runs

  ghost predicate RunTo(t: seq<System>, es: seq<Event>, rank: Id -> nat, s: System) {
    IsRun(t, es, rank) && t[|es|] == s
  }

  /** Some run leads to `s`. */
  ghost predicate Reached(s: System, rank: Id -> nat) {
    exists t, es :: RunTo(t, es, rank, s)
  }

  lemma ReachedFirst(s: System, rank: Id -> nat)
    requires Initial(s, rank)
    ensures Reached(s, rank)
  {
    hide Initial;
    assert RunTo([s], [], rank, s);
  }

  lemma ReachedNext(s: System, rank: Id -> nat, e: Event)
    requires Reached(s, rank) && Enabled(s, rank, e)
    ensures Reached(Apply(s, rank, e), rank)
  {
    hide Initial, Enabled, Apply;
    var t, es :| RunTo(t, es, rank, s);
    var t', es' := t + [Apply(s, rank, e)], es + [e];
    forall i | 0 <= i < |es'| ensures Enabled(t'[i], rank, es'[i]) && t'[i + 1] == Apply(t'[i], rank, es'[i]) {
      assert i < |es| ==> es'[i] == es[i] && t'[i] == t[i] && t'[i + 1] == t[i + 1];
    }
    assert RunTo(t', es', rank, Apply(s, rank, e));
  }

  lemma ReachedSound(s: System, rank: Id -> nat)
    requires Reached(s, rank)
    ensures Sound(s.g, rank) && Bounded(s.g, rank, s.next)
  {
    hide Sound, Bounded, Initial, Enabled, Apply, JobsInv, CountInv, PcInv;
    var t, es :| RunTo(t, es, rank, s);
    RunKeeps(t, es, rank, |es|);
  }

  /** One step of the dispatching thread; outputs are never up to date. */
  lemma Go(s: System, rank: Id -> nat)
    requires Reached(s, rank) && CanDispatch(s)
    ensures Sound(s.g, rank) && Bounded(s.g, rank, s.next) && Reached(Dispatch(s, rank, false), rank)
  {
    hide Reached, Sound, Bounded, Dispatch, CanDispatch;
    ReachedSound(s, rank);
    ReachedNext(s, rank, Step(false));
  }

  // ------------------------------------------------------------- parts of a run

  /** From the top of the loop to a search. */
  lemma ToSearch(s: System, rank: Id -> nat)
    requires Reached(s, rank) && s.pc.Top? && !s.errorOccured && s.running < s.max && s.root.Some?
    ensures Reached(s.(treeChanged := false, needToWait := false, pc := Searching), rank)
  {
    hide Reached, Sound, Bounded;
    Go(s, rank);
    Go(s.(pc := Checked), rank);
    Go(s.(pc := Create), rank);
  }

  /** From a file that has been found to its worker. */
  lemma ToWorker(s: System, rank: Id -> nat, n: Id, t: Option<Id>)
    requires Reached(s, rank) && s.pc == Searched(Some(n), t) && n in s.g && s.g[n].kind.File?
    ensures Reached(s.(g := SetStatus(s.g, n, Building), processed := s.processed + 1, running := s.running + 1,
                       workers := s.workers[n := Running], started := s.started + [n], pc := Top), rank)
  {
    hide Reached, Sound, Bounded;
    Go(s, rank);
    var s1 := Mark(s, n, t);
    Go(s1, rank);
    assert Make(s1, n, t, false) == s1.(pc := Made(n));
    var s2 := s1.(pc := Made(n));
    Go(s2, rank);
    Go(s2.(running := s2.running + 1, pc := Counted(n)), rank);
  }

  // ------------------------------------------------------------- the hook with the wrong target

  /** The forest of `Misled` before the build: target 1 is not expanded. */
  ghost function Asked(): Graph {
    map[0 := Node("app", Target(false), Pristine, [1, 2], [Known(1)], ["main.cpp"]),
        1 := Node("lib", Target(false), Pristine, [], [], ["lib.cpp"]),
        2 := Node("<hook>", Hook, Pristine, [], [], [])]
  }

  ghost function Opened(): Graph {
    Asked()[1 := Node("lib", Target(false), Expanded, [3], [], ["lib.cpp"])][3 := FileNode("lib.cpp")]
  }

  /** A build with two job slots that starts on `g`. */
  ghost function Start(g: Graph, next: Id): System {
    System(g, next, Some(0), false, false, 0, false, 0, 2, false, Top, map[], [], map[], {})
  }

  lemma AskedSound()
    ensures Sound(Asked(), MisledRank) && Bounded(Asked(), MisledRank, 3)
  {
    hide Shaped, InOrder;
    var g := Asked();
    forall n | n in g ensures ChildrenOk(g, MisledRank, n) && Shaped(g, g[n]) && InOrder(g, g[n]) { AskedNode(n); }
    forall p, c | Own(g, p, c) ensures p == 0 { }
  }

  lemma AskedNode(n: Id)
    requires n in Asked()
    ensures ChildrenOk(Asked(), MisledRank, n) && Shaped(Asked(), Asked()[n]) && InOrder(Asked(), Asked()[n])
  {
    if n == 0 { assert Asked()[n].children == [1, 2]; }
  }

  lemma AskedFind()
    requires Acyclic(Asked(), MisledRank)
    ensures Find(Asked(), MisledRank, 0, None, false) == Search(Some(1), Some(1), false)
  {
    assert Find(Asked(), MisledRank, 1, Some(0), false) == Search(Some(1), Some(1), false);
  }

  lemma OpenedFind()
    requires Acyclic(Opened(), MisledRank)
    ensures Find(Opened(), MisledRank, 1, Some(1), false) == Search(Some(3), Some(1), false)
  {
    assert Find(Opened(), MisledRank, 3, Some(1), false) == Search(Some(3), Some(1), false);
  }

  /** The first search expands target 1 and finds its file. */
  lemma AskedSearch(s: System)
    requires s == Start(Asked(), 3).(pc := Searching) && Sound(s.g, MisledRank) && Bounded(s.g, MisledRank, s.next)
    ensures DoSearch(s, MisledRank) == s.(g := Opened(), next := 4, pc := Searched(Some(3), Some(1)))
  {
    hide Sound, Bounded, Find, Acyclic, Expand;
    SoundAcyclic(Asked(), MisledRank);
    AskedFind();
    IsExpandable(Asked(), MisledRank, 3, 1);
    ExpandSound(Asked(), MisledRank, 3, 1);
    AskedExpand();
    SoundAcyclic(Opened(), MisledRank);
    OpenedFind();
  }

  lemma AskedExpand()
    ensures Expand(Asked(), 1, 3) == Opened()
  {
    PopulatedAt(Asked(), 1, 3, 1);
    assert Numbers(3, 1) == [3];
  }

  /** Where the second search of the run has just ended. */
  ghost function Astray(): System {
    System(Misled(), 4, Some(0), true, false, 1, false, 1, 2, false, Searched(Some(2), Some(1)), map[3 := Running], [3], map[], {})
  }

  /** A build leads to the forest in which the hook of target 0 is reported with target 1. */
  lemma MisledReached()
    ensures Reached(Astray(), MisledRank)
  {
    hide Reached, Sound, Bounded, Asked, Opened, Misled;
    var s := Start(Asked(), 3);
    AskedSound();
    AskedPristine();
    ReachedFirst(s, MisledRank);
    ToSearch(s, MisledRank);
    s := s.(pc := Searching);
    Go(s, MisledRank);
    AskedSearch(s);
    s := s.(g := Opened(), next := 4, pc := Searched(Some(3), Some(1)));
    OpenedMisled();
    ToWorker(s, MisledRank, 3, Some(1));
    assert [] + [3] == [3] && map[][3 := Running] == map[3 := Running];
    s := Start(Misled(), 4).(processed := 1, running := 1, workers := map[3 := Running], started := [3]);
    ToSearch(s, MisledRank);
    s := s.(pc := Searching);
    Go(s, MisledRank);
    HookMisreported();
    assert DoSearch(s, MisledRank) == Astray();
  }

  lemma AskedPristine()
    ensures 0 in Asked() && Asked()[0].kind.Target? && forall n :: n in Asked() ==> Asked()[n].status == Pristine
  {
  }

  lemma OpenedMisled()
    ensures 3 in Opened() && Opened()[3].kind.File? && SetStatus(Opened(), 3, Building) == Misled()
    ensures 0 in Misled() && 2 in Misled() && Misled()[2].kind.Hook?
  {
  }

  // ------------------------------------------------------------- success with work left

  /** One target with one file, which is not expanded, or whose file has reached a status. */
  ghost function Lone(): Graph {
    map[0 := Node("app", Target(false), Pristine, [], [], ["main.cpp"])]
  }

  ghost function LoneWith(st: Status): Graph {
    map[0 := Node("app", Target(false), Expanded, [1], [], ["main.cpp"]), 1 := Node("main.cpp", File, st, [], [], [])]
  }

  ghost function LoneRank(n: Id): nat {
    if n == 0 then 1 else 0
  }

  lemma LoneSound()
    ensures Sound(Lone(), LoneRank) && Bounded(Lone(), LoneRank, 1)
    ensures 0 in Lone() && Lone()[0].kind.Target? && forall n :: n in Lone() ==> Lone()[n].status == Pristine
  {
  }

  lemma LoneExpand()
    ensures Expand(Lone(), 0, 1) == LoneWith(Pristine) && SetStatus(LoneWith(Pristine), 1, Building) == LoneWith(Building)
    ensures SetStatus(LoneWith(Building), 1, Built) == LoneWith(Built)
    ensures 1 in LoneWith(Pristine) && LoneWith(Pristine)[1].kind.File? && 0 in LoneWith(Building) && 1 in LoneWith(Building)
  {
    hide Expand;
    LoneExpanded();
  }

  lemma LoneExpanded()
    ensures Expand(Lone(), 0, 1) == LoneWith(Pristine)
  {
    hide Populated;
    PopulatedAt(Lone(), 0, 1, 1);
    assert Numbers(1, 1) == [1];
    assert Populated(Lone(), 0, 1, 1).Keys == LoneWith(Pristine).Keys;
  }

  /** The first search expands the target and finds its file. */
  lemma LoneSearch(s: System)
    requires s == Start(Lone(), 1).(pc := Searching) && Sound(s.g, LoneRank) && Bounded(s.g, LoneRank, s.next)
    ensures DoSearch(s, LoneRank) == s.(g := LoneWith(Pristine), next := 2, pc := Searched(Some(1), Some(0)))
  {
    hide Sound, Bounded;
    SoundAcyclic(s.g, LoneRank);
    assert Find(s.g, LoneRank, 0, None, false) == Search(Some(0), Some(0), false);
    ExpandSound(s.g, LoneRank, 1, 0);
    LoneExpand();
    SoundAcyclic(LoneWith(Pristine), LoneRank);
    assert Find(LoneWith(Pristine), LoneRank, 1, Some(0), false) == Search(Some(1), Some(0), false);
    assert Find(LoneWith(Pristine), LoneRank, 0, Some(0), false) == Search(Some(1), Some(0), false);
  }

  /** The second search waits for the file. */
  lemma LoneWaits(s: System)
    requires s.g == LoneWith(Building) && s.root == Some(0) && s.pc == Searching && !s.needToWait
    requires Sound(s.g, LoneRank) && Bounded(s.g, LoneRank, s.next)
    ensures DoSearch(s, LoneRank) == s.(needToWait := true, pc := Searched(None, Some(0)))
  {
    hide Sound, Bounded;
    SoundAcyclic(s.g, LoneRank);
    assert Scan(s.g, LoneRank, 0, 1, Some(0), false, true, false) == Search(None, Some(0), true);
    assert Find(s.g, LoneRank, 0, None, false) == Search(None, Some(0), true);
  }

  /** The file is being compiled. */
  ghost function Busy(): System {
    System(LoneWith(Building), 2, Some(0), false, false, 1, false, 1, 2, false, Top, map[1 := Running], [1], map[], {})
  }

  lemma BusyReached()
    ensures Reached(Busy(), LoneRank)
  {
    hide Reached, Sound, Bounded, Lone, LoneWith;
    var s := Start(Lone(), 1);
    LoneSound();
    ReachedFirst(s, LoneRank);
    ToSearch(s, LoneRank);
    s := s.(pc := Searching);
    Go(s, LoneRank);
    LoneSearch(s);
    LoneExpand();
    s := s.(g := LoneWith(Pristine), next := 2, pc := Searched(Some(1), Some(0)));
    ToWorker(s, LoneRank, 1, Some(0));
    assert [] + [1] == [1] && map[][1 := Running] == map[1 := Running];
  }

  /** While it is, a search has found nothing. */
  ghost function Idle(): System {
    Busy().(needToWait := true, pc := Searched(None, Some(0)))
  }

  lemma IdleReached()
    ensures Reached(Idle(), LoneRank)
  {
    hide Reached, Sound, Bounded, LoneWith;
    BusyReached();
    ToSearch(Busy(), LoneRank);
    var s := Busy().(pc := Searching);
    LoneExpand();
    Go(s, LoneRank);
    LoneWaits(s);
  }

  /** The end of the only job, from report to release. */
  lemma JobEnds(s: System, result: int)
    requires Reached(s, LoneRank) && s.g == LoneWith(Building) && s.workers == map[1 := Running] && s.running == 1
    ensures 1 in Report(s, 1, result).workers && 1 in s.g && Reached(Release(Report(s, 1, result), 1), LoneRank)
  {
    hide Reached, Sound, Bounded, LoneWith;
    LoneExpand();
    ReachedSound(s, LoneRank);
    ReachedNext(s, LoneRank, Finish(1, result));
    var s1 := Report(s, 1, result);
    ReachedSound(s1, LoneRank);
    ReachedNext(s1, LoneRank, End(1));
  }

  /** The state in which the build has returned true. */
  ghost function Early(): System {
    System(LoneWith(Built), 2, Some(0), true, true, 1, false, 0, 2, false, Done(true, Changed), map[], [1], map[1 := 0], {})
  }

  lemma LoneReady()
    ensures Ready(LoneWith(Built), 0)
  {
  }

  /** If the only job ends between the search that found its node still being built and the test
      for a change of the tree, no further job is asked for: the build returns true although its
      only target, expanded and with its file built, has never been started. */
  lemma EndsEarly()
    ensures Reached(Early(), LoneRank) && Early().pc == Done(true, Changed)
    ensures Ready(Early().g, 0) && Early().root == Some(0) && 0 !in Early().started
  {
    hide Reached, Sound, Bounded, LoneWith;
    IdleReached();
    JobEnds(Idle(), 0);
    LoneExpand();
    var s := Early().(pc := Searched(None, Some(0)));
    assert Release(Report(Idle(), 1, 0), 1) == s;
    Go(s, LoneRank);
    Go(s.(pc := NoJob(Changed)), LoneRank);
    LoneReady();
  }

  /** The state in which the build waits for a change that has happened. */
  ghost function Missed(): System {
    Early().(pc := WaitTree(false))
  }

  /** If it ends between that test and the beginning of the wait, nobody wakes the dispatching
      thread: the build is stuck, although no job has failed. */
  lemma GetsStuck()
    ensures Reached(Missed(), LoneRank) && Stuck(Missed(), LoneRank)
    ensures Ready(Missed().g, 0) && Missed().root == Some(0) && 0 !in Missed().started && !Missed().errorOccured
  {
    hide Reached, Sound, Bounded, LoneWith, Stuck;
    IdleReached();
    LoneExpand();
    Go(Idle(), LoneRank);
    var s := Idle().(pc := BeforeWait);
    JobEnds(s, 0);
    var s1 := Early().(pc := BeforeWait);
    assert Release(Report(s, 1, 0), 1) == s1;
    Go(s1, LoneRank);
    ReachedStuck(Missed(), LoneRank);
    LoneReady();
  }

  lemma ReachedStuck(s: System, rank: Id -> nat)
    requires Reached(s, rank)
    ensures Stuck(s, rank) <==> Forgotten(s)
  {
    hide Inv, Stuck, Initial, Enabled, Apply;
    var t, es :| RunTo(t, es, rank, s);
    RunKeeps(t, es, rank, |es|);
    StuckIff(s, rank);
  }

  /** The state in which the build waits for a failed job. */
  ghost function Dead(): System {
    System(LoneWith(Building), 2, Some(0), true, false, 1, true, 0, 2, true, WaitTree(false), map[], [1], map[1 := 1], {1})
  }

  /** Its job has ended just before the search starts. */
  lemma FailsFirst()
    ensures Reached(Dead().(needToWait := false, treeChanged := true, pc := Create), LoneRank)
  {
    hide Reached, Sound, Bounded, LoneWith;
    BusyReached();
    LoneExpand();
    Go(Busy(), LoneRank);
    Go(Busy().(pc := Checked), LoneRank);
    var s := Busy().(pc := Create);
    JobEnds(s, 1);
    assert Release(Report(s, 1, 1), 1) == Dead().(needToWait := false, treeChanged := true, pc := Create);
  }

  /** If the only job fails between the test for an error and the start of a search, the search
      finds its node still being built, and the build is stuck. */
  lemma FailsStuck()
    ensures Reached(Dead(), LoneRank) && Stuck(Dead(), LoneRank)
  {
    hide Reached, Sound, Bounded, LoneWith, Stuck;
    FailsFirst();
    LoneExpand();
    Go(Dead().(needToWait := false, treeChanged := true, pc := Create), LoneRank);
    var s := Dead().(needToWait := false, pc := Searching);
    Go(s, LoneRank);
    LoneWaits(s);
    Go(Dead().(pc := Searched(None, Some(0))), LoneRank);
    Go(Dead().(pc := BeforeWait), LoneRank);
    ReachedStuck(Dead(), LoneRank);
  }
}
