/** Which nodes get a job, in every run: a node is built by its own job, unless its output was found
    to be up to date; and after a failure at most one more job is started. */
module SchJobs {
  import opened Common
  import opened SchTree
  import opened SchSearch
  import opened SchExpand
  import opened SchSystem
  import opened SchSafety
  import opened SchProgress

  // ------------------------------------------------------------- why a node is built

  /** Its job has been started and has reported success. */
  ghost predicate ByJob(s: System, n: Id) {
    n in s.started && n in s.results && s.results[n] == 0
  }

  /** The dispatching thread had a job to make for the node, and its output was up to date. */
  ghost predicate FoundUpToDate(s: System, e: Event, n: Id) {
    e == Step(true) && s.pc.Marked? && s.pc.node == n && n in s.g && !s.g[n].kind.Hook?
  }

  ghost predicate IsBuilt(s: System, n: Id) {
    n in s.g && s.g[n].status == Built
  }

  /** The nodes of files start from the beginning. */
  lemma ExpandNew(g: Graph, rank: Id -> nat, n: Id, next: Id, m: Id)
    requires n in g && next > n && Bounded(g, rank, next)
    ensures m !in g && m in Expand(g, n, next) ==> Expand(g, n, next)[m].status == Pristine
  {
    PopulatedAt(g, n, next, |FilesOf(g[n])|);
  }

  lemma SearchBuilds(s: System, rank: Id -> nat, n: Id)
    requires Sound(s.g, rank) && Bounded(s.g, rank, s.next) && s.root.Some? && s.root.value in s.g
    ensures IsBuilt(DoSearch(s, rank), n) ==> IsBuilt(s, n)
  {
    hide Sound, Bounded, Find, Lacks, Expand, FilesOf;
    SoundAcyclic(s.g, rank);
    SearchWithin(s.g, rank, s.root.value, None, s.needToWait);
    var r := Find(s.g, rank, s.root.value, None, s.needToWait);
    if r.node.Some? && s.g[r.node.value].kind.Target? && s.g[r.node.value].status == Pristine {
      ExpandAt(s.g, rank, s.next, r.node.value);
      ExpandNew(s.g, rank, r.node.value, s.next, n);
    }
  }

  lemma SearchForgets(s: System, rank: Id -> nat)
    requires Sound(s.g, rank) && Bounded(s.g, rank, s.next) && s.root.Some? && s.root.value in s.g
    ensures var s' := DoSearch(s, rank);
      s'.started == s.started && s'.results == s.results && s'.errorOccured == s.errorOccured && (s'.pc.Searched? || s'.pc.Thrown?)
  {
    hide Sound, Bounded, Find, Lacks, Expand, FilesOf, Result, Acyclic;
    SoundAcyclic(s.g, rank);
    SearchWithin(s.g, rank, s.root.value, None, s.needToWait);
  }

  lemma ReleaseBuilds(s: System, k: Id, n: Id)
    requires k in s.workers && s.workers[k].Reported? && k in s.g && Results(s.results, s.started, s.workers)
    ensures IsBuilt(Release(s, k), n) ==> IsBuilt(s, n) || ByJob(s, n)
  {
    hide Unreported;
  }

  lemma InvSearches(s: System, rank: Id -> nat)
    requires Inv(s, rank) && s.pc.Searching?
    ensures Sound(s.g, rank) && Bounded(s.g, rank, s.next) && s.root.Some? && s.root.value in s.g
  {
    hide Sound, Bounded;
  }

  lemma InvResults(s: System, rank: Id -> nat)
    requires Inv(s, rank)
    ensures Results(s.results, s.started, s.workers)
  {
    hide GraphInv, PcInv, JobsInv, Results;
  }

  lemma MakeBuilds(s: System, m: Id, t: Option<Id>, u: bool, n: Id)
    requires m in s.g && (s.g[m].kind == Target(true) ==> t == Some(m)) && s.pc == Marked(m, t)
    ensures IsBuilt(Make(s, m, t, u), n) ==> IsBuilt(s, n) || FoundUpToDate(s, Step(u), n)
  {
  }

  /** What a step of the dispatching thread makes built, and that it forgets no job. */
  lemma DispatchBuilds(s: System, rank: Id -> nat, u: bool, n: Id)
    requires Inv(s, rank) && Enabled(s, rank, Step(u))
    ensures var s' := Dispatch(s, rank, u);
      && (IsBuilt(s', n) ==> IsBuilt(s, n) || FoundUpToDate(s, Step(u), n))
      && s'.results == s.results && s.started <= s'.started
  {
    hide Inv, Sound, Bounded, DoSearch, IsBuilt, FoundUpToDate, Make;
    match s.pc {
      case Searching => InvSearches(s, rank); SearchBuilds(s, rank, n); SearchForgets(s, rank);
      case Marked(m, t) => MarkedFacts(s, rank, m, t); MakeBuilds(s, m, t, u, n); MakeForgets(s, m, t, u);
      case _ => OtherBuilds(s, rank, u, n);
    }
  }

  lemma MakeForgets(s: System, m: Id, t: Option<Id>, u: bool)
    requires m in s.g && (s.g[m].kind == Target(true) ==> t == Some(m))
    ensures var s' := Make(s, m, t, u); s'.results == s.results && s'.started == s.started
  {
  }

  lemma OtherBuilds(s: System, rank: Id -> nat, u: bool, n: Id)
    requires Enabled(s, rank, Step(u)) && !s.pc.Searching? && !s.pc.Marked?
    ensures var s' := Dispatch(s, rank, u); (IsBuilt(s', n) ==> IsBuilt(s, n)) && s'.results == s.results && s.started <= s'.started
  {
    hide Sound, Bounded, NextPc, Moved;
    MovedKeeps(s);
  }

  lemma MovedKeeps(s: System)
    ensures var s' := Moved(s); s'.g == s.g && s'.results == s.results && s'.started == s.started && s'.errorOccured == s.errorOccured
  {
  }

  /** Only these two things make a node built. */
  lemma StepBuilds(s: System, rank: Id -> nat, e: Event, n: Id)
    requires Inv(s, rank) && Enabled(s, rank, e) && IsBuilt(Apply(s, rank, e), n)
    ensures IsBuilt(s, n) || ByJob(s, n) || FoundUpToDate(s, e, n)
  {
    hide Inv, Sound, Bounded, Dispatch, Release, ByJob, FoundUpToDate, Results;
    match e {
      case Finish(_, _) =>
      case End(k) => InvResults(s, rank); ReleaseBuilds(s, k, n);
      case Step(u) => DispatchBuilds(s, rank, u, n);
    }
  }

  /** A result stays. */
  lemma JobStays(s: System, rank: Id -> nat, e: Event, n: Id)
    requires Inv(s, rank) && Enabled(s, rank, e) && ByJob(s, n)
    ensures ByJob(Apply(s, rank, e), n)
  {
    hide Inv, Sound, Bounded, Dispatch;
    InvResults(s, rank);
    if e.Step? { DispatchBuilds(s, rank, e.upToDate, n); }
  }

  /** In every run a node is built because its own job was started and succeeded, or because it was
      found up to date at an earlier step, and then it is no hook. */
  lemma {:induction false} BuiltWhy(t: seq<System>, es: seq<Event>, rank: Id -> nat, i: nat, n: Id)
    requires IsRun(t, es, rank) && i < |t| && IsBuilt(t[i], n)
    ensures ByJob(t[i], n) || exists k :: 0 <= k < i && FoundUpToDate(t[k], es[k], n)
  {
    hide Inv, Enabled, Apply, ByJob, FoundUpToDate;
    if i > 0 {
      RunKeeps(t, es, rank, i - 1);
      assert Enabled(t[i - 1], rank, es[i - 1]);
      StepBuilds(t[i - 1], rank, es[i - 1], n);
      if IsBuilt(t[i - 1], n) { BuiltWhy(t, es, rank, i - 1, n); }
      if ByJob(t[i - 1], n) { JobStays(t[i - 1], rank, es[i - 1], n); }
    }
  }

  /** A build that ends with success, and was not ended by a change of the tree, has built everything
      under its root by the node's own job, or found it up to date. */
  lemma WholeBuild(t: seq<System>, es: seq<Event>, rank: Id -> nat, i: nat, m: Id)
    requires IsRun(t, es, rank) && i < |t| && t[i].pc.Done? && t[i].pc.result && !t[i].pc.why.Changed? && t[i].root.Some?
    requires Sound(t[i].g, rank) && t[i].root.value in t[i].g && m in t[i].g && !t[i].g[m].kind.FakeRoot?
    requires Under(t[i].g, rank, t[i].root.value, m)
    ensures ByJob(t[i], m) || exists k :: 0 <= k < i && FoundUpToDate(t[k], es[k], m)
  {
    hide Sound, Under, Inv, IsRun, FoundUpToDate;
    CompleteBuild(t, es, rank, i);
    if IsBuilt(t[i], m) {
      BuiltWhy(t, es, rank, i, m);
    } else {
      RunKeeps(t, es, rank, i);
      InvResults(t[i], rank);
    }
  }

  // ------------------------------------------------------------- who is started

  /** The dispatching thread has a job for `n`, which is the next one to be started, or `n` has been
      started as job number `c`. */
  ghost predicate Promised(s: System, n: Id, c: nat) {
    if |s.started| == c then s.pc == Made(n) || s.pc == Counted(n) else |s.started| > c && s.started[c] == n
  }

  lemma MakesJob(s: System, rank: Id -> nat, u: bool)
    requires Inv(s, rank) && Enabled(s, rank, Step(u)) && s.pc.Marked?
    ensures s.pc.node in s.g
    ensures !u || s.g[s.pc.node].kind.Hook? ==> Promised(Apply(s, rank, Step(u)), s.pc.node, |s.started|)
    ensures u && !s.g[s.pc.node].kind.Hook? ==>
      var s' := Apply(s, rank, Step(u)); IsBuilt(s', s.pc.node) && s'.started == s.started && s'.pc == Create
  {
    hide GraphInv, JobsInv, CountInv, PcInv, Sound, Bounded;
    MarkedFacts(s, rank, s.pc.node, s.pc.owner);
  }

  /** Workers leave a job that is being made alone. */
  predicate Promises(pc': Pc, pc: Pc) {
    pc.Made? || pc.Counted? ==> pc' == pc
  }

  lemma PromiseStays(s: System, rank: Id -> nat, e: Event, n: Id, c: nat)
    requires Inv(s, rank) && Enabled(s, rank, e) && Promised(s, n, c)
    ensures Promised(Apply(s, rank, e), n, c)
  {
    hide Inv, Sound, Bounded, Dispatch, Report, Release;
    match e {
      case Step(u) => DispatchBuilds(s, rank, u, n); MadeGoes(s, rank, u);
      case Finish(m, r) => ReportAhead(s, m, r);
      case End(m) => ReleaseAhead(s, m);
    }
  }

  lemma MadeGoes(s: System, rank: Id -> nat, u: bool)
    requires Enabled(s, rank, Step(u))
    ensures s.pc.Made? ==> var s' := Dispatch(s, rank, u); s'.pc == Counted(s.pc.node) && s'.started == s.started
    ensures s.pc.Counted? ==> Dispatch(s, rank, u).started == s.started + [s.pc.node]
  {
    hide Sound, Bounded;
  }

  /** A node that the dispatching thread has taken, and whose output is not up to date, is the next
      one whose job is started; so is every hook. A run that cannot go on has started it. */
  lemma {:induction false} NextStarted(t: seq<System>, es: seq<Event>, rank: Id -> nat, k: nat, j: nat)
    requires IsRun(t, es, rank) && k < j < |t| && t[k].pc.Marked? && es[k].Step?
    requires t[k].pc.node in t[k].g && (es[k] == Step(false) || t[k].g[t[k].pc.node].kind.Hook?)
    ensures Promised(t[j], t[k].pc.node, |t[k].started|)
    ensures (forall e :: !Enabled(t[j], rank, e)) ==> |t[j].started| > |t[k].started| && t[j].started[|t[k].started|] == t[k].pc.node
    decreases j
  {
    hide Inv, Enabled, Apply, Initial;
    RunKeeps(t, es, rank, j - 1);
    assert Enabled(t[j - 1], rank, es[j - 1]) && t[j - 1 + 1] == Apply(t[j - 1], rank, es[j - 1]);
    if k == j - 1 {
      MakesJob(t[k], rank, es[k].upToDate);
    } else {
      NextStarted(t, es, rank, k, j - 1);
      PromiseStays(t[j - 1], rank, es[j - 1], t[k].pc.node, |t[k].started|);
    }
    RunKeeps(t, es, rank, j);
    if t[j].pc.Made? || t[j].pc.Counted? { StepEnabled(t[j], rank); }
  }

  // ------------------------------------------------------------- after a failure

  /** The dispatching thread may be on its way to starting a job. */
  function Ahead(pc: Pc): nat {
    match pc
    case Top => 0
    case WaitJobs(_) => 0
    case Checked => 0
    case NoJob(_) => 0
    case WaitAll(_, _) => 0
    case Done(_, _) => 0
    case Thrown => 0
    case _ => 1
  }

  lemma StepAfterError(s: System, rank: Id -> nat, e: Event)
    requires Enabled(s, rank, e) && s.errorOccured
    ensures var s' := Apply(s, rank, e); s'.errorOccured && |s'.started| + Ahead(s'.pc) <= |s.started| + Ahead(s.pc)
  {
    hide Sound, Bounded, Dispatch, Report, Release;
    match e {
      case Step(u) => DispatchAhead(s, rank, u);
      case Finish(n, r) => ReportAhead(s, n, r);
      case End(n) => ReleaseAhead(s, n);
    }
  }

  lemma DispatchAhead(s: System, rank: Id -> nat, u: bool)
    requires Enabled(s, rank, Step(u)) && s.errorOccured
    ensures var s' := Dispatch(s, rank, u); s'.errorOccured && |s'.started| + Ahead(s'.pc) <= |s.started| + Ahead(s.pc)
  {
    hide Sound, Bounded, DoSearch, Make, Mark, Moved;
    match s.pc {
      case Searching => SearchForgets(s, rank);
      case Searched(Some(n), t) => MarkAhead(s, n, t);
      case Marked(n, t) => MakeAhead(s, n, t, u);
      case Made(_) =>
      case Counted(_) =>
      case _ => MovedAhead(s);
    }
  }

  lemma ReportAhead(s: System, n: Id, result: int)
    requires s.running > 0
    ensures var s' := Report(s, n, result);
      s'.started == s.started && (s.errorOccured ==> s'.errorOccured) && Ahead(s'.pc) == Ahead(s.pc) && Promises(s'.pc, s.pc)
  {
  }

  lemma ReleaseAhead(s: System, n: Id)
    requires n in s.workers && s.workers[n].Reported? && n in s.g
    ensures var s' := Release(s, n);
      s'.started == s.started && s'.errorOccured == s.errorOccured && Ahead(s'.pc) == Ahead(s.pc) && Promises(s'.pc, s.pc)
  {
  }

  lemma MarkAhead(s: System, n: Id, t: Option<Id>)
    requires n in s.g
    ensures var s' := Mark(s, n, t); s'.started == s.started && s'.errorOccured == s.errorOccured && Ahead(s'.pc) == 1
  {
  }

  lemma MakeAhead(s: System, n: Id, t: Option<Id>, u: bool)
    requires n in s.g && (s.g[n].kind == Target(true) ==> t.Some? && t.value in s.g)
    ensures var s' := Make(s, n, t, u); s'.started == s.started && s'.errorOccured == s.errorOccured && Ahead(s'.pc) == 1
  {
  }

  lemma MovedAhead(s: System)
    requires s.errorOccured
    ensures var s' := Moved(s); s'.started == s.started && s'.errorOccured && Ahead(s'.pc) <= Ahead(s.pc)
  {
  }

  /** Once a job has reported a failure at most one more is started, and none if the dispatching
      thread is not searching for one or making it at that time. */
  lemma {:induction false} ErrorStops(t: seq<System>, es: seq<Event>, rank: Id -> nat, i: nat, j: nat)
    requires IsRun(t, es, rank) && i <= j < |t| && t[i].errorOccured
    ensures t[j].errorOccured && |t[j].started| + Ahead(t[j].pc) <= |t[i].started| + Ahead(t[i].pc)
    ensures |t[j].started| <= |t[i].started| + 1
    decreases j
  {
    hide Enabled, Apply, Initial;
    if i < j {
      ErrorStops(t, es, rank, i, j - 1);
      assert Enabled(t[j - 1], rank, es[j - 1]) && t[j - 1 + 1] == Apply(t[j - 1], rank, es[j - 1]);
      StepAfterError(t[j - 1], rank, es[j - 1]);
    }
  }
}
