/** Incremental builds: whatever depends on a node that has been rebuilt is rebuilt, although its own
    output may look up to date. */
module SchRebuild {
  import opened Common
  import opened SchTree
  import opened SchSearch
  import opened SchExpand
  import opened SchSystem
  import opened SchSafety
  import opened SchJobs

  /** A job is made for the node at hand. */
  ghost predicate JobMade(s: System, e: Event) {
    s.pc.Marked? && s.pc.node in s.g && e.Step? && (!e.upToDate || s.g[s.pc.node].kind.Hook?)
  }

  ghost predicate AboveIn(g: Graph, rank: Id -> nat, p: Id, m: Id) {
    Acyclic(g, rank) && p in g && p != m && Under(g, rank, p, m)
  }

  /** All nodes above a node. */
  ghost function Above(g: Graph, rank: Id -> nat, m: Id): set<Id> {
    set p | p in g && AboveIn(g, rank, p, m)
  }

  /** The nodes that must be built, `shouldBuild`: those with new options at the start, `first`; what lies
      above a node, no hook, for which a job has been made; and the files of such a target that the tree
      gets when it is expanded. */
  ghost function MustBuild(t: seq<System>, es: seq<Event>, rank: Id -> nat, first: set<Id>, i: nat): set<Id>
    requires |t| == |es| + 1 && i < |t|
  {
    if i == 0 then first
    else
      var s, e, must := t[i - 1], es[i - 1], MustBuild(t, es, rank, first, i - 1);
      if JobMade(s, e) then (if s.g[s.pc.node].kind.Hook? then must else must + Above(s.g, rank, s.pc.node))
      else must + (set f | f in t[i].g.Keys - s.g.Keys && exists p :: p in must && p in t[i].g && f in t[i].g[p].children)
  }

  /** A node that must be built is never taken for up to date. */
  ghost predicate Heeds(t: seq<System>, es: seq<Event>, rank: Id -> nat, first: set<Id>)
    requires |t| == |es| + 1
  {
    forall i, n {:trigger FoundUpToDate(t[i], es[i], n)} :: 0 <= i < |es| && FoundUpToDate(t[i], es[i], n) ==>
      n !in MustBuild(t, es, rank, first, i)
  }

  // ------------------------------------------------------------- the tree only grows

  /** Nodes keep their kinds, new ones are files, and between old ones there are no new edges. */
  ghost predicate Grows(g: Graph, g': Graph) {
    && g.Keys <= g'.Keys
    && (forall n :: n in g ==> g'[n].kind == g[n].kind)
    && (forall n, c :: n in g && c in g && c in g'[n].children ==> c in g[n].children)
    && (forall n :: n in g' && n !in g ==> g'[n].kind.File?)
  }

  lemma GrowsTrans(a: Graph, b: Graph, c: Graph)
    requires Grows(a, b) && Grows(b, c)
    ensures Grows(a, c)
  {
    forall n, m | n in a && m in a && m in c[n].children ensures m in a[n].children { assert m in b[n].children; }
  }

  lemma ExpandGrows(g: Graph, rank: Id -> nat, n: Id, next: Id)
    requires n in g && next > n && Bounded(g, rank, next)
    ensures Grows(g, Expand(g, n, next))
  {
    PopulatedAt(g, n, next, |FilesOf(g[n])|);
  }

  lemma SearchGrows(s: System, rank: Id -> nat)
    requires Sound(s.g, rank) && Bounded(s.g, rank, s.next) && s.root.Some? && s.root.value in s.g
    ensures Grows(s.g, DoSearch(s, rank).g)
  {
    hide Sound, Bounded, Find, Lacks, Expand, FilesOf, Grows, Result, Acyclic;
    SoundAcyclic(s.g, rank);
    SameGrows(s.g);
    SearchWithin(s.g, rank, s.root.value, None, s.needToWait);
    var r := Find(s.g, rank, s.root.value, None, s.needToWait);
    if r.node.Some? && s.g[r.node.value].kind.Target? && s.g[r.node.value].status == Pristine {
      ExpandAt(s.g, rank, s.next, r.node.value);
      ExpandGrows(s.g, rank, r.node.value, s.next);
    }
  }

  lemma DispatchGrows(s: System, rank: Id -> nat, u: bool)
    requires Enabled(s, rank, Step(u))
    ensures Grows(s.g, Dispatch(s, rank, u).g)
  {
    hide Sound, Bounded, DoSearch, Grows, Mark, Make, Moved;
    SameGrows(s.g);
    match s.pc {
      case Searching => SearchGrows(s, rank);
      case Searched(Some(n), t) => MarkGrows(s, n, t);
      case Marked(n, t) => MakeGrows(s, n, t, u);
      case Made(_) =>
      case Counted(_) =>
      case _ => MovedKeeps(s);
    }
  }

  lemma MarkGrows(s: System, n: Id, t: Option<Id>)
    requires n in s.g
    ensures Grows(s.g, Mark(s, n, t).g)
  {
  }

  lemma MakeGrows(s: System, n: Id, t: Option<Id>, u: bool)
    requires n in s.g && (s.g[n].kind == Target(true) ==> t.Some? && t.value in s.g)
    ensures Grows(s.g, Make(s, n, t, u).g)
  {
  }

  lemma SetGrows(g: Graph, n: Id, st: Status)
    requires n in g
    ensures Grows(g, SetStatus(g, n, st))
  {
  }

  lemma SameGrows(g: Graph)
    ensures Grows(g, g)
  {
  }

  lemma StepGrows(s: System, rank: Id -> nat, e: Event)
    requires Enabled(s, rank, e)
    ensures Grows(s.g, Apply(s, rank, e).g)
  {
    hide Sound, Bounded, Dispatch, Grows;
    match e {
      case Step(u) => DispatchGrows(s, rank, u);
      case Finish(_, _) => SameGrows(s.g);
      case End(n) => SetGrows(s.g, n, Built); SameGrows(s.g);
    }
  }

  /** Along a run: the tree grows, and no node falls back. */
  lemma {:induction false} RunGrows(t: seq<System>, es: seq<Event>, rank: Id -> nat, a: nat, b: nat)
    requires IsRun(t, es, rank) && a <= b < |t|
    ensures Grows(t[a].g, t[b].g) && forall n :: n in t[a].g ==> Level(t[a].g[n].status) <= Level(t[b].g[n].status)
    decreases b
  {
    hide Grows, Inv, Initial, Enabled, Apply;
    if a == b {
      SameGrows(t[a].g);
    } else {
      RunGrows(t, es, rank, a, b - 1);
      RunKeeps(t, es, rank, b - 1);
      assert Enabled(t[b - 1], rank, es[b - 1]) && t[b - 1 + 1] == Apply(t[b - 1], rank, es[b - 1]);
      StepGrows(t[b - 1], rank, es[b - 1]);
      GrowsTrans(t[a].g, t[b - 1].g, t[b].g);
      GrowsIn(t[a].g, t[b - 1].g);
      forall n | n in t[a].g ensures n in t[b].g && Level(t[a].g[n].status) <= Level(t[b].g[n].status) {
        StepAdvances(t[b - 1], rank, es[b - 1], n);
      }
    }
  }

  lemma GrowsIn(g: Graph, g': Graph)
    requires Grows(g, g')
    ensures forall n :: n in g ==> n in g'
  {
  }

  /** What lies above an old node now has done so before. */
  lemma {:induction false} UnderBack(g: Graph, g': Graph, rank: Id -> nat, p: Id, m: Id)
    requires Acyclic(g, rank) && Sound(g', rank) && Grows(g, g') && m in g && p in g' && Under(g', rank, p, m)
    ensures p in g && Under(g, rank, p, m)
    decreases rank(p)
  {
    if p != m {
      var c :| c in g'[p].children && c in g' && rank(c) < rank(p) && Under(g', rank, c, m);
      UnderBack(g, g', rank, c, m);
      assert p in g by { assert Shaped(g', g'[p]); }
      assert c in g[p].children;
    }
  }

  // ------------------------------------------------------------- what must be built

  lemma {:induction false} MustStays(t: seq<System>, es: seq<Event>, rank: Id -> nat, first: set<Id>, a: nat, b: nat)
    requires |t| == |es| + 1 && a <= b < |t|
    ensures MustBuild(t, es, rank, first, a) <= MustBuild(t, es, rank, first, b)
    decreases b
  {
    if a < b { MustStays(t, es, rank, first, a, b - 1); }
  }

  /** Once a job has been made for a node, no hook, nothing above it is taken for up to date. */
  lemma RebuiltAbove(t: seq<System>, es: seq<Event>, rank: Id -> nat, first: set<Id>, a: nat, b: nat, p: Id)
    requires IsRun(t, es, rank) && Heeds(t, es, rank, first) && a < b < |es| && JobMade(t[a], es[a])
    requires var m := t[a].pc.node; !t[a].g[m].kind.Hook? && AboveIn(t[b].g, rank, p, m)
    ensures !FoundUpToDate(t[b], es[b], p)
  {
    hide FoundUpToDate, Enabled, Apply, Initial, MustBuild;
    AboveMust(t, es, rank, first, a, b, p);
  }

  lemma AboveMust(t: seq<System>, es: seq<Event>, rank: Id -> nat, first: set<Id>, a: nat, b: nat, p: Id)
    requires IsRun(t, es, rank) && a < b < |t| && JobMade(t[a], es[a])
    requires var m := t[a].pc.node; !t[a].g[m].kind.Hook? && AboveIn(t[b].g, rank, p, m)
    ensures p in MustBuild(t, es, rank, first, b)
  {
    hide Enabled, Apply, Initial;
    AboveBefore(t, es, rank, a, b, p, t[a].pc.node);
    assert p in MustBuild(t, es, rank, first, a + 1);
    MustStays(t, es, rank, first, a + 1, b);
  }

  lemma AboveBefore(t: seq<System>, es: seq<Event>, rank: Id -> nat, a: nat, b: nat, p: Id, m: Id)
    requires IsRun(t, es, rank) && a <= b < |t| && m in t[a].g && AboveIn(t[b].g, rank, p, m)
    ensures AboveIn(t[a].g, rank, p, m)
  {
    hide Enabled, Apply, Initial, Grows;
    RunKeeps(t, es, rank, a);
    RunKeeps(t, es, rank, b);
    InvSound(t[a], rank);
    InvSound(t[b], rank);
    RunGrows(t, es, rank, a, b);
    UnderBack(t[a].g, t[b].g, rank, p, m);
  }

  lemma InvSound(s: System, rank: Id -> nat)
    requires Inv(s, rank)
    ensures Sound(s.g, rank)
  {
    hide Sound, Bounded;
  }

  lemma NotStarted(t: seq<System>, es: seq<Event>, rank: Id -> nat, a: nat, p: Id, m: Id)
    requires IsRun(t, es, rank) && a < |t| && t[a].pc.Marked? && t[a].pc.node == m && AboveIn(t[a].g, rank, p, m)
    ensures p in t[a].g && Level(t[a].g[p].status) < 2
  {
    hide Enabled, Apply, Initial, Sound;
    RunKeeps(t, es, rank, a);
    InvSound(t[a], rank);
    MarkedFacts(t[a], rank, m, t[a].pc.owner);
    if Level(t[a].g[p].status) >= 2 { AllBuilt(t[a].g, rank, p, m); }
  }

  lemma UpToDateTaken(t: seq<System>, es: seq<Event>, rank: Id -> nat, k: nat, p: Id)
    requires IsRun(t, es, rank) && k < |es| && FoundUpToDate(t[k], es[k], p)
    ensures p in t[k].g && Level(t[k].g[p].status) >= 2
  {
    hide Enabled, Apply, Initial, Inv;
    RunKeeps(t, es, rank, k);
    MarkedFacts(t[k], rank, p, t[k].pc.owner);
  }

  /** What lies above a node for which a job has been made, and is built, has been built by its own job. */
  lemma RebuiltByJob(t: seq<System>, es: seq<Event>, rank: Id -> nat, first: set<Id>, a: nat, i: nat, p: Id)
    requires IsRun(t, es, rank) && Heeds(t, es, rank, first) && a < i < |t| && JobMade(t[a], es[a])
    requires var m := t[a].pc.node; !t[a].g[m].kind.Hook? && AboveIn(t[i].g, rank, p, m)
    requires IsBuilt(t[i], p)
    ensures ByJob(t[i], p)
  {
    hide ByJob, Enabled, Apply, Initial, Inv, Heeds, Grows;
    var m := t[a].pc.node;
    BuiltWhy(t, es, rank, i, p);
    if !ByJob(t[i], p) {
      var k :| 0 <= k < i && FoundUpToDate(t[k], es[k], p);
      AboveBefore(t, es, rank, a, i, p, m);
      NotStarted(t, es, rank, a, p, m);
      if k <= a {
        UpToDateTaken(t, es, rank, k, p);
        RunGrows(t, es, rank, k, a);
      } else {
        RunGrows(t, es, rank, a, k);
        GrowsIn(t[a].g, t[k].g);
        AboveBefore(t, es, rank, k, i, p, m);
        RebuiltAbove(t, es, rank, first, a, k, p);
      }
    }
  }

  /** The files that a target gets when it is expanded, after something below it has been rebuilt, are
      rebuilt too. */
  lemma FilesRebuilt(t: seq<System>, es: seq<Event>, rank: Id -> nat, first: set<Id>, a: nat, b: nat, c: nat, p: Id, f: Id)
    requires IsRun(t, es, rank) && Heeds(t, es, rank, first) && a < b < c < |es| && JobMade(t[a], es[a])
    requires var m := t[a].pc.node; !t[a].g[m].kind.Hook? && AboveIn(t[b].g, rank, p, m)
    requires p in t[b + 1].g && f in t[b + 1].g[p].children && f in t[b + 1].g && f !in t[b].g
    ensures !FoundUpToDate(t[c], es[c], f)
  {
    hide FoundUpToDate, Enabled, Apply, Initial, MustBuild, AboveIn, JobMade;
    AboveMust(t, es, rank, first, a, b, p);
    FileMust(t, es, rank, first, b, p, f);
    MustStays(t, es, rank, first, b + 1, c);
  }

  lemma FileMust(t: seq<System>, es: seq<Event>, rank: Id -> nat, first: set<Id>, b: nat, p: Id, f: Id)
    requires IsRun(t, es, rank) && b < |es| && p in MustBuild(t, es, rank, first, b)
    requires p in t[b + 1].g && f in t[b + 1].g[p].children && f in t[b + 1].g && f !in t[b].g
    ensures f in MustBuild(t, es, rank, first, b + 1)
  {
    hide Enabled, Apply, Initial, JobMade;
    if JobMade(t[b], es[b]) { NoNewNode(t, es, rank, b); }
  }

  lemma NoNewNode(t: seq<System>, es: seq<Event>, rank: Id -> nat, b: nat)
    requires IsRun(t, es, rank) && b < |es| && JobMade(t[b], es[b])
    ensures t[b + 1].g.Keys == t[b].g.Keys
  {
    hide Initial, Sound, Bounded;
    assert Enabled(t[b], rank, es[b]) && t[b + 1] == Apply(t[b], rank, es[b]);
  }
}
