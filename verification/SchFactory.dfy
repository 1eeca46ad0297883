/** The job factory's operations on the tree of nodes. */
module SchFactory {
  import opened Common
  import opened SchTree
  import opened SchSearch
  import opened SchExpand
  import opened SchSystem

  /** Nodes stay; targets may get expanded and grow files behind their children. */
  ghost predicate Extended(g: Graph, g': Graph, rank: Id -> nat, n: Id) {
    forall k {:trigger g[k]} {:trigger g'[k]} :: k in g ==>
      && k in g' && g'[k].kind == g[k].kind && g'[k].deps == g[k].deps && g'[k].files == g[k].files && g'[k].name == g[k].name
      && g[k].children <= g'[k].children
      && (g'[k].status == g[k].status || (g[k].status == Pristine && g'[k].status == Expanded))
      && (g'[k].status != g[k].status ==> k == n || g[k].kind.Target?)
      && (rank(k) >= rank(n) && k != n ==> g'[k] == g[k])
  }

  class JobFactory {
    /** Witness that the dependencies of targets form no cycle. */
    ghost const rank: Id -> nat
    var g: Graph
    var next: Id
    var needToWait: bool

    /** `findAGoodNode`. */
    method FindAGoodNode(n: Id, target: Option<Id>) returns (found: Option<Id>, target': Option<Id>)
      requires Acyclic(g, rank) && n in g
      modifies `needToWait
      ensures Search(found, target', needToWait) == Find(g, rank, n, target, old(needToWait))
      decreases rank(n)
    {
      target' := target;
      if Level(g[n].status) >= 2 { return None, target'; }
      if g[n].kind.Target? { target' := Some(n); }
      if g[n].children == [] { return Some(n), target'; }
      var building, dep := false, false;
      var i := 0;
      while i < |g[n].children|
        invariant 0 <= i <= |g[n].children|
        invariant Find(g, rank, n, target, old(needToWait)) == Scan(g, rank, n, i, target', needToWait, building, dep)
      {
        var c := g[n].children[i];
        assert ChildrenOk(g, rank, n) && c in g[n].children;
        i := i + 1;
        building := building || Level(g[c].status) < 3;
        dep := dep || (IsDep(g[c]) && Level(g[c].status) < 3);
        if dep && !IsDep(g[c]) { continue; }
        if Level(g[c].status) < 2 {
          found, target' := FindAGoodNode(c, target');
          if found.Some? { return found, target'; }
        }
      }
      if g[n].kind.FakeRoot? || g[n].kind.Hook? { return None, target'; }
      if building {
        needToWait := true;
        return None, target';
      }
      return Some(n), target';
    }

    /** `expandTargetNode`: the dependencies first, then the files become nodes. It throws
        exactly if the name of a dependency is unknown, here or further down. */
    method ExpandTargetNode(n: Id) returns (o: Fallible<()>)
      requires Sound(g, rank) && Bounded(g, rank, next) && n in g && (g[n].kind.Target? || g[n].kind.FakeRoot?)
      modifies `g, `next
      ensures Sound(g, rank) && Bounded(g, rank, next) && next >= old(next) && Extended(old(g), g, rank, n)
      ensures o.Returned? <==> Resolves(old(g), rank, n)
      ensures o.Returned? ==> Kept(old(g), g, rank)
      ensures n in g && Level(g[n].status) >= 1
      ensures Level(old(g)[n].status) >= 1 ==> g == old(g) && next == old(next)
      ensures old(g)[n].status == Pristine && old(g)[n].kind.Target? && AllExpanded(old(g), old(g)[n].deps) ==>
        && n < old(next) && g == Expand(old(g), n, old(next)) && next == old(next) + |FilesOf(old(g)[n])|
        && (o.Raised? <==> Lacks(old(g)[n]))
      decreases rank(n), 1
    {
      hide Sound, Bounded, Extended, Expand, Populated, Growable, Dependencies, Resolves, Kept, Lacks, FilesOf, AllExpanded, ResolveAll;
      ghost var g0, next0 := g, next;
      NodeFacts(g, rank, next, n);
      ResolvesOne(g, rank, n);
      if Level(g[n].status) > 0 {
        ExtendedSelf(g, rank, n);
        KeptSelf(g, rank);
        return Returned(());
      }
      g := g[n := g[n].(status := Expanded)];
      StatusExpanded(g0, rank, next, n);
      StatusResolves(g0, rank, n, DepsOf(g0[n]));
      ghost var g1 := g;
      o := ExpandAll(n, DepsOf(g[n]), g0);
      if o.Returned? { KeptWith(g0, g1, g, rank, n); }
      if g[n].kind.FakeRoot? { return; }
      ghost var g2, next2 := g, next;
      if o.Raised? {
        if AllExpanded(g0, g0[n].deps) { LackExpanded(g0, rank, n, next); }
        return;
      }
      if AllExpanded(g0, g0[n].deps) { NoLack(g0, rank, n); }
      AfterDeps(g0, g2, rank, next, n);
      if g[n].kind == Target(true) {
        if g2 == g1 { CustomExpanded(g0, n, next); }
        return;
      }
      AddFileNodes(n);
      AllPopulated(g0, g2, rank, next2, n, |g2[n].files|);
      KeptPopulated(g0, g2, rank, next2, n, |g2[n].files|);
      if g2 == g1 && !Lacks(g0[n]) { FilesExpanded(g0, n, next2); }
    }

    /** The loop of `expandTargetNode` over the files. */
    method AddFileNodes(n: Id)
      requires Growable(g, rank, next, n) && n < next && g[n].status == Expanded
      modifies `g, `next
      ensures g == Populated(old(g), n, old(next), |old(g)[n].files|) && next == old(next) + |old(g)[n].files|
    {
      hide Growable, Populated;
      InGrowable(g, rank, next, n);
      ghost var g2, next2 := g, next;
      PopulatedZero(g2, n, next2);
      var k := 0;
      while k < |g[n].files|
        invariant n in g && g[n].files == g2[n].files && 0 <= k <= |g2[n].files|
        invariant g == Populated(g2, n, next2, k) && next == next2 + k
      {
        PopulatedStep(g2, rank, n, next2, k);
        var fileNode := FileNode(g[n].files[k]);
        g := g[n := g[n].(children := g[n].children + [next])][next := fileNode];
        next := next + 1;
        k := k + 1;
      }
    }

    /** The part of `createJob` under the lock of the tree is the search step of the system. */
    method SearchForJob(root: Id) returns (o: Fallible<()>, node: Option<Id>, target: Option<Id>)
      requires Sound(g, rank) && Bounded(g, rank, next) && root in g
      modifies `g, `next, `needToWait
      ensures forall s: System :: s.g == old(g) && s.next == old(next) && s.needToWait == old(needToWait) && s.root == Some(root) ==>
        DoSearch(s, rank) == s.(g := g, next := next, needToWait := needToWait, pc := if o.Raised? then Thrown else Searched(node, target))
    {
      hide Sound, Bounded, Expand, Find, Acyclic, Lacks, FilesOf, Resolves, Kept, Extended;
      SoundAcyclic(g, rank);
      FindResult(g, rank, root, None, needToWait);
      node, target := FindAGoodNode(root, None);
      o := Returned(());
      if node.Some? && g[node.value].kind.Target? && g[node.value].status == Pristine {
        ReadyDeps(g, rank, node.value);
        LacksFiles(g[node.value]);
        o := ExpandTargetNode(node.value);
        if o.Raised? { return; }
        SoundAcyclic(g, rank);
        node, target := FindAGoodNode(node.value, target);
      }
    }

    /** `addTargetHookNodes`: every target with a hook gets one hook node, behind its other
        children; nothing else changes. */
    method AddTargetHookNodes(targets: seq<Id>, hasHook: Id -> bool)
      requires Sound(g, rank) && Bounded(g, rank, next) && forall t :: t in targets ==> Unhooked(g, t)
      requires forall i, j :: 0 <= i < j < |targets| ==> targets[i] != targets[j]
      modifies `g, `next
      ensures Sound(g, rank) && Bounded(g, rank, next) && next >= old(next)
      ensures forall t :: t in old(g) && !(t in targets && hasHook(t)) ==> t in g && g[t] == old(g)[t]
      ensures forall t :: t in targets && hasHook(t) ==> HookAdded(old(g), g, t)
    {
      hide Sound, Bounded, HookAdded, Unhooked;
      ghost var g0 := g;
      InGraph(g, targets);
      var i := 0;
      while i < |targets|
        invariant 0 <= i <= |targets| && Sound(g, rank) && Bounded(g, rank, next) && next >= old(next)
        invariant forall t :: t in g0 && !(t in targets[..i] && hasHook(t)) ==> t in g && g[t] == g0[t]
        invariant forall t :: t in targets[..i] && hasHook(t) ==> HookAdded(g0, g, t)
        invariant forall k :: i <= k < |targets| ==> Unhooked(g, targets[k])
      {
        var t := targets[i];
        assert t in targets && targets[..i + 1] == targets[..i] + [t] && t !in targets[..i];
        if hasHook(t) {
          HookSound(g, rank, next, t);
          HookNew(g0, g, t, next);
          InGraph(g, targets[i..]);
          forall k | k in targets[..i] && hasHook(k) ensures HookAdded(g0, Hooked(g, t, next), k) { HookKept(g0, g, t, next, k); }
          g := Hooked(g, t, next);
          next := next + 1;
        }
        i := i + 1;
      }
      assert targets[..i] == targets;
    }

    /** Expands the dependencies of `n`, whose status has just been set, by their names. */
    method ExpandAll(n: Id, l: seq<Dep>, ghost g0: Graph) returns (o: Fallible<()>)
      requires Sound(g, rank) && Bounded(g, rank, next) && n in g && n in g0 && Extended(g0, g, rank, n)
      requires Dependencies(g, rank, n, l)
      modifies `g, `next
      ensures Sound(g, rank) && Bounded(g, rank, next) && next >= old(next) && n in g && Extended(g0, g, rank, n)
      ensures o.Returned? <==> ResolveAll(old(g), rank, n, l)
      ensures o.Returned? ==> Kept(old(g), g, rank)
      ensures g[n] == old(g)[n] && forall k :: k in old(g) && rank(k) >= rank(n) ==> k in g && g[k] == old(g)[k]
      ensures AllExpanded(old(g), l) ==> g == old(g) && next == old(next)
      decreases rank(n), 0
    {
      hide Sound, Bounded, Extended, Expand, Resolves, Kept, Lacks, FilesOf, ResolveAll;
      ghost var g1, next1 := g, next;
      KeptSelf(g, rank);
      ExtendedSelf(g, rank, n);
      var i := 0;
      ResolveNone(g1, rank, n, l[..0]);
      while i < |l|
        invariant 0 <= i <= |l| && Sound(g, rank) && Bounded(g, rank, next) && next >= next1
        invariant n in g && g[n] == g1[n] && Extended(g0, g, rank, n) && Extended(g1, g, rank, n) && Dependencies(g, rank, n, l)
        invariant forall k :: k in g1 && rank(k) >= rank(n) ==> k in g && g[k] == g1[k]
        invariant Kept(g1, g, rank) && ResolveAll(g1, rank, n, l[..i])
        invariant AllExpanded(g1, l) ==> g == g1 && next == next1
      {
        assert l[..i + 1] == l[..i] + [l[i]];
        ResolveMore(g1, rank, n, l, i);
        match l[i] {
          case Unknown(name) =>
            return Raised("Unknow target \"" + name + "\".");
          case Known(d) =>
            assert Known(d) in l;
            ghost var before := g;
            ResolvesKept(g1, g, rank, n, d);
            o := ExpandTargetNode(d);
            ExtendedMore(g0, before, g, rank, n, d, l);
            ExtendedMore(g1, before, g, rank, n, d, l);
            SameAbove(before, g, rank, n, d);
            if o.Raised? { return; }
            KeptTrans(g1, before, g, rank, n);
        }
        i := i + 1;
      }
      assert l[..i] == l;
      return Returned(());
    }
  }

  // ------------------------------------------------------------- names

  /** What a node expands first: the children of the fake root, and a target's dependencies. */
  function DepsOf(n: Node): (l: seq<Dep>)
    ensures n.kind.FakeRoot? ==> forall d :: d in l <==> d.Known? && d.id in n.children
  {
    if n.kind.FakeRoot? then Names(n.children) else n.deps
  }

  function Names(l: seq<Id>): (r: seq<Dep>)
    ensures forall d :: d in r <==> d.Known? && d.id in l
  {
    if l == [] then [] else [Known(l[0])] + Names(l[1..])
  }

  /** `n` is expanded already, or all it expands first has a known name, and so on down. */
  ghost predicate Resolves(g: Graph, rank: Id -> nat, n: Id)
    decreases rank(n)
  {
    n in g && (Level(g[n].status) >= 1 ||
               forall d :: d in DepsOf(g[n]) ==> d.Known? && rank(d.id) < rank(n) && Resolves(g, rank, d.id))
  }

  ghost predicate ResolveAll(g: Graph, rank: Id -> nat, n: Id, l: seq<Dep>) {
    forall d :: d in l ==> d.Known? && rank(d.id) < rank(n) && Resolves(g, rank, d.id)
  }

  lemma ResolvesOne(g: Graph, rank: Id -> nat, n: Id)
    requires n in g
    ensures Resolves(g, rank, n) <==> Level(g[n].status) >= 1 || ResolveAll(g, rank, n, DepsOf(g[n]))
  {
  }

  lemma ResolveNone(g: Graph, rank: Id -> nat, n: Id, l: seq<Dep>)
    requires l == []
    ensures ResolveAll(g, rank, n, l)
  {
  }

  lemma ResolveMore(g: Graph, rank: Id -> nat, n: Id, l: seq<Dep>, i: nat)
    requires i < |l| && ResolveAll(g, rank, n, l[..i])
    ensures l[i].Known? && rank(l[i].id) < rank(n) && Resolves(g, rank, l[i].id) ==> ResolveAll(g, rank, n, l[..i + 1])
    ensures !(l[i].Known? && rank(l[i].id) < rank(n) && Resolves(g, rank, l[i].id)) ==> !ResolveAll(g, rank, n, l)
  {
    hide Resolves;
    assert l[i] in l && l[..i + 1] == l[..i] + [l[i]];
  }

  /** What has been expanded on the way from `g` to `g'` could be. */
  ghost predicate Kept(g: Graph, g': Graph, rank: Id -> nat) {
    forall k {:trigger g[k]} {:trigger g'[k]} :: k in g ==> k in g' && (g'[k].status == g[k].status || Resolves(g, rank, k))
  }

  lemma KeptSelf(g: Graph, rank: Id -> nat)
    ensures Kept(g, g, rank)
  {
  }

  lemma {:induction false} ResolvesKept(g: Graph, g': Graph, rank: Id -> nat, n: Id, m: Id)
    requires Sound(g, rank) && Kept(g, g', rank) && Extended(g, g', rank, n) && m in g && g[m].kind.Target?
    ensures Resolves(g', rank, m) <==> Resolves(g, rank, m)
    decreases rank(m)
  {
    assert g'[m] == g'[m];
    if g'[m].status == Pristine {
      forall d | d in g[m].deps && d.Known? ensures rank(d.id) < rank(m) && (Resolves(g', rank, d.id) <==> Resolves(g, rank, d.id)) {
        DepTarget(g, rank, m, d.id);
        ResolvesKept(g, g', rank, n, d.id);
      }
    }
  }

  lemma DepTarget(g: Graph, rank: Id -> nat, m: Id, d: Id)
    requires Sound(g, rank) && m in g && g[m].kind.Target? && Known(d) in g[m].deps
    ensures d in g && g[d].kind.Target? && rank(d) < rank(m)
  {
    assert Shaped(g, g[m]) && ChildrenOk(g, rank, m);
  }

  /** The status of `n` says nothing about what is below it. */
  lemma {:induction false} ResolvesBelow(g: Graph, rank: Id -> nat, n: Id, m: Id)
    requires n in g && rank(m) < rank(n)
    ensures Resolves(g[n := g[n].(status := Expanded)], rank, m) <==> Resolves(g, rank, m)
    decreases rank(m)
  {
    var g' := g[n := g[n].(status := Expanded)];
    if m in g && g[m].status == Pristine {
      forall d | d in DepsOf(g[m]) && d.Known? && rank(d.id) < rank(m) ensures Resolves(g', rank, d.id) <==> Resolves(g, rank, d.id) {
        ResolvesBelow(g, rank, n, d.id);
      }
    }
  }

  lemma StatusResolves(g: Graph, rank: Id -> nat, n: Id, l: seq<Dep>)
    requires n in g
    ensures ResolveAll(g[n := g[n].(status := Expanded)], rank, n, l) <==> ResolveAll(g, rank, n, l)
  {
    hide Resolves;
    forall m | rank(m) < rank(n) ensures Resolves(g[n := g[n].(status := Expanded)], rank, m) <==> Resolves(g, rank, m) {
      ResolvesBelow(g, rank, n, m);
    }
  }

  /** `n` itself and what has been expanded below it. */
  lemma KeptWith(g0: Graph, g1: Graph, g2: Graph, rank: Id -> nat, n: Id)
    requires n in g0 && g1 == g0[n := g0[n].(status := Expanded)] && Kept(g1, g2, rank) && Resolves(g0, rank, n)
    requires forall k :: k in g1 && rank(k) >= rank(n) ==> k in g2 && g2[k] == g1[k]
    ensures Kept(g0, g2, rank)
  {
    hide Resolves;
    forall k | k in g0 ensures k in g2 && (g2[k].status == g0[k].status || Resolves(g0, rank, k)) {
      assert g1[k] == g1[k];
      if k != n && rank(k) < rank(n) { ResolvesBelow(g0, rank, n, k); }
    }
  }

  lemma KeptPopulated(g0: Graph, g2: Graph, rank: Id -> nat, next: Id, n: Id, k: nat)
    requires Kept(g0, g2, rank) && Growable(g2, rank, next, n) && next > n && k <= |g2[n].files| && g2[n].status == Expanded
    ensures Kept(g0, Populated(g2, n, next, k), rank)
  {
    hide Resolves, Populated, Sound;
    PopulatedAt(g2, n, next, k);
    var g' := Populated(g2, n, next, k);
    forall id | id in g0 ensures id in g2 && id in g' && g'[id].status == g2[id].status {
      assert g0[id] == g0[id];
    }
  }

  lemma SameAbove(g: Graph, g': Graph, rank: Id -> nat, n: Id, d: Id)
    requires Extended(g, g', rank, d) && rank(d) < rank(n) && d in g && g[d].kind.Target?
    ensures forall k :: k in g && rank(k) >= rank(n) ==> k in g' && g'[k] == g[k]
    ensures forall k :: k in g && k in g' && g'[k].status != g[k].status ==> g[k].kind.Target?
  {
    forall k | k in g ensures k in g' { assert g[k] == g[k]; }
  }

  /** With all known dependencies expanded, only an unknown one is in the way. */
  lemma LackExpanded(g: Graph, rank: Id -> nat, n: Id, next: Id)
    requires n in g && g[n].kind.Target? && AllExpanded(g, g[n].deps) && Dependencies(g, rank, n, g[n].deps) && n < next
    requires !ResolveAll(g, rank, n, g[n].deps)
    ensures Lacks(g[n]) && FilesOf(g[n]) == [] && Expand(g, n, next) == g[n := g[n].(status := Expanded)]
  {
    PopulatedZero(g, n, next);
  }

  lemma NoLack(g: Graph, rank: Id -> nat, n: Id)
    requires n in g && ResolveAll(g, rank, n, g[n].deps)
    ensures !Lacks(g[n])
  {
    hide Resolves;
  }

  lemma LacksFiles(n: Node)
    ensures Lacks(n) ==> FilesOf(n) == []
  {
  }

  lemma KeptTrans(g: Graph, g1: Graph, g2: Graph, rank: Id -> nat, n: Id)
    requires Sound(g, rank) && Extended(g, g1, rank, n) && Kept(g, g1, rank) && Kept(g1, g2, rank) && Sound(g1, rank)
    requires forall k :: k in g1 && k in g2 && g2[k].status != g1[k].status ==> g1[k].kind.Target?
    ensures Kept(g, g2, rank)
  {
    hide Sound, Resolves;
    forall k | k in g ensures k in g2 && (g2[k].status == g[k].status || Resolves(g, rank, k)) {
      assert g[k] == g[k] && g1[k] == g1[k];
      if g2[k].status != g1[k].status { ResolvesKept(g, g1, rank, n, k); }
    }
  }

  // ------------------------------------------------------------- hooks

  const HOOK := Node("<hook>", Hook, Pristine, [], [], [])

  /** Target `t` with a hook behind its dependencies. */
  function Hooked(g: Graph, t: Id, id: Id): Graph
    requires t in g
  {
    g[t := g[t].(children := g[t].children + [id])][id := HOOK]
  }

  /** A target as `buildNotExpandedTree` leaves it. */
  ghost predicate Unhooked(g: Graph, t: Id) {
    t in g && g[t].kind.Target? && g[t].status == Pristine && forall c :: c in g[t].children && c in g ==> g[c].kind.Target?
  }

  lemma HookSound(g: Graph, rank: Id -> nat, next: Id, t: Id)
    requires Sound(g, rank) && Bounded(g, rank, next) && Unhooked(g, t)
    ensures var g' := Hooked(g, t, next);
      && Sound(g', rank) && Bounded(g', rank, next + 1) && next !in g
      && forall k :: k != t && Unhooked(g, k) ==> Unhooked(g', k)
  {
    hide Shaped, ChildrenOk, InOrder;
    var g' := Hooked(g, t, next);
    forall k | k in g' ensures ChildrenOk(g', rank, k) && Shaped(g', g'[k]) && InOrder(g', g'[k]) {
      if k == next { HookNode(g', rank, next); } else { HookedNode(g, rank, next, t, k); }
    }
    forall k | k != t && Unhooked(g, k) ensures Unhooked(g', k) {
      NodeFacts(g, rank, next, k);
      HookedNode(g, rank, next, t, k);
    }
    HookedSingle(g, rank, next, t);
  }

  lemma HookedSingle(g: Graph, rank: Id -> nat, next: Id, t: Id)
    requires Sound(g, rank) && Bounded(g, rank, next) && t in g
    ensures Single(Hooked(g, t, next))
  {
    hide Shaped, InOrder;
    var g' := Hooked(g, t, next);
    forall p, c | Own(g', p, c) ensures if c in g then Own(g, p, c) else p == t {
      if p in g { OldChildren(g, rank, p); }
    }
  }

  /** The target has one more child, a hook. */
  ghost predicate HookAdded(g: Graph, g': Graph, t: Id) {
    && t in g && t in g' && |g'[t].children| == |g[t].children| + 1
    && g'[t] == g[t].(children := g[t].children + [g'[t].children[|g[t].children|]])
    && g'[t].children[|g[t].children|] in g' && g'[g'[t].children[|g[t].children|]] == HOOK
  }

  lemma InGraph(g: Graph, l: seq<Id>)
    requires forall t :: t in l ==> Unhooked(g, t)
    ensures forall t :: t in l ==> t in g && g[t].kind.Target?
  {
  }

  lemma ReadyDeps(g: Graph, rank: Id -> nat, n: Id)
    requires Sound(g, rank) && Ready(g, n) && g[n].kind.Target?
    ensures AllExpanded(g, g[n].deps)
  {
    assert Shaped(g, g[n]);
  }

  lemma HookNode(g: Graph, rank: Id -> nat, id: Id)
    requires id in g && g[id] == HOOK
    ensures ChildrenOk(g, rank, id) && Shaped(g, g[id]) && InOrder(g, g[id])
  {
  }

  lemma HookedNode(g: Graph, rank: Id -> nat, next: Id, t: Id, k: Id)
    requires Sound(g, rank) && Bounded(g, rank, next) && Unhooked(g, t) && k in g
    ensures var g' := Hooked(g, t, next); ChildrenOk(g', rank, k) && Shaped(g', g'[k]) && InOrder(g', g'[k])
    ensures k != t && Unhooked(g, k) ==> Unhooked(Hooked(g, t, next), k)
  {
    assert Shaped(g, g[k]) && ChildrenOk(g, rank, k) && InOrder(g, g[k]) && rank(t) >= 1;
    HookedParts(g, rank, next, t, k);
  }

  lemma HookedParts(g: Graph, rank: Id -> nat, next: Id, t: Id, k: Id)
    requires k in g && Shaped(g, g[k]) && ChildrenOk(g, rank, k) && InOrder(g, g[k]) && rank(t) >= 1 && rank(next) == 0
    requires Unhooked(g, t) && next !in g
    ensures var g' := Hooked(g, t, next); ChildrenOk(g', rank, k) && Shaped(g', g'[k]) && InOrder(g', g'[k])
    ensures k != t && Unhooked(g, k) ==> Unhooked(Hooked(g, t, next), k)
  {
    hide Arranged, Hooked;
    HookedFields(g, t, next);
    var g' := Hooked(g, t, next);
    forall c | c in g[k].children ensures c in g && c in g' && c != next && g'[c].kind == g[c].kind {
      assert g'[c].kind == g'[c].kind;
    }
    HookedArranged(g, g', g[k].children, next);
  }

  lemma HookedFields(g: Graph, t: Id, next: Id)
    requires t in g && next !in g
    ensures var g' := Hooked(g, t, next);
      && (forall c :: c in g ==> c in g' && g'[c].kind == g[c].kind && g'[c].status == g[c].status && g'[c].deps == g[c].deps)
      && (forall c {:trigger g'[c]} :: c in g && c != t ==> g'[c] == g[c])
      && g'[t].children == g[t].children + [next] && next in g' && g'[next] == HOOK
  {
  }

  lemma HookedArranged(g: Graph, g': Graph, l: seq<Id>, next: Id)
    requires Arranged(g, l) && next in g' && g'[next] == HOOK
    requires forall c :: c in l ==> c in g && c in g' && g'[c].kind == g[c].kind
    ensures Arranged(g', l)
    ensures (forall c :: c in l ==> g[c].kind.Target?) ==> Arranged(g', l + [next])
  {
    forall i, j | 0 <= i < j < |l| ensures Order(g'[l[i]]) <= Order(g'[l[j]]) { assert l[i] in l && l[j] in l; }
  }

  /** A hook that has been added stays while another target gets one. */
  lemma HookKept(g0: Graph, g: Graph, t: Id, next: Id, k: Id)
    requires HookAdded(g0, g, k) && t in g && k != t && next !in g && g[t].kind.Target?
    ensures HookAdded(g0, Hooked(g, t, next), k)
  {
  }

  lemma HookNew(g0: Graph, g: Graph, t: Id, next: Id)
    requires t in g0 && t in g && g[t] == g0[t] && next !in g
    ensures HookAdded(g0, Hooked(g, t, next), t)
  {
  }

  /** Targets below `n`. */
  ghost predicate Dependencies(g: Graph, rank: Id -> nat, n: Id, l: seq<Dep>) {
    forall d: Id {:trigger Known(d)} :: Known(d) in l ==> d in g && g[d].kind.Target? && rank(d) < rank(n)
  }

  ghost predicate AllExpanded(g: Graph, l: seq<Dep>) {
    forall d: Id {:trigger Known(d)} :: Known(d) in l && d in g ==> Level(g[d].status) >= 1
  }

  lemma ExtendedSelf(g: Graph, rank: Id -> nat, n: Id)
    ensures Extended(g, g, rank, n)
  {
  }

  lemma NodeFacts(g: Graph, rank: Id -> nat, next: Id, n: Id)
    requires Sound(g, rank) && Bounded(g, rank, next) && n in g
    ensures n < next && (g[n].kind.Target? || g[n].kind.FakeRoot? ==> Dependencies(g, rank, n, DepsOf(g[n])))
  {
    assert Shaped(g, g[n]) && ChildrenOk(g, rank, n);
  }

  lemma StatusExpanded(g: Graph, rank: Id -> nat, next: Id, n: Id)
    requires Sound(g, rank) && Bounded(g, rank, next) && n in g && (g[n].kind.Target? || g[n].kind.FakeRoot?) && g[n].status == Pristine
    ensures var g' := g[n := g[n].(status := Expanded)];
      && Sound(g', rank) && Bounded(g', rank, next) && Extended(g, g', rank, n)
      && DepsOf(g'[n]) == DepsOf(g[n]) && Dependencies(g', rank, n, DepsOf(g[n]))
      && (AllExpanded(g, g[n].deps) ==> AllExpanded(g', g[n].deps))
  {
    hide Shaped, ChildrenOk, InOrder;
    var g' := g[n := g[n].(status := Expanded)];
    NodeFacts(g, rank, next, n);
    forall k | k in g' ensures ChildrenOk(g', rank, k) && Shaped(g', g'[k]) && InOrder(g', g'[k]) {
      StatusNode(g, rank, n, k);
    }
    assert forall k :: k in g' ==> g'[k].kind == g[k].kind;
    SameSingle(g, g');
  }

  lemma StatusNode(g: Graph, rank: Id -> nat, n: Id, k: Id)
    requires n in g && k in g && ChildrenOk(g, rank, k) && Shaped(g, g[k]) && InOrder(g, g[k])
    requires (g[n].kind.Target? || g[n].kind.FakeRoot?) && g[n].status == Pristine
    ensures var g' := g[n := g[n].(status := Expanded)]; ChildrenOk(g', rank, k) && Shaped(g', g'[k]) && InOrder(g', g'[k])
  {
    var g' := g[n := g[n].(status := Expanded)];
    assert forall c :: c in g ==> g'[c].kind == g[c].kind && g'[c].children == g[c].children;
    assert forall c :: c in g && g[c].status == Built ==> g'[c].status == Built;
  }

  /** One more dependency has been expanded. */
  lemma ExtendedMore(g0: Graph, g1: Graph, g2: Graph, rank: Id -> nat, n: Id, d: Id, l: seq<Dep>)
    requires Extended(g0, g1, rank, n) && Extended(g1, g2, rank, d) && n in g1 && rank(d) < rank(n)
    requires Dependencies(g1, rank, n, l) && Known(d) in l
    ensures Extended(g0, g2, rank, n) && n in g2 && g2[n] == g1[n] && Dependencies(g2, rank, n, l)
  {
    forall k | k in g0
      ensures k in g2 && g2[k].kind == g0[k].kind && g2[k].deps == g0[k].deps && g2[k].files == g0[k].files && g2[k].name == g0[k].name
      ensures g0[k].children <= g2[k].children
      ensures g2[k].status == g0[k].status || (g0[k].status == Pristine && g2[k].status == Expanded)
      ensures g2[k].status != g0[k].status ==> k == n || g0[k].kind.Target?
      ensures rank(k) >= rank(n) && k != n ==> g2[k] == g0[k]
    {
      assert g1[k] == g1[k];
    }
  }

  lemma AfterDeps(g0: Graph, g2: Graph, rank: Id -> nat, next: Id, n: Id)
    requires Sound(g0, rank) && n in g0 && g0[n].kind.Target? && g0[n].status == Pristine
    requires Sound(g2, rank) && Bounded(g2, rank, next) && Extended(g0, g2, rank, n) && n in g2 && g2[n] == g0[n].(status := Expanded)
    ensures Growable(g2, rank, next, n) && n < next
  {
    assert Shaped(g0, g0[n]) && ChildrenOk(g0, rank, n);
    forall c | c in g2[n].children && c in g2 ensures IsDep(g2[c]) { assert g0[c] == g0[c]; }
  }

  lemma InGrowable(g: Graph, rank: Id -> nat, next: Id, n: Id)
    requires Growable(g, rank, next, n)
    ensures n in g && n < next
  {
  }

  lemma PopulatedZero(g: Graph, n: Id, next: Id)
    requires n in g && next > n
    ensures Populated(g, n, next, 0) == g[n := g[n].(status := Expanded)]
    ensures g[n].status == Expanded ==> Populated(g, n, next, 0) == g
  {
    assert g[n].children + Numbers(next, 0) == g[n].children;
    var h := Populated(g, n, next, 0);
    assert h.Keys == g.Keys;
    assert forall id :: id in g ==> h[id] == g[n := g[n].(status := Expanded)][id];
    if g[n].status == Expanded { assert g[n := g[n].(status := Expanded)] == g; }
  }

  lemma PopulatedStep(g: Graph, rank: Id -> nat, n: Id, next: Id, k: nat)
    requires Growable(g, rank, next, n) && next > n && k < |g[n].files|
    ensures var h := Populated(g, n, next, k);
      && n in h && h[n].files == g[n].files
      && h[n := h[n].(children := h[n].children + [next + k])][next + k := FileNode(g[n].files[k])] == Populated(g, n, next, k + 1)
      && Populated(g, n, next, k + 1)[n].files == g[n].files
  {
    hide Sound, Populated;
    PopulatedAt(g, n, next, k);
    PopulatedAt(g, n, next, k + 1);
    var h, h' := Populated(g, n, next, k), Populated(g, n, next, k + 1);
    var m := h[n := h[n].(children := h[n].children + [next + k])][next + k := FileNode(g[n].files[k])];
    assert m.Keys == h'.Keys;
    forall id | id in m ensures m[id] == h'[id] {
    }
  }

  lemma AllPopulated(g0: Graph, g2: Graph, rank: Id -> nat, next: Id, n: Id, k: nat)
    requires Extended(g0, g2, rank, n) && n in g0 && Growable(g2, rank, next, n) && next > n && k <= |g2[n].files|
    requires g0[n].status == Pristine && g2[n].status == Expanded
    ensures var g' := Populated(g2, n, next, k);
      Sound(g', rank) && Bounded(g', rank, next + k) && Extended(g0, g', rank, n) && n in g' && g'[n].status == Expanded
  {
    PopulatedSound(g2, rank, next, n, k);
    hide Sound, Populated;
    PopulatedAt(g2, n, next, k);
    forall id | id in g0 ensures id in g2 && (id != n ==> Populated(g2, n, next, k)[id] == g2[id]) {
      assert g0[id] == g0[id];
    }
  }

  lemma FilesExpanded(g0: Graph, n: Id, next: Id)
    requires n in g0 && next > n && g0[n].kind == Target(false) && !Lacks(g0[n])
    ensures Populated(g0[n := g0[n].(status := Expanded)], n, next, |g0[n].files|) == Expand(g0, n, next) && FilesOf(g0[n]) == g0[n].files
  {
  }

  lemma CustomExpanded(g0: Graph, n: Id, next: Id)
    requires n in g0 && next > n && g0[n].kind == Target(true)
    ensures g0[n := g0[n].(status := Expanded)] == Expand(g0, n, next) && FilesOf(g0[n]) == []
  {
    PopulatedZero(g0, n, next);
  }
}
