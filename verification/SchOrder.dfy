/** The search finds a node whenever one can be started, and the first one in the order of the tree. */
module SchOrder {
  import opened Common
  import opened SchTree
  import opened SchSearch

  /** The node `m` under `n` can be started: it is neither built nor being built, all its children are
      built, and if it is a file the dependencies and the hook of its target are built too. */
  ghost predicate Startable(g: Graph, rank: Id -> nat, n: Id, m: Id)
    requires Acyclic(g, rank) && n in g
  {
    && Ready(g, m) && Under(g, rank, n, m)
    && (m != n && g[m].kind.File? ==> forall p {:trigger Own(g, p, m)} :: Own(g, p, m) && g[p].kind.Target? ==> DepsBuilt(g, p))
  }

  /** A startable node lies below nodes that have not been started. */
  lemma StartableLevel(g: Graph, rank: Id -> nat, n: Id, m: Id)
    requires Sound(g, rank) && n in g && Ready(g, m) && Under(g, rank, n, m)
    ensures Level(g[n].status) < 2
  {
    hide Shaped, InOrder, Single;
    if Level(g[n].status) >= 2 { AllBuilt(g, rank, n, m); }
  }

  lemma ChildFacts(g: Graph, rank: Id -> nat, n: Id, k: nat)
    requires Sound(g, rank) && n in g && k < |g[n].children|
    ensures var c := g[n].children[k]; c in g && rank(c) < rank(n) && c in g[n].children
    ensures !IsDep(g[g[n].children[k]]) ==> g[n].kind.Target? && g[g[n].children[k]].kind.File? && g[g[n].children[k]].children == []
  {
    var c := g[n].children[k];
    assert c in g[n].children && ChildrenOk(g, rank, n);
    assert Shaped(g, g[n]) && Shaped(g, g[c]);
  }

  /** A startable node below a child is startable there, and the child is not passed over. */
  lemma StartableChild(g: Graph, rank: Id -> nat, n: Id, k: nat, m: Id, dep: bool)
    requires Sound(g, rank) && n in g && k < |g[n].children| && Startable(g, rank, n, m) && m != n
    requires g[n].children[k] in g && Under(g, rank, g[n].children[k], m)
    ensures var c := g[n].children[k];
      Startable(g, rank, c, m) && Level(g[c].status) < 2 && (!IsDep(g[c]) ==> DepsBuilt(g, n))
  {
    var c := g[n].children[k];
    ChildFacts(g, rank, n, k);
    StartableLevel(g, rank, c, m);
    if !IsDep(g[c]) {
      assert m == c;
      assert Own(g, n, c);
    }
  }

  /** The search does not come back empty when some node can be started. */
  lemma {:induction false} FindAll(g: Graph, rank: Id -> nat, n: Id, target: Option<Id>, wait: bool, m: Id)
    requires Sound(g, rank) && n in g && Startable(g, rank, n, m)
    ensures Find(g, rank, n, target, wait).node.Some?
    decreases rank(n), |g[n].children| + 1
  {
    hide Shaped, InOrder, Single, Startable;
    StartableFacts(g, rank, n, m);
    StartableLevel(g, rank, n, m);
    var t := if g[n].kind.Target? then Some(n) else target;
    if g[n].children != [] {
      if m == n {
        ScanSelf(g, rank, n, 0, t, wait, false);
      } else {
        var k := ChildAbove(g, rank, n, m);
        ScanAll(g, rank, n, 0, t, wait, false, false, m, k);
      }
    }
  }

  lemma StartableFacts(g: Graph, rank: Id -> nat, n: Id, m: Id)
    requires Acyclic(g, rank) && n in g && Startable(g, rank, n, m)
    ensures Ready(g, m) && Under(g, rank, n, m)
  {
  }

  lemma ChildAbove(g: Graph, rank: Id -> nat, n: Id, m: Id) returns (k: nat)
    requires Acyclic(g, rank) && n in g && Under(g, rank, n, m) && m != n
    ensures k < |g[n].children| && g[n].children[k] in g && rank(g[n].children[k]) < rank(n) && Under(g, rank, g[n].children[k], m)
  {
    var c :| c in g[n].children && c in g && rank(c) < rank(n) && Under(g, rank, c, m);
    k :| 0 <= k < |g[n].children| && g[n].children[k] == c;
  }

  /** All children are built: the node itself is found. */
  lemma {:induction false} ScanSelf(g: Graph, rank: Id -> nat, n: Id, i: nat, target: Option<Id>, wait: bool, dep: bool)
    requires Sound(g, rank) && n in g && Ready(g, n) && i <= |g[n].children| && g[n].children != []
    ensures Scan(g, rank, n, i, target, wait, false, dep) == Search(Some(n), target, wait)
    decreases |g[n].children| - i
  {
    assert Shaped(g, g[n]);
    hide Shaped, InOrder, Single;
    if i < |g[n].children| {
      ChildFacts(g, rank, n, i);
      assert g[g[n].children[i]].status == Built;
      ScanSelf(g, rank, n, i + 1, target, wait, dep);
    }
  }

  /** The search of the children does not pass over one below which some node can be started. */
  lemma {:induction false} ScanAll(g: Graph, rank: Id -> nat, n: Id, i: nat, target: Option<Id>, wait: bool, building: bool, dep: bool, m: Id, k: nat)
    requires Sound(g, rank) && n in g && i <= k < |g[n].children| && Startable(g, rank, n, m) && m != n
    requires g[n].children[k] in g && rank(g[n].children[k]) < rank(n) && Under(g, rank, g[n].children[k], m)
    requires dep ==> !DepsBuilt(g, n)
    ensures Scan(g, rank, n, i, target, wait, building, dep).node.Some?
    decreases rank(n), |g[n].children| - i
  {
    hide Shaped, InOrder, Single, Startable;
    ChildFacts(g, rank, n, i);
    var c := g[n].children[i];
    var building' := building || Level(g[c].status) < 3;
    var dep' := dep || (IsDep(g[c]) && Level(g[c].status) < 3);
    var r := Find(g, rank, c, target, wait);
    if i == k {
      StartableChild(g, rank, n, k, m, dep);
      FindAll(g, rank, c, target, wait, m);
    } else if (dep' && !IsDep(g[c])) || Level(g[c].status) >= 2 {
      ScanAll(g, rank, n, i + 1, target, wait, building', dep', m, k);
    } else if r.node.None? {
      ScanAll(g, rank, n, i + 1, r.target, r.wait, building', dep', m, k);
    }
  }

  /** What is found can be started. */
  lemma FoundStartable(g: Graph, rank: Id -> nat, n: Id, target: Option<Id>, wait: bool)
    requires Sound(g, rank) && n in g && Find(g, rank, n, target, wait).node.Some?
    ensures Startable(g, rank, n, Find(g, rank, n, target, wait).node.value)
  {
    hide Under, Shaped, InOrder;
    FindResult(g, rank, n, target, wait);
    var r := Find(g, rank, n, target, wait);
    var m := r.node.value;
    if m != n && g[m].kind.File? {
      var p :| p in g && Under(g, rank, n, p) && Belongs(g, p, m, r.target);
      assert Own(g, p, m);
    }
  }

  /** The search finds a node exactly if some node can be started. */
  lemma FindExact(g: Graph, rank: Id -> nat, n: Id, target: Option<Id>, wait: bool)
    requires Sound(g, rank) && n in g
    ensures Find(g, rank, n, target, wait).node.Some? <==> exists m :: Startable(g, rank, n, m)
  {
    hide Acyclic, Shaped, InOrder, Single, Startable, Find;
    if Find(g, rank, n, target, wait).node.Some? {
      FoundStartable(g, rank, n, target, wait);
    }
    if m :| Startable(g, rank, n, m) {
      FindAll(g, rank, n, target, wait, m);
    }
  }

  // ------------------------------------------------------------- the order

  /** No node that can be started lies below the first `k` children. */
  ghost predicate NoneBefore(g: Graph, rank: Id -> nat, n: Id, k: nat)
    requires Acyclic(g, rank) && n in g
  {
    forall i, m :: 0 <= i < k && i < |g[n].children| && g[n].children[i] in g && Under(g, rank, g[n].children[i], m) && m != n ==>
      !Startable(g, rank, n, m)
  }

  lemma NoneBelow(g: Graph, rank: Id -> nat, n: Id, i: nat, target: Option<Id>, wait: bool, dep: bool, m: Id)
    requires Sound(g, rank) && n in g && i < |g[n].children| && g[n].children[i] in g && (dep ==> !DepsBuilt(g, n))
    requires var c := g[n].children[i];
      || ((dep || (IsDep(g[c]) && Level(g[c].status) < 3)) && !IsDep(g[c])) || Level(g[c].status) >= 2
      || Find(g, rank, c, target, wait).node.None?
    requires Under(g, rank, g[n].children[i], m) && m != n
    ensures !Startable(g, rank, n, m)
  {
    hide Shaped, InOrder, Single, Startable, Find;
    if Startable(g, rank, n, m) {
      StartableChild(g, rank, n, i, m, dep);
      if Find(g, rank, g[n].children[i], target, wait).node.None? { FindAll(g, rank, g[n].children[i], target, wait, m); }
    }
  }

  /** The children are searched in their order, and the node itself comes last: what is found lies
      below a child before which nothing can be started, or is the node itself and nothing below can be. */
  lemma {:induction false} ScanFirst(g: Graph, rank: Id -> nat, n: Id, i: nat, target: Option<Id>, wait: bool, building: bool, dep: bool)
    requires Sound(g, rank) && n in g && i <= |g[n].children| && (dep ==> !DepsBuilt(g, n)) && NoneBefore(g, rank, n, i)
    requires Scan(g, rank, n, i, target, wait, building, dep).node.Some?
    ensures var m := Scan(g, rank, n, i, target, wait, building, dep).node.value;
      if m == n then NoneBefore(g, rank, n, |g[n].children|)
      else exists k :: i <= k < |g[n].children| && g[n].children[k] in g && Under(g, rank, g[n].children[k], m) && NoneBefore(g, rank, n, k)
    decreases |g[n].children| - i
  {
    hide Shaped, InOrder, Single, Startable, Under;
    if i < |g[n].children| {
      ChildFacts(g, rank, n, i);
      var c := g[n].children[i];
      var building' := building || Level(g[c].status) < 3;
      var dep' := dep || (IsDep(g[c]) && Level(g[c].status) < 3);
      var skip := (dep' && !IsDep(g[c])) || Level(g[c].status) >= 2;
      var r := Find(g, rank, c, target, wait);
      if skip || r.node.None? {
        forall m | Under(g, rank, c, m) && m != n ensures !Startable(g, rank, n, m) { NoneBelow(g, rank, n, i, target, wait, dep, m); }
        if skip { ScanFirst(g, rank, n, i + 1, target, wait, building', dep'); }
        else { ScanFirst(g, rank, n, i + 1, r.target, r.wait, building', dep'); }
      } else {
        FindResult(g, rank, c, target, wait);
        RankBelow(g, rank, c, r.node.value);
      }
    }
  }

  lemma RankBelow(g: Graph, rank: Id -> nat, n: Id, m: Id)
    requires Acyclic(g, rank) && n in g && Under(g, rank, n, m)
    ensures rank(m) <= rank(n)
  {
    UnderIn(g, rank, n, m);
  }

  /** The search goes through the tree depth first, children before their parent and in their order. */
  lemma FindFirst(g: Graph, rank: Id -> nat, n: Id, target: Option<Id>, wait: bool)
    requires Sound(g, rank) && n in g && Find(g, rank, n, target, wait).node.Some?
    ensures var m := Find(g, rank, n, target, wait).node.value;
      if m == n then NoneBefore(g, rank, n, |g[n].children|)
      else exists k :: 0 <= k < |g[n].children| && g[n].children[k] in g && Under(g, rank, g[n].children[k], m) && NoneBefore(g, rank, n, k)
  {
    hide Acyclic, Shaped, InOrder, Single, Startable, Under;
    if g[n].children != [] {
      ScanFirst(g, rank, n, 0, if g[n].kind.Target? then Some(n) else target, wait, false, false);
    }
  }
}
