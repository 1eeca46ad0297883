/** The search for a node that can be built next. */
module SchSearch {
  import opened Common
  import opened SchTree

  /** The node found, the target last seen on the way, and whether the caller has to wait. */
  datatype Search = Search(node: Option<Id>, target: Option<Id>, wait: bool)

  /** `findAGoodNode`. */
  ghost function Find(g: Graph, rank: Id -> nat, n: Id, target: Option<Id>, wait: bool): Search
    requires Acyclic(g, rank) && n in g
    decreases rank(n), |g[n].children| + 1
  {
    if Level(g[n].status) >= 2 then Search(None, target, wait)
    else
      var t := if g[n].kind.Target? then Some(n) else target;
      if g[n].children == [] then Search(Some(n), t, wait) else Scan(g, rank, n, 0, t, wait, false, false)
  }

  /** Its loop over the children, from child `i` on. */
  ghost function Scan(g: Graph, rank: Id -> nat, n: Id, i: nat, target: Option<Id>, wait: bool, building: bool, dep: bool): Search
    requires Acyclic(g, rank) && n in g && i <= |g[n].children|
    decreases rank(n), |g[n].children| - i
  {
    if i == |g[n].children| then
      if g[n].kind.FakeRoot? || g[n].kind.Hook? then Search(None, target, wait)
      else if building then Search(None, target, true)
      else Search(Some(n), target, wait)
    else
      var c := g[n].children[i];
      assert ChildrenOk(g, rank, n) && c in g[n].children;
      var building' := building || Level(g[c].status) < 3;
      var dep' := dep || (IsDep(g[c]) && Level(g[c].status) < 3);
      if (dep' && !IsDep(g[c])) || Level(g[c].status) >= 2 then Scan(g, rank, n, i + 1, target, wait, building', dep')
      else
        var r := Find(g, rank, c, target, wait);
        if r.node.Some? then r else Scan(g, rank, n, i + 1, r.target, r.wait, building', dep')
  }

  // ------------------------------------------------------------- what is found

  /** A node that may be built now. */
  ghost predicate Ready(g: Graph, m: Id) {
    m in g && Level(g[m].status) < 2 && !g[m].kind.FakeRoot? && forall c :: c in g[m].children && c in g ==> g[c].status == Built
  }

  ghost predicate SomeBuilding(g: Graph, rank: Id -> nat, n: Id)
    requires Acyclic(g, rank) && n in g
  {
    exists b :: b in g && Under(g, rank, n, b) && g[b].status == Building
  }

  /** How the reported target fits a node `m` found among the children of `p`. */
  ghost predicate Belongs(g: Graph, p: Id, m: Id, target: Option<Id>)
    requires p in g && m in g
  {
    && m in g[p].children
    && (g[m].kind.File? ==> (g[p].kind.Target? ==> target == Some(p)) && forall c :: c in g[p].children && c in g && IsDep(g[c]) ==> g[c].status == Built)
    && (g[m].kind.Hook? && g[p].kind.Target? ==>
        (target == Some(p) <==> forall c :: c in g[p].children && c in g && g[c].kind.Target? ==> Level(g[c].status) >= 2))
  }

  /** The result of a search from `n`. */
  ghost predicate Result(g: Graph, rank: Id -> nat, n: Id, target: Option<Id>, wait: bool, r: Search)
    requires Acyclic(g, rank) && n in g
  {
    && (wait ==> r.wait)
    && match r.node
      case Some(m) =>
        && Ready(g, m) && Under(g, rank, n, m)
        && (g[m].kind.Target? ==> r.target == Some(m))
        && (m != n ==> g[m].kind.Target? || exists p {:trigger g[p]} :: p in g && Under(g, rank, n, p) && Belongs(g, p, m, r.target))
        && (m == n && !g[m].kind.Target? ==> r.target == target)
      case None =>
        && (Level(g[n].status) < 2 && !g[n].kind.FakeRoot? ==> SomeBuilding(g, rank, n) && r.wait)
        && (r.wait && !wait ==> SomeBuilding(g, rank, n))
        && (Level(g[n].status) < 2 && g[n].kind.Target? ==> exists x :: r.target == Some(x) && Under(g, rank, n, x))
        && (Level(g[n].status) >= 2 ==> r == Search(None, target, wait))
        && (g[n].kind.FakeRoot? && !r.wait ==> forall c :: c in g[n].children && c in g ==> Level(g[c].status) >= 2)
  }

  /** Some of the first `i` children is not built; some dependency or hook among them is not. */
  ghost predicate Unbuilt(g: Graph, l: seq<Id>, i: nat) {
    exists k :: 0 <= k < i && k < |l| && l[k] in g && Level(g[l[k]].status) < 3
  }

  ghost predicate UnbuiltDep(g: Graph, l: seq<Id>, i: nat) {
    exists k :: 0 <= k < i && k < |l| && l[k] in g && IsDep(g[l[k]]) && Level(g[l[k]].status) < 3
  }

  /** All targets among the first `i` children have been started. */
  ghost predicate Started(g: Graph, l: seq<Id>, i: nat) {
    forall k :: 0 <= k < i && k < |l| && l[k] in g && g[l[k]].kind.Target? ==> Level(g[l[k]].status) >= 2
  }

  /** What is known after the first `i` children have been scanned without success. */
  ghost predicate Scanned(g: Graph, rank: Id -> nat, n: Id, i: nat, target: Option<Id>, wait0: bool, wait: bool, building: bool, dep: bool)
    requires Acyclic(g, rank) && n in g
  {
    var l := g[n].children;
    && i <= |l| && (wait0 ==> wait) && (wait && !wait0 ==> SomeBuilding(g, rank, n))
    && (building <==> Unbuilt(g, l, i)) && (dep <==> UnbuiltDep(g, l, i))
    && (building ==> SomeBuilding(g, rank, n))
    && (g[n].kind.Target? ==> exists x :: target == Some(x) && Under(g, rank, n, x))
    && (g[n].kind.Target? ==> (target == Some(n) <==> Started(g, l, i)))
    && (g[n].kind.FakeRoot? && !wait ==> forall k :: 0 <= k < i && l[k] in g ==> Level(g[l[k]].status) >= 2)
    && (forall k :: 0 <= k < i && l[k] in g && !IsDep(g[l[k]]) && Level(g[l[k]].status) < 2 ==> dep)
  }

  lemma {:induction false} FindResult(g: Graph, rank: Id -> nat, n: Id, target: Option<Id>, wait: bool)
    requires Sound(g, rank) && n in g
    ensures Result(g, rank, n, target, wait, Find(g, rank, n, target, wait))
    decreases rank(n), |g[n].children| + 1
  {
    if Level(g[n].status) < 2 {
      var t := if g[n].kind.Target? then Some(n) else target;
      assert g[n].kind.Target? ==> t == Some(n) && Under(g, rank, n, n);
      if g[n].children != [] {
        ScanResult(g, rank, n, 0, target, t, wait, wait, false, false);
      }
    }
  }

  lemma ChildUnder(g: Graph, rank: Id -> nat, n: Id, i: nat, m: Id)
    requires Acyclic(g, rank) && n in g && i < |g[n].children|
    ensures var c := g[n].children[i]; c in g && rank(c) < rank(n) && (Under(g, rank, c, m) ==> Under(g, rank, n, m))
  {
    var c := g[n].children[i];
    assert c in g[n].children && ChildrenOk(g, rank, n);
  }

  lemma LiftBuilding(g: Graph, rank: Id -> nat, n: Id, i: nat)
    requires Acyclic(g, rank) && n in g && i < |g[n].children|
    ensures g[n].children[i] in g && (SomeBuilding(g, rank, g[n].children[i]) ==> SomeBuilding(g, rank, n))
    ensures g[n].children[i] in g && (g[g[n].children[i]].status == Building ==> SomeBuilding(g, rank, n))
  {
    var c := g[n].children[i];
    ChildUnder(g, rank, n, i, c);
    if SomeBuilding(g, rank, c) {
      var b :| b in g && Under(g, rank, c, b) && g[b].status == Building;
      ChildUnder(g, rank, n, i, b);
    }
  }

  lemma OneMore(g: Graph, l: seq<Id>, i: nat)
    requires i < |l| && l[i] in g
    ensures Unbuilt(g, l, i + 1) <==> Unbuilt(g, l, i) || Level(g[l[i]].status) < 3
    ensures UnbuiltDep(g, l, i + 1) <==> UnbuiltDep(g, l, i) || (IsDep(g[l[i]]) && Level(g[l[i]].status) < 3)
    ensures UnbuiltDep(g, l, i) ==> Unbuilt(g, l, i)
    ensures Started(g, l, i + 1) <==> Started(g, l, i) && (g[l[i]].kind.Target? ==> Level(g[l[i]].status) >= 2)
  {
    if Unbuilt(g, l, i) { var k :| 0 <= k < i && l[k] in g && Level(g[l[k]].status) < 3; }
    if UnbuiltDep(g, l, i) { var k :| 0 <= k < i && l[k] in g && IsDep(g[l[k]]) && Level(g[l[k]].status) < 3; }
  }

  /** A child that is passed over. */
  lemma ScanPass(g: Graph, rank: Id -> nat, n: Id, i: nat, target: Option<Id>, wait0: bool, wait: bool, building: bool, dep: bool)
    requires Sound(g, rank) && n in g && i < |g[n].children|
    requires Scanned(g, rank, n, i, target, wait0, wait, building, dep)
    requires g[n].children[i] in g && ((!IsDep(g[g[n].children[i]]) && dep) || Level(g[g[n].children[i]].status) >= 2)
    ensures var c := g[n].children[i];
      Scanned(g, rank, n, i + 1, target, wait0, wait, building || Level(g[c].status) < 3, dep || (IsDep(g[c]) && Level(g[c].status) < 3))
  {
    hide Under, SomeBuilding, Unbuilt, UnbuiltDep, Started, InOrder, Acyclic, Arranged;
    LiftBuilding(g, rank, n, i);
    OneMore(g, g[n].children, i);
    InList(g[n].children, i);
    assert Shaped(g, g[n]);
  }

  lemma InList(l: seq<Id>, i: nat)
    requires i < |l|
    ensures l[i] in l
  {
  }

  /** A child under which nothing can be built now. */
  lemma ScanMiss(g: Graph, rank: Id -> nat, n: Id, i: nat, target: Option<Id>, wait0: bool, wait: bool, building: bool, dep: bool, r: Search)
    requires Sound(g, rank) && n in g && i < |g[n].children|
    requires Scanned(g, rank, n, i, target, wait0, wait, building, dep)
    requires var c := g[n].children[i]; c in g && Level(g[c].status) < 2 && g[c].kind.Target?
    requires r.node == None && Result(g, rank, g[n].children[i], target, wait, r)
    ensures Scanned(g, rank, n, i + 1, r.target, wait0, r.wait, true, true)
  {
    hide Under, SomeBuilding, Unbuilt, UnbuiltDep, Started, InOrder, Acyclic, Arranged, Shaped;
    var c := g[n].children[i];
    var x :| r.target == Some(x) && Under(g, rank, c, x);
    UnderIn(g, rank, c, x);
    ChildUnder(g, rank, n, i, x);
    LiftBuilding(g, rank, n, i);
    OneMore(g, g[n].children, i);
  }

  /** A child under which a node has been found. */
  lemma ScanHit(g: Graph, rank: Id -> nat, n: Id, i: nat, target0: Option<Id>, target: Option<Id>,
                wait0: bool, wait: bool, building: bool, dep: bool, r: Search)
    requires Sound(g, rank) && n in g && i < |g[n].children|
    requires Scanned(g, rank, n, i, target, wait0, wait, building, dep)
    requires var c := g[n].children[i]; c in g && (!IsDep(g[c]) ==> !dep)
    requires r.node.Some? && Result(g, rank, g[n].children[i], target, wait, r)
    ensures Result(g, rank, n, target0, wait0, r)
  {
    var c, m := g[n].children[i], r.node.value;
    UnderIn(g, rank, c, m);
    ChildUnder(g, rank, n, i, m);
    if m == c {
      if !g[m].kind.Target? { HitChild(g, rank, n, i, target, dep); }
    } else if !g[m].kind.Target? {
      var p :| p in g && Under(g, rank, c, p) && Belongs(g, p, m, r.target);
      ChildUnder(g, rank, n, i, p);
    }
  }

  lemma HitChild(g: Graph, rank: Id -> nat, n: Id, i: nat, target: Option<Id>, dep: bool)
    requires Acyclic(g, rank) && n in g && i < |g[n].children| && Shaped(g, g[n])
    requires dep <==> UnbuiltDep(g, g[n].children, i)
    requires g[n].kind.Target? ==> (target == Some(n) <==> Started(g, g[n].children, i))
    requires var c := g[n].children[i]; c in g && !g[c].kind.Target? && (!IsDep(g[c]) ==> !dep)
    ensures Under(g, rank, n, n) && Belongs(g, n, g[n].children[i], target)
  {
    hide Under, Acyclic;
    UnderSelf(g, rank, n);
    Unfold(g, rank, n);
    var l, c := g[n].children, g[n].children[i];
    LaterChildren(g, n, i);
    if !IsDep(g[c]) {
      forall d | d in l && d in g && IsDep(g[d]) ensures g[d].status == Built {
        var k :| 0 <= k < |l| && l[k] == d;
      }
    }
  }

  lemma Unfold(g: Graph, rank: Id -> nat, n: Id)
    requires Acyclic(g, rank) && n in g
    ensures ChildrenOk(g, rank, n)
  {
  }

  lemma LaterChildren(g: Graph, n: Id, i: nat)
    requires n in g && i < |g[n].children| && Shaped(g, g[n]) && forall c :: c in g[n].children ==> c in g
    ensures var l := g[n].children; forall k {:trigger l[k]} :: i < k < |l| ==> Order(g[l[k]]) >= Order(g[l[i]])
  {
  }

  lemma UnderSelf(g: Graph, rank: Id -> nat, n: Id)
    requires Acyclic(g, rank) && n in g
    ensures Under(g, rank, n, n)
  {
  }

  lemma {:induction false} ScanResult(g: Graph, rank: Id -> nat, n: Id, i: nat, target0: Option<Id>, target: Option<Id>,
                                      wait0: bool, wait: bool, building: bool, dep: bool)
    requires Sound(g, rank) && n in g && Level(g[n].status) < 2 && i <= |g[n].children| && g[n].children != []
    requires Scanned(g, rank, n, i, target, wait0, wait, building, dep)
    ensures Result(g, rank, n, target0, wait0, Scan(g, rank, n, i, target, wait, building, dep))
    decreases rank(n), |g[n].children| - i
  {
    hide Scanned, Result, Under, SomeBuilding, Shaped, InOrder;
    if i == |g[n].children| {
      ScanEnd(g, rank, n, target0, target, wait0, wait, building, dep);
    } else {
      var c := g[n].children[i];
      ChildUnder(g, rank, n, i, c);
      var building' := building || Level(g[c].status) < 3;
      var dep' := dep || (IsDep(g[c]) && Level(g[c].status) < 3);
      if (dep' && !IsDep(g[c])) || Level(g[c].status) >= 2 {
        ScanPass(g, rank, n, i, target, wait0, wait, building, dep);
        ScanResult(g, rank, n, i + 1, target0, target, wait0, wait, building', dep');
      } else {
        var r := Find(g, rank, c, target, wait);
        FindResult(g, rank, c, target, wait);
        if r.node.Some? {
          ScanHit(g, rank, n, i, target0, target, wait0, wait, building, dep, r);
        } else {
          LeafFound(g, rank, n, i, target, wait);
          ScanMiss(g, rank, n, i, target, wait0, wait, building, dep, r);
          ScanResult(g, rank, n, i + 1, target0, r.target, wait0, r.wait, building', dep');
        }
      }
    }
  }

  /** Only under a target can a search fail. */
  lemma LeafFound(g: Graph, rank: Id -> nat, n: Id, i: nat, target: Option<Id>, wait: bool)
    requires Sound(g, rank) && n in g && i < |g[n].children| && g[n].children[i] in g
    requires var c := g[n].children[i]; Level(g[c].status) < 2 && Find(g, rank, c, target, wait).node == None
    ensures g[g[n].children[i]].kind.Target?
  {
    var c := g[n].children[i];
    assert c in g[n].children && Shaped(g, g[c]) && Shaped(g, g[n]);
  }

  lemma ScanEnd(g: Graph, rank: Id -> nat, n: Id, target0: Option<Id>, target: Option<Id>, wait0: bool, wait: bool, building: bool, dep: bool)
    requires Sound(g, rank) && n in g && Level(g[n].status) < 2 && g[n].children != []
    requires Scanned(g, rank, n, |g[n].children|, target, wait0, wait, building, dep)
    ensures Result(g, rank, n, target0, wait0, Scan(g, rank, n, |g[n].children|, target, wait, building, dep))
  {
    assert Shaped(g, g[n]) && ChildrenOk(g, rank, n);
    assert Under(g, rank, n, n);
    hide Under, SomeBuilding;
  }

  // ------------------------------------------------------------- what is left

  /** Some node under `n` has not been started. */
  ghost predicate SomeLeft(g: Graph, rank: Id -> nat, n: Id)
    requires Acyclic(g, rank) && n in g
  {
    exists m :: m in g && Under(g, rank, n, m) && Level(g[m].status) < 2 && !g[m].kind.FakeRoot?
  }

  lemma LiftLeft(g: Graph, rank: Id -> nat, n: Id, i: nat)
    requires Acyclic(g, rank) && n in g && i < |g[n].children|
    ensures g[n].children[i] in g && (SomeLeft(g, rank, g[n].children[i]) ==> SomeLeft(g, rank, n))
  {
    var c := g[n].children[i];
    ChildUnder(g, rank, n, i, c);
    if SomeLeft(g, rank, c) {
      var m :| m in g && Under(g, rank, c, m) && Level(g[m].status) < 2 && !g[m].kind.FakeRoot?;
      ChildUnder(g, rank, n, i, m);
    }
  }

  /** A search without success asks to wait only if something is left to start. */
  lemma {:induction false} FindLeft(g: Graph, rank: Id -> nat, n: Id, target: Option<Id>, wait: bool)
    requires Acyclic(g, rank) && n in g
    ensures var r := Find(g, rank, n, target, wait); r.node.None? && r.wait ==> wait || SomeLeft(g, rank, n)
    decreases rank(n), |g[n].children| + 1
  {
    hide SomeLeft, Under;
    if Level(g[n].status) < 2 && g[n].children != [] {
      ScanLeft(g, rank, n, 0, if g[n].kind.Target? then Some(n) else target, wait, false, false);
    }
  }

  lemma {:induction false} ScanLeft(g: Graph, rank: Id -> nat, n: Id, i: nat, target: Option<Id>, wait: bool, building: bool, dep: bool)
    requires Acyclic(g, rank) && n in g && i <= |g[n].children| && Level(g[n].status) < 2
    ensures var r := Scan(g, rank, n, i, target, wait, building, dep); r.node.None? && r.wait ==> wait || SomeLeft(g, rank, n)
    decreases rank(n), |g[n].children| - i
  {
    hide SomeLeft, Under;
    if i == |g[n].children| {
      SelfLeft(g, rank, n);
    } else {
      var c := g[n].children[i];
      ChildUnder(g, rank, n, i, c);
      var building' := building || Level(g[c].status) < 3;
      var dep' := dep || (IsDep(g[c]) && Level(g[c].status) < 3);
      if (dep' && !IsDep(g[c])) || Level(g[c].status) >= 2 {
        ScanLeft(g, rank, n, i + 1, target, wait, building', dep');
      } else {
        var r := Find(g, rank, c, target, wait);
        FindLeft(g, rank, c, target, wait);
        LiftLeft(g, rank, n, i);
        if r.node.None? { ScanLeft(g, rank, n, i + 1, r.target, r.wait, building', dep'); }
      }
    }
  }

  lemma SelfLeft(g: Graph, rank: Id -> nat, n: Id)
    requires Acyclic(g, rank) && n in g && Level(g[n].status) < 2
    ensures g[n].kind.FakeRoot? || SomeLeft(g, rank, n)
  {
    UnderSelf(g, rank, n);
  }

  // ------------------------------------------------------------- the main results

  /** A search that finds nothing has a reason: it asks to wait exactly while some node under
      the root is being built, or else nothing is left to start. */
  lemma SearchEnds(g: Graph, rank: Id -> nat, root: Id)
    requires Sound(g, rank) && root in g
    ensures var r := Find(g, rank, root, None, false);
      && (r.node == None && r.wait ==> SomeBuilding(g, rank, root))
      && (r.node == None && !r.wait ==> forall m :: Under(g, rank, root, m) ==>
           m in g && (Level(g[m].status) >= 2 || (m == root && g[m].kind.FakeRoot?)))
  {
    var r := Find(g, rank, root, None, false);
    FindResult(g, rank, root, None, false);
    if r.node == None && !r.wait {
      forall m | Under(g, rank, root, m) ensures m in g && (Level(g[m].status) >= 2 || (m == root && g[m].kind.FakeRoot?)) {
        UnderIn(g, rank, root, m);
        if Level(g[root].status) >= 2 {
          AllBuilt(g, rank, root, m);
        } else if m != root {
          var c :| c in g[root].children && c in g && rank(c) < rank(root) && Under(g, rank, c, m);
          AllBuilt(g, rank, c, m);
        }
      }
    }
  }

  /** `m` is a file of target `p`, all of whose dependencies, and whose hook, are built. */
  ghost predicate FileOf(g: Graph, p: Id, m: Id) {
    p in g && g[p].kind.Target? && m in g[p].children && DepsBuilt(g, p)
  }

  /** A node that has been found can be built: all it depends on is built. A file is found
      only when every dependency and the hook of its target are built, and then that target is
      the one reported; a target is reported as itself. */
  lemma SearchFinds(g: Graph, rank: Id -> nat, root: Id)
    requires Sound(g, rank) && root in g && !g[root].kind.File? && !g[root].kind.Hook?
    requires Find(g, rank, root, None, false).node.Some?
    ensures var r := Find(g, rank, root, None, false); var m := r.node.value;
      && Ready(g, m) && Under(g, rank, root, m)
      && (g[m].kind.Target? ==> r.target == Some(m))
      && (g[m].kind.File? ==> r.target.Some? && FileOf(g, r.target.value, m))
  {
    hide Under;
    var r := Find(g, rank, root, None, false);
    FindResult(g, rank, root, None, false);
    if g[r.node.value].kind.File? {
      var m := r.node.value;
      var p :| p in g && Under(g, rank, root, p) && Belongs(g, p, m, r.target);
      assert Shaped(g, g[p]);
    }
  }

  /** `m` is the hook of target `p`. */
  ghost predicate HookOf(g: Graph, p: Id, m: Id) {
    Own(g, p, m) && g[p].kind.Target? && g[m].kind.Hook?
  }

  ghost predicate DepsStarted(g: Graph, p: Id)
    requires p in g
  {
    forall c :: c in g[p].children && c in g && g[c].kind.Target? ==> Level(g[c].status) >= 2
  }

  /** A hook that is found belongs to exactly one target, and is reported with that target
      exactly when all the target's dependencies are being built or built; otherwise a dependency
      takes its place. */
  lemma HookTarget(g: Graph, rank: Id -> nat, root: Id)
    requires Sound(g, rank) && root in g && !g[root].kind.File? && !g[root].kind.Hook?
    requires Find(g, rank, root, None, false).node.Some?
    ensures var r := Find(g, rank, root, None, false); var m := r.node.value;
      m in g && (g[m].kind.Hook? ==>
        && (exists p: Id :: HookOf(g, p, m)) && (forall p: Id, q: Id :: HookOf(g, p, m) && HookOf(g, q, m) ==> p == q)
        && forall p: Id :: HookOf(g, p, m) ==> (r.target == Some(p) <==> DepsStarted(g, p)))
  {
    hide Under;
    var r := Find(g, rank, root, None, false);
    FindResult(g, rank, root, None, false);
    if g[r.node.value].kind.Hook? {
      var m := r.node.value;
      var p :| p in g && Under(g, rank, root, p) && Belongs(g, p, m, r.target);
      assert Shaped(g, g[p]);
      assert HookOf(g, p, m);
    }
  }

  /** Target 0 depends on target 1, whose only file is being compiled, and has a hook, 2. */
  ghost function Misled(): Graph {
    map[0 := Node("app", Target(false), Pristine, [1, 2], [Known(1)], ["main.cpp"]),
        1 := Node("lib", Target(false), Expanded, [3], [], ["lib.cpp"]),
        2 := Node("<hook>", Hook, Pristine, [], [], []),
        3 := Node("lib.cpp", File, Building, [], [], [])]
  }

  ghost function MisledRank(n: Id): nat {
    if n == 0 then 2 else if n == 1 then 1 else 0
  }

  lemma MisledSound()
    ensures Sound(Misled(), MisledRank)
  {
    hide Shaped, ChildrenOk, InOrder, Misled;
    var g := Misled();
    MisledNodes();
    forall n | n in g ensures ChildrenOk(g, MisledRank, n) && Shaped(g, g[n]) && InOrder(g, g[n]) {
      MisledNode(n);
    }
    MisledSingle();
  }

  lemma MisledSingle()
    ensures Single(Misled())
  {
    forall p, c | Own(Misled(), p, c) ensures p == if c == 2 then 0 else 1 { }
  }

  lemma MisledNodes()
    ensures Misled().Keys == {0, 1, 2, 3}
    ensures forall n {:trigger Misled()[n]} :: n in Misled() && (Misled()[n].kind.Target? || Misled()[n].kind.FakeRoot?) ==> MisledRank(n) >= 1
  {
  }

  lemma MisledNode(n: Id)
    requires n in Misled()
    ensures ChildrenOk(Misled(), MisledRank, n) && Shaped(Misled(), Misled()[n]) && InOrder(Misled(), Misled()[n])
  {
    if n == 0 {
      assert Misled()[n].children == [1, 2];
    } else if n == 1 {
      assert Misled()[n].children == [3];
    }
  }

  lemma MisledDep(g: Graph)
    requires g == Misled() && Acyclic(g, MisledRank)
    ensures Find(g, MisledRank, 1, Some(0), false) == Search(None, Some(1), true)
  {
    assert Scan(g, MisledRank, 1, 1, Some(1), false, true, false) == Search(None, Some(1), true);
  }

  /** The hook of target 0 is found, but reported with target 1. */
  lemma HookMisreported()
    ensures Sound(Misled(), MisledRank) && Find(Misled(), MisledRank, 0, None, false) == Search(Some(2), Some(1), true)
  {
    hide Sound;
    var g := Misled();
    MisledSound();
    SoundAcyclic(g, MisledRank);
    MisledDep(g);
    assert Find(g, MisledRank, 2, Some(1), true) == Search(Some(2), Some(1), true);
    assert Scan(g, MisledRank, 0, 1, Some(1), true, true, true) == Search(Some(2), Some(1), true);
  }

  lemma SoundAcyclic(g: Graph, rank: Id -> nat)
    requires Sound(g, rank)
    ensures Acyclic(g, rank)
  {
  }
}
