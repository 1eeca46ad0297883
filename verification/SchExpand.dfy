/** Expanding a target: its files become nodes. */
module SchExpand {
  import opened Common
  import opened SchTree
  import opened SchSearch

  /** All nodes are older than `next`, and nodes to come have rank 0, like files. */
  ghost predicate Bounded(g: Graph, rank: Id -> nat, next: Id) {
    (forall n :: n in g ==> n < next) && (forall n :: n >= next ==> rank(n) == 0)
  }

  function FileNode(name: string): Node {
    Node(name, File, Pristine, [], [], [])
  }

  /** The files that become nodes; those of a custom target do not, and an unknown dependency
      ends the expansion before. */
  function FilesOf(n: Node): seq<string> {
    if n.kind == Target(false) && !Lacks(n) then n.files else []
  }

  function Numbers(from: Id, n: nat): (l: seq<Id>)
    ensures |l| == n && forall i {:trigger l[i]} :: 0 <= i < n ==> l[i] == from + i
    ensures forall k :: k in l <==> from <= k < from + n
  {
    if n == 0 then [] else Numbers(from, n - 1) + [from + n - 1]
  }

  /** Target `n` expanded, after its first `k` files have become the nodes from `next` on. */
  function Populated(g: Graph, n: Id, next: Id, k: nat): (g': Graph)
    requires n in g && next > n && k <= |g[n].files|
  {
    map id: Id | id in g.Keys + (set i: Id | i in Numbers(next, k)) ::
      if id == n then g[n].(status := Expanded, children := g[n].children + Numbers(next, k))
      else if next <= id < next + k then FileNode(g[n].files[id - next])
      else g[id]
  }

  /** `expandTargetNode` when the known dependencies are expanded already. */
  function Expand(g: Graph, n: Id, next: Id): Graph
    requires n in g && next > n
  {
    Populated(g, n, next, |FilesOf(g[n])|)
  }

  ghost predicate Expandable(g: Graph, rank: Id -> nat, next: Id, n: Id) {
    Sound(g, rank) && Bounded(g, rank, next) && n in g && g[n].kind.Target? && g[n].status == Pristine
  }

  /** A target without file nodes yet. */
  ghost predicate Growable(g: Graph, rank: Id -> nat, next: Id, n: Id) {
    && Sound(g, rank) && Bounded(g, rank, next) && n in g && g[n].kind.Target? && Level(g[n].status) < 2
    && forall c :: c in g[n].children && c in g ==> IsDep(g[c])
  }

  lemma PopulatedSound(g: Graph, rank: Id -> nat, next: Id, n: Id, k: nat)
    requires Growable(g, rank, next, n) && k <= |g[n].files|
    ensures var g' := Populated(g, n, next, k); Sound(g', rank) && Bounded(g', rank, next + k)
  {
    hide Shaped, ChildrenOk, InOrder, Populated;
    var g' := Populated(g, n, next, k);
    PopulatedAt(g, n, next, k);
    forall id | id in g' ensures ChildrenOk(g', rank, id) && InOrder(g', g'[id]) && Shaped(g', g'[id]) {
      if id == n {
        PopulatedTarget(g, rank, next, n, k);
      } else if id in g {
        PopulatedOther(g, rank, next, n, k, id);
      } else {
        assert next <= id < next + k && g'[id] == FileNode(g[n].files[id - next]);
        FileFits(g', rank, id, g[n].files[id - next]);
      }
    }
    forall id | id in g' && (g'[id].kind.Target? || g'[id].kind.FakeRoot?) ensures rank(id) >= 1 {
      assert id in g && g[id].kind == g'[id].kind;
    }
    PopulatedSingle(g, rank, next, n, k);
  }

  lemma PopulatedSingle(g: Graph, rank: Id -> nat, next: Id, n: Id, k: nat)
    requires Growable(g, rank, next, n) && k <= |g[n].files|
    ensures Single(Populated(g, n, next, k))
  {
    hide Shaped, InOrder, Populated;
    var g' := Populated(g, n, next, k);
    PopulatedAt(g, n, next, k);
    forall p, c | Own(g', p, c) ensures if c in g then Own(g, p, c) else p == n {
      if p in g { OldChildren(g, rank, p); }
    }
  }

  lemma PopulatedAt(g: Graph, n: Id, next: Id, k: nat)
    requires n in g && next > n && k <= |g[n].files| && forall id :: id in g ==> id < next
    ensures var g' := Populated(g, n, next, k);
      && (forall id :: id in g' <==> id in g || next <= id < next + k)
      && g'[n] == g[n].(status := Expanded, children := g[n].children + Numbers(next, k))
      && (forall id {:trigger g'[id]} :: id in g && id != n ==> g'[id] == g[id])
      && (forall id {:trigger g'[id]} :: next <= id < next + k ==> g'[id] == FileNode(g[n].files[id - next]))
  {
  }

  lemma FileFits(g: Graph, rank: Id -> nat, id: Id, name: string)
    requires id in g && g[id] == FileNode(name)
    ensures ChildrenOk(g, rank, id) && InOrder(g, g[id]) && Shaped(g, g[id])
  {
  }

  lemma PopulatedTarget(g: Graph, rank: Id -> nat, next: Id, n: Id, k: nat)
    requires Growable(g, rank, next, n) && k <= |g[n].files|
    ensures var g' := Populated(g, n, next, k); ChildrenOk(g', rank, n) && InOrder(g', g'[n]) && Shaped(g', g'[n])
  {
    hide Sound, Populated, Arranged;
    var g' := Populated(g, n, next, k);
    TargetShaped(g, rank, next, n);
    PopulatedAt(g, n, next, k);
    PopulatedChildren(g, rank, next, n, k);
    PopulatedArranged(g', g, g[n].children, Numbers(next, k));
  }

  lemma TargetShaped(g: Graph, rank: Id -> nat, next: Id, n: Id)
    requires Growable(g, rank, next, n)
    ensures Shaped(g, g[n]) && ChildrenOk(g, rank, n) && n < next && forall id :: id in g ==> id < next
  {
  }

  lemma PopulatedChildren(g: Graph, rank: Id -> nat, next: Id, n: Id, k: nat)
    requires Growable(g, rank, next, n) && k <= |g[n].files|
    ensures var g', l := Populated(g, n, next, k), g[n].children; n in g' && forall c :: c in g'[n].children ==>
      && c in g' && rank(c) < rank(n)
      && (if c in l then c in g && g'[c] == g[c] else c in Numbers(next, k) && g'[c] == FileNode(g'[c].name))
  {
    hide Sound, Populated, Shaped, InOrder;
    PopulatedAt(g, n, next, k);
    OldChildren(g, rank, n);
    RankPositive(g, rank, n);
    TargetShaped(g, rank, next, n);
  }

  lemma RankPositive(g: Graph, rank: Id -> nat, n: Id)
    requires Sound(g, rank) && n in g && g[n].kind.Target?
    ensures rank(n) >= 1
  {
  }

  /** Files behind what was arranged already. */
  lemma PopulatedArranged(g': Graph, g: Graph, l: seq<Id>, new_: seq<Id>)
    requires Arranged(g, l) && forall c :: c in l ==> c in g && c in g' && g'[c] == g[c]
    requires forall c :: c in new_ ==> c in g' && g'[c].kind.File?
    ensures Arranged(g', l + new_)
  {
    forall i, j | 0 <= i < j < |l + new_| ensures Order(g'[(l + new_)[i]]) <= Order(g'[(l + new_)[j]]) {
      if j < |l| { assert l[i] in l && l[j] in l; } else if i < |l| { assert l[i] in l && new_[j - |l|] in new_; }
      else { assert new_[i - |l|] in new_ && new_[j - |l|] in new_; }
    }
  }

  lemma PopulatedOther(g: Graph, rank: Id -> nat, next: Id, n: Id, k: nat, id: Id)
    requires Growable(g, rank, next, n) && k <= |g[n].files| && id in g && id != n
    ensures var g' := Populated(g, n, next, k); id in g' && ChildrenOk(g', rank, id) && InOrder(g', g'[id]) && Shaped(g', g'[id])
  {
    hide Populated, Arranged;
    var g' := Populated(g, n, next, k);
    var l := g[id].children;
    assert Shaped(g, g[id]) && ChildrenOk(g, rank, id) && InOrder(g, g[id]);
    TargetShaped(g, rank, next, n);
    PopulatedAt(g, n, next, k);
    forall c | c in l ensures c in g' && c in g && g'[c].kind == g[c].kind && (c != n ==> g'[c] == g[c]) {
    }
    KindsArranged(g, g', l);
  }

  lemma KindsArranged(g: Graph, g': Graph, l: seq<Id>)
    requires Arranged(g, l) && forall c :: c in l ==> c in g && c in g' && g'[c].kind == g[c].kind
    ensures Arranged(g', l)
  {
    forall i, j | 0 <= i < j < |l| ensures Order(g'[l[i]]) <= Order(g'[l[j]]) { assert l[i] in l && l[j] in l; }
  }

  lemma ExpandSound(g: Graph, rank: Id -> nat, next: Id, n: Id)
    requires Expandable(g, rank, next, n)
    ensures Sound(Expand(g, n, next), rank) && Bounded(Expand(g, n, next), rank, next + |FilesOf(g[n])|)
  {
    assert Shaped(g, g[n]);
    PopulatedSound(g, rank, next, n, |FilesOf(g[n])|);
  }

  /** After the expansion of a target that has been found, the search from it finds one of its
      files, or the target itself if it has none. */
  lemma ExpandFinds(g: Graph, rank: Id -> nat, next: Id, n: Id, target: Option<Id>, wait: bool)
    requires Expandable(g, rank, next, n) && Ready(g, n)
    ensures Sound(Expand(g, n, next), rank) && n in Expand(g, n, next)
    ensures var g' := Expand(g, n, next); var r := Find(g', rank, n, target, wait);
      && r.node.Some? && Ready(g', r.node.value) && r.target == Some(n)
      && (if FilesOf(g[n]) == [] then r.node == Some(n) else r.node.value in g'[n].children && g'[r.node.value].kind.File?)
  {
    hide Under, Shaped, InOrder, ChildrenOk, Populated, Result, Find;
    var g' := Expand(g, n, next);
    ExpandSound(g, rank, next, n);
    ExpandedChildren(g, rank, next, n);
    FindResult(g', rank, n, target, wait);
    NothingBuilding(g', rank, n, g[n].children);
    var r := Find(g', rank, n, target, wait);
    ResultFound(g', rank, n, target, wait, r);
    FoundBelow(g', rank, n, r.node.value, g[n].children);
    if r.node.value != n {
      NewIds(g, rank, next, n, r.node.value);
      ReportedTarget(g, rank, next, n, target, wait, r);
    }
  }

  lemma NewIds(g: Graph, rank: Id -> nat, next: Id, n: Id, m: Id)
    requires Expandable(g, rank, next, n) && m in Expand(g, n, next)[n].children && m !in g[n].children
    ensures m !in g
  {
    hide Sound;
  }

  /** The children of an expanded target are its built dependencies and its new files. */
  lemma ExpandedChildren(g: Graph, rank: Id -> nat, next: Id, n: Id)
    requires Expandable(g, rank, next, n) && Ready(g, n)
    ensures var g', old_ := Expand(g, n, next), g[n].children;
      && n in g' && g'[n].status == Expanded && g'[n].kind.Target?
      && (forall c :: c in old_ ==> c in g) && (forall c :: c in old_ && c in g' ==> g'[c].status == Built)
      && (forall c :: c in g'[n].children && c !in old_ && c in g' ==> g'[c].kind.File? && g'[c].status == Pristine)
      && (FilesOf(g[n]) != [] ==> next in g'[n].children && next !in old_ && next in g')
      && (FilesOf(g[n]) == [] ==> g'[n].children == old_)
      && (forall id :: id in g' && id != n ==> (id in g && g'[id] == g[id]) || g'[id].children == [])
  {
    hide Sound, Populated;
    OldChildren(g, rank, n);
    PopulatedAt(g, n, next, |FilesOf(g[n])|);
  }

  lemma ResultFound(g: Graph, rank: Id -> nat, n: Id, target: Option<Id>, wait: bool, r: Search)
    requires Acyclic(g, rank) && n in g && Result(g, rank, n, target, wait, r) && !SomeBuilding(g, rank, n)
    requires g[n].status == Expanded && g[n].kind.Target?
    ensures r.node.Some? && Ready(g, r.node.value) && Under(g, rank, n, r.node.value)
    ensures r.node == Some(n) ==> r.target == Some(n)
  {
  }

  lemma ReportedTarget(g: Graph, rank: Id -> nat, next: Id, n: Id, target: Option<Id>, wait: bool, r: Search)
    requires Expandable(g, rank, next, n) && Ready(g, n) && Sound(Expand(g, n, next), rank) && n in Expand(g, n, next)
    requires Result(Expand(g, n, next), rank, n, target, wait, r) && r.node.Some?
    requires var m := r.node.value; m != n && m in Expand(g, n, next) && Expand(g, n, next)[m].kind.File?
    requires r.node.value !in g
    ensures r.target == Some(n)
  {
    hide Under, Shaped, InOrder, ChildrenOk, Populated;
    var g', m := Expand(g, n, next), r.node.value;
    ExpandedChildren(g, rank, next, n);
    var p :| p in g' && Under(g', rank, n, p) && Belongs(g', p, m, r.target);
    NewFile(g, rank, next, n, g', p, m);
  }

  lemma OldChildren(g: Graph, rank: Id -> nat, n: Id)
    requires Sound(g, rank) && n in g
    ensures n !in g[n].children && forall c :: c in g[n].children ==> c in g
  {
    assert ChildrenOk(g, rank, n);
  }

  /** A new file has one parent. */
  lemma NewFile(g: Graph, rank: Id -> nat, next: Id, n: Id, g': Graph, p: Id, m: Id)
    requires Sound(g, rank) && n in g && p in g' && m in g'[p].children && m !in g
    requires forall id :: id in g' && id != n ==> (id in g && g'[id] == g[id]) || g'[id].children == []
    ensures p == n
  {
    if p != n && p in g { OldChildren(g, rank, p); }
  }

  /** What lies below built dependencies and new files is not being built. */
  lemma NothingBuilding(g: Graph, rank: Id -> nat, n: Id, old_: seq<Id>)
    requires Sound(g, rank) && n in g && g[n].status == Expanded
    requires forall c :: c in old_ && c in g ==> g[c].status == Built
    requires forall c :: c in g[n].children && c !in old_ && c in g ==> g[c].kind.File? && g[c].status == Pristine
    ensures !SomeBuilding(g, rank, n)
  {
    forall b | b in g && Under(g, rank, n, b) ensures g[b].status != Building {
      if b != n {
        var c :| c in g[n].children && c in g && rank(c) < rank(n) && Under(g, rank, c, b);
        if c in old_ { AllBuilt(g, rank, c, b); } else { assert Shaped(g, g[c]); }
      }
    }
  }

  lemma FoundBelow(g: Graph, rank: Id -> nat, n: Id, m: Id, old_: seq<Id>)
    requires Sound(g, rank) && n in g && Under(g, rank, n, m) && Ready(g, m)
    requires forall c :: c in old_ && c in g ==> g[c].status == Built
    requires forall c :: c in g[n].children && c !in old_ && c in g ==> g[c].kind.File?
    ensures m == n || (m in g[n].children && m !in old_ && g[m].kind.File?)
  {
    if m != n {
      var c :| c in g[n].children && c in g && rank(c) < rank(n) && Under(g, rank, c, m);
      if c in old_ { AllBuilt(g, rank, c, m); } else { assert Shaped(g, g[c]); }
    }
  }
}
