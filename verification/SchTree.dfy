/** The dependency graph of a build: nodes, their states and the invariant of the graph. */
module SchTree {
  type Id = nat

  datatype Status = Pristine | Expanded | Building | Built

  function Level(s: Status): nat {
    match s
    case Pristine => 0
    case Expanded => 1
    case Building => 2
    case Built => 3
  }

  /** Targets are compiled from files or, if custom, run a function; a hook belongs to one
      target; the fake root joins several trees. Hooks and the root are the `isFake` nodes. */
  datatype Kind = Target(custom: bool) | Hook | File | FakeRoot

  /** A dependency as the build script names it. */
  datatype Dep = Known(id: Id) | Unknown(name: string)

  /** `deps` and `files` are what the build script lists for a target. */
  datatype Node = Node(name: string, kind: Kind, status: Status, children: seq<Id>, deps: seq<Dep>, files: seq<string>)

  /** No target has the name of one of the dependencies. */
  predicate Lacks(n: Node) {
    exists d :: d in n.deps && d.Unknown?
  }

  type Graph = map<Id, Node>

  /** A dependency or the hook of a target. */
  predicate IsDep(n: Node) {
    n.kind.Target? || n.kind.Hook?
  }

  /** Dependencies come first among the children, then the hook, then the files. */
  function Order(n: Node): nat {
    match n.kind
    case Target(_) => 0
    case Hook => 1
    case _ => 2
  }

  /** The children of a node exist and have a lower rank. */
  ghost predicate ChildrenOk(g: Graph, rank: Id -> nat, n: Id)
    requires n in g
  {
    forall c {:trigger c in g[n].children} :: c in g[n].children ==> c in g && rank(c) < rank(n)
  }

  ghost predicate Acyclic(g: Graph, rank: Id -> nat) {
    forall n {:trigger g[n]} :: n in g ==> ChildrenOk(g, rank, n)
  }

  ghost predicate Arranged(g: Graph, l: seq<Id>) {
    forall i, j :: 0 <= i < j < |l| && l[i] in g && l[j] in g ==> Order(g[l[i]]) <= Order(g[l[j]])
  }

  /** What the children of a node of each kind are. */
  ghost predicate Shaped(g: Graph, n: Node) {
    && (forall c {:trigger g[c]} :: c in n.children && c in g ==> !g[c].kind.FakeRoot?)
    && Arranged(g, n.children)
    && match n.kind
      case Target(_) =>
        && (n.status == Pristine ==> forall c :: c in n.children && c in g ==> IsDep(g[c]))
        && (forall d: Id {:trigger Known(d)} :: Known(d) in n.deps ==> d in n.children && d in g && g[d].kind.Target?)
      case FakeRoot => n.children != [] && Level(n.status) < 2 && forall c :: c in n.children && c in g ==> g[c].kind.Target?
      case _ => n.children == [] && n.status != Expanded
  }

  /** A node is built only after everything it depends on. */
  ghost predicate InOrder(g: Graph, n: Node) {
    Level(n.status) >= 2 ==> forall c :: c in n.children && c in g ==> g[c].status == Built
  }

  /** A file or hook among the children of `p`. */
  ghost predicate Own(g: Graph, p: Id, c: Id) {
    p in g && c in g && c in g[p].children && !g[c].kind.Target?
  }

  /** The dependencies and the hook of a target are built. */
  ghost predicate DepsBuilt(g: Graph, p: Id)
    requires p in g
  {
    forall c :: c in g[p].children && c in g && IsDep(g[c]) ==> g[c].status == Built
  }

  /** Files are taken only after the dependencies and the hook of their target are built. */
  ghost predicate FilesLater(g: Graph) {
    forall p, m {:trigger Own(g, p, m)} :: Own(g, p, m) && g[p].kind.Target? && g[m].kind.File? && Level(g[m].status) >= 2 ==> DepsBuilt(g, p)
  }

  /** Files and hooks have one parent. */
  ghost predicate Single(g: Graph) {
    forall p, q, c {:trigger Own(g, p, c), Own(g, q, c)} :: Own(g, p, c) && Own(g, q, c) ==> p == q
  }

  lemma SameSingle(g: Graph, g': Graph)
    requires Single(g) && g.Keys == g'.Keys
    requires forall n :: n in g ==> g'[n].children == g[n].children && g'[n].kind == g[n].kind
    ensures Single(g')
  {
    forall p, q, c | Own(g', p, c) && Own(g', q, c) ensures p == q {
      assert p in g.Keys && q in g.Keys && c in g.Keys;
      assert Own(g, p, c) && Own(g, q, c);
    }
  }

  /** The invariant of the graph. */
  ghost predicate Sound(g: Graph, rank: Id -> nat) {
    && Acyclic(g, rank) && Single(g)
    && (forall n {:trigger g[n]} :: n in g ==> Shaped(g, g[n]) && InOrder(g, g[n]))
    && (forall n {:trigger g[n]} :: n in g && (g[n].kind.Target? || g[n].kind.FakeRoot?) ==> rank(n) >= 1)
  }

  /** `m` is `n` or can be reached from it through children. */
  ghost predicate Under(g: Graph, rank: Id -> nat, n: Id, m: Id)
    requires Acyclic(g, rank) && n in g
    decreases rank(n)
  {
    n == m || exists c :: c in g[n].children && c in g && rank(c) < rank(n) && Under(g, rank, c, m)
  }

  lemma {:induction false} UnderIn(g: Graph, rank: Id -> nat, n: Id, m: Id)
    requires Acyclic(g, rank) && n in g && Under(g, rank, n, m)
    ensures m in g && rank(m) <= rank(n)
    decreases rank(n)
  {
    if n != m {
      var c :| c in g[n].children && c in g && rank(c) < rank(n) && Under(g, rank, c, m);
      UnderIn(g, rank, c, m);
    }
  }

  /** Everything under a node that is being built or is built is built, except that node. */
  lemma {:induction false} AllBuilt(g: Graph, rank: Id -> nat, n: Id, m: Id)
    requires Sound(g, rank) && n in g && Level(g[n].status) >= 2 && Under(g, rank, n, m)
    ensures m in g && (m == n || g[m].status == Built)
    decreases rank(n)
  {
    if n != m {
      var c :| c in g[n].children && c in g && rank(c) < rank(n) && Under(g, rank, c, m);
      assert g[c].status == Built;
      AllBuilt(g, rank, c, m);
    }
  }
}
