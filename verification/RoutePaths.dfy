/** What the route tree is for: full paths, and the list of all of them. */
module RoutePaths {
  import opened RouteTree

  // ---------------------------------------------------------------- full paths

  /** The sub-paths from the root down to a node, one after the other. */
  ghost function SubPaths(n: RouterWrapper, root: RouterWrapper, nodes: set<RouterWrapper>): string
    requires Tree(root, nodes) && n in nodes
    reads nodes
    decreases n.depth
  {
    if n.parent == null then n.subPath else SubPaths(n.parent, root, nodes) + n.subPath
  }

  /** Collapsing slashes at every level comes to collapsing them once, and leaves none doubled. */
  lemma {:induction false} FullPathCollapsesOnce(n: RouterWrapper, root: RouterWrapper, nodes: set<RouterWrapper>)
    requires Tree(root, nodes) && n in nodes
    ensures n.FullPath(root, nodes) == Collapse(SubPaths(n, root, nodes))
    ensures NoDoubleSlash(n.FullPath(root, nodes))
    decreases n.depth
  {
    if n.parent == null {
      OnlyRoot(n, root, nodes);
    } else {
      FullPathCollapsesOnce(n.parent, root, nodes);
      CollapseAppend(SubPaths(n.parent, root, nodes), n.subPath);
    }
    CollapseClean(SubPaths(n, root, nodes));
  }

  lemma OnlyRoot(n: RouterWrapper, root: RouterWrapper, nodes: set<RouterWrapper>)
    requires Tree(root, nodes) && n in nodes
    ensures n.parent == null <==> n == root
    ensures n.parent != null ==> Linked(n, nodes)
  {
    assert n != root ==> Linked(n, nodes);
  }

  /** A sub-path without double or trailing slashes. */
  predicate CleanSubPath(p: string) { ValidSubPath(p) && NoDoubleSlash(p) && p[|p| - 1] != '/' }

  /** All sub-paths on the way from below the root to the node are clean. */
  ghost predicate CleanWay(n: RouterWrapper, root: RouterWrapper, nodes: set<RouterWrapper>)
    requires Tree(root, nodes) && n in nodes
    reads nodes
    decreases n.depth
  {
    n.parent == null || (CleanSubPath(n.subPath) && CleanWay(n.parent, root, nodes))
  }

  lemma {:induction false} TrimRightKeeps(s: string)
    requires s != "" ==> s[|s| - 1] != '/'
    ensures TrimRight(s) == s
  {
  }

  lemma JoinClean(a: string, b: string)
    requires NoDoubleSlash(a) && NoDoubleSlash(b) && (a == "" || a[|a| - 1] != '/')
    ensures NoDoubleSlash(a + b)
  {
    var s := a + b;
    forall i | 0 <= i < |s| - 1 ensures !(s[i] == '/' && s[i + 1] == '/') {
      if i + 1 < |a| {
        assert s[i] == a[i] && s[i + 1] == a[i + 1];
      } else if i >= |a| {
        assert s[i] == b[i - |a|] && s[i + 1] == b[i - |a| + 1];
      }
    }
  }

  /** For clean sub-paths FullPath is the chain of prefixes under which `Add` registered the node. */
  lemma {:induction false} FullPathIsRegisteredPrefix(n: RouterWrapper, root: RouterWrapper, nodes: set<RouterWrapper>)
    requires Tree(root, nodes) && n in nodes && n != root && CleanWay(n, root, nodes)
    requires root.router.prefix == ""
    ensures n.router != null && n.FullPath(root, nodes) == n.router.prefix
    ensures NoDoubleSlash(n.router.prefix) && n.router.prefix != "" && n.router.prefix[|n.router.prefix| - 1] != '/'
    decreases n.depth
  {
    OnlyRoot(n, root, nodes);
    var p := n.parent;
    if p == root {
      assert root.parent == null && root.FullPath(root, nodes) == "/";
      RootChild(n.subPath);
      assert root.router.Template(n.subPath) == "" + n.subPath;
    } else {
      OnlyRoot(p, root, nodes);
      FullPathIsRegisteredPrefix(p, root, nodes);
      TrimRightKeeps(p.router.prefix);
      JoinClean(p.router.prefix, n.subPath);
      CollapseKeeps(p.router.prefix + n.subPath);
    }
  }

  lemma RootChild(p: string)
    requires CleanSubPath(p)
    ensures Collapse("/" + p) == p
  {
    assert ("/" + p)[1..] == p;
    CollapseKeeps(p);
  }

  // ---------------------------------------------------------------- listing

  /** A node and everything below it, in the order `addPath` visits them. */
  ghost function Preorder(n: RouterWrapper, root: RouterWrapper, nodes: set<RouterWrapper>): seq<RouterWrapper>
    requires Tree(root, nodes) && n in nodes
    reads nodes
    decreases |nodes| - n.depth, 1, 0
  {
    [n] + Below(n, |n.children|, root, nodes)
  }

  /** What is below the first `k` children. */
  ghost function Below(n: RouterWrapper, k: nat, root: RouterWrapper, nodes: set<RouterWrapper>): seq<RouterWrapper>
    requires Tree(root, nodes) && n in nodes && k <= |n.children|
    reads nodes
    decreases |nodes| - n.depth, 0, k
  {
    if k == 0 then []
    else
      ChildBelow(n, k - 1, root, nodes);
      Below(n, k - 1, root, nodes) + Preorder(n.children[k - 1], root, nodes)
  }

  lemma ChildBelow(n: RouterWrapper, i: nat, root: RouterWrapper, nodes: set<RouterWrapper>)
    requires Tree(root, nodes) && n in nodes && i < |n.children|
    ensures var c := n.children[i];
            c in nodes && c.parent == n && c != root && c.depth == n.depth + 1 && c.depth < |nodes|
  {
    assert Owns(n, nodes);
    OnlyRoot(n.children[i], root, nodes);
  }

  /** The full paths of the nodes that have a handler, in order. */
  ghost function Listed(ns: seq<RouterWrapper>, root: RouterWrapper, nodes: set<RouterWrapper>): seq<string>
    requires Tree(root, nodes) && forall n :: n in ns ==> n in nodes
    reads nodes
  {
    if ns == [] then []
    else
      var n := ns[|ns| - 1];
      Listed(ns[..|ns| - 1], root, nodes) + if n.handler.Some? then [n.FullPath(root, nodes)] else []
  }

  lemma {:induction false} ListedAppend(a: seq<RouterWrapper>, b: seq<RouterWrapper>, root: RouterWrapper,
      nodes: set<RouterWrapper>)
    requires Tree(root, nodes) && (forall n :: n in a ==> n in nodes) && (forall n :: n in b ==> n in nodes)
    ensures Listed(a + b, root, nodes) == Listed(a, root, nodes) + Listed(b, root, nodes)
    decreases |b|
  {
    if b == [] {
      assert a + b == a;
    } else {
      assert (a + b)[..|a + b| - 1] == a + b[..|b| - 1];
      ListedAppend(a, b[..|b| - 1], root, nodes);
    }
  }

  /** The ancestor of `n` at a level. */
  ghost function AncestorAt(n: RouterWrapper, level: nat, root: RouterWrapper, nodes: set<RouterWrapper>): (a: RouterWrapper)
    requires Tree(root, nodes) && n in nodes && level <= n.depth
    reads nodes
    ensures a in nodes && a.depth == level
    decreases n.depth
  {
    OnlyRoot(n, root, nodes);
    if n.depth == level then n else AncestorAt(n.parent, level, root, nodes)
  }

  /** `n` is `top` or below it. */
  ghost predicate Under(n: RouterWrapper, top: RouterWrapper, root: RouterWrapper, nodes: set<RouterWrapper>)
    requires Tree(root, nodes) && n in nodes && top in nodes
    reads nodes
  {
    top.depth <= n.depth && AncestorAt(n, top.depth, root, nodes) == top
  }

  lemma {:induction false} AncestorStep(n: RouterWrapper, level: nat, root: RouterWrapper, nodes: set<RouterWrapper>)
    requires Tree(root, nodes) && n in nodes && level < n.depth
    ensures AncestorAt(n, level + 1, root, nodes).parent == AncestorAt(n, level, root, nodes)
    decreases n.depth
  {
    OnlyRoot(n, root, nodes);
    if level + 1 < n.depth {
      AncestorStep(n.parent, level, root, nodes);
    }
  }

  /** The traversal of a subtree meets exactly the nodes of the subtree, each once. */
  lemma {:induction false} PreorderExact(top: RouterWrapper, root: RouterWrapper, nodes: set<RouterWrapper>)
    requires Tree(root, nodes) && top in nodes
    ensures forall n :: n in Preorder(top, root, nodes) ==> n in nodes && Under(n, top, root, nodes)
    ensures forall n :: n in nodes && Under(n, top, root, nodes) ==> n in Preorder(top, root, nodes)
    ensures Distinct(Preorder(top, root, nodes))
    decreases |nodes| - top.depth, 1, 0
  {
    BelowExact(top, |top.children|, root, nodes);
    var below := Below(top, |top.children|, root, nodes);
    forall n ensures n in Preorder(top, root, nodes) <==> n in nodes && Under(n, top, root, nodes) {
      if n in nodes && Under(n, top, root, nodes) && n != top {
        var c := ChildTowards(n, top, root, nodes);
        var i :| 0 <= i < |top.children| && top.children[i] == c;
        assert UnderChild(n, top, i, root, nodes);
        assert n in below;
      }
    }
    forall i | 0 <= i < |below| ensures below[i] != top {
      assert below[i] in below;
    }
  }

  ghost predicate Distinct(ns: seq<RouterWrapper>) { forall i, j :: 0 <= i < j < |ns| ==> ns[i] != ns[j] }

  /** A node strictly below `top` is under one of its children. */
  lemma ChildTowards(n: RouterWrapper, top: RouterWrapper, root: RouterWrapper, nodes: set<RouterWrapper>)
      returns (c: RouterWrapper)
    requires Tree(root, nodes) && n in nodes && top in nodes && Under(n, top, root, nodes) && n != top
    ensures c in nodes && c in top.children && Under(n, c, root, nodes)
  {
    hide Tree;
    assert AncestorAt(n, n.depth, root, nodes) == n;
    c := AncestorAt(n, top.depth + 1, root, nodes);
    AncestorStep(n, top.depth, root, nodes);
    OnlyRoot(c, root, nodes);
  }

  /** What is below the first `k` children: exactly the nodes under one of them, each once, all deeper than the parent. */
  lemma {:induction false} BelowExact(top: RouterWrapper, k: nat, root: RouterWrapper, nodes: set<RouterWrapper>)
    requires Tree(root, nodes) && top in nodes && k <= |top.children|
    ensures forall n :: n in Below(top, k, root, nodes) ==>
              n in nodes && n != top && Under(n, top, root, nodes) && exists i :: 0 <= i < k && UnderChild(n, top, i, root, nodes)
    ensures forall n, i :: n in nodes && 0 <= i < k && UnderChild(n, top, i, root, nodes) ==> n in Below(top, k, root, nodes)
    ensures Distinct(Below(top, k, root, nodes))
    decreases |nodes| - top.depth, 0, k
  {
    hide Tree, Under;
    if k > 0 {
      var c := top.children[k - 1];
      ChildBelow(top, k - 1, root, nodes);
      BelowExact(top, k - 1, root, nodes);
      PreorderExact(c, root, nodes);
      var before, added := Below(top, k - 1, root, nodes), Preorder(c, root, nodes);
      forall n | n in nodes && Under(n, c, root, nodes)
        ensures n != top && Under(n, top, root, nodes) && UnderChild(n, top, k - 1, root, nodes)
      {
        ChildIsUnder(n, top, k - 1, root, nodes);
      }
      forall n | n in added ensures n in nodes && Under(n, c, root, nodes) {
        assert n in Preorder(top.children[k - 1], root, nodes);
      }
      forall i, j | 0 <= i < |before| && 0 <= j < |added| ensures before[i] != added[j] {
        assert before[i] in before && added[j] in added;
        var x :| 0 <= x < k - 1 && UnderChild(before[i], top, x, root, nodes);
        if before[i] == added[j] {
          OneChildOnly(before[i], top, x, k - 1, root, nodes);
        }
      }
    }
  }

  lemma ChildIsUnder(n: RouterWrapper, top: RouterWrapper, i: nat, root: RouterWrapper, nodes: set<RouterWrapper>)
    requires Tree(root, nodes) && n in nodes && top in nodes && i < |top.children|
    requires top.children[i] in nodes && Under(n, top.children[i], root, nodes)
    ensures n != top && Under(n, top, root, nodes) && UnderChild(n, top, i, root, nodes)
  {
    ChildBelow(top, i, root, nodes);
    hide Tree;
    AncestorStep(n, top.depth, root, nodes);
  }

  lemma OneChildOnly(n: RouterWrapper, top: RouterWrapper, i: nat, j: nat, root: RouterWrapper, nodes: set<RouterWrapper>)
    requires Tree(root, nodes) && n in nodes && top in nodes
    requires UnderChild(n, top, i, root, nodes) && UnderChild(n, top, j, root, nodes)
    ensures i == j
  {
    ChildBelow(top, i, root, nodes);
    ChildBelow(top, j, root, nodes);
    assert Owns(top, nodes);
  }

  ghost predicate UnderChild(n: RouterWrapper, top: RouterWrapper, i: nat, root: RouterWrapper, nodes: set<RouterWrapper>)
    requires Tree(root, nodes) && n in nodes && top in nodes
    reads nodes
  {
    i < |top.children| && top.children[i] in nodes && Under(n, top.children[i], root, nodes)
  }

  /** `a` is met before `b`: it is above it, or in the subtree of an earlier child of one node. */
  ghost predicate Before(a: RouterWrapper, b: RouterWrapper, root: RouterWrapper, nodes: set<RouterWrapper>)
    requires Tree(root, nodes) && a in nodes && b in nodes
    reads nodes
  {
    || (a != b && Under(b, a, root, nodes))
    || exists x, i, j :: x in nodes && 0 <= i < j && UnderChild(a, x, i, root, nodes) && UnderChild(b, x, j, root, nodes)
  }

  ghost predicate Ordered(ns: seq<RouterWrapper>, root: RouterWrapper, nodes: set<RouterWrapper>)
    requires Tree(root, nodes)
    reads nodes
  {
    (forall n :: n in ns ==> n in nodes) && forall i, j :: 0 <= i < j < |ns| ==> Before(ns[i], ns[j], root, nodes)
  }

  /** The traversal meets parents before children, and the subtrees of the children one after the other. */
  lemma {:induction false} PreorderOrdered(top: RouterWrapper, root: RouterWrapper, nodes: set<RouterWrapper>)
    requires Tree(root, nodes) && top in nodes
    ensures Ordered(Preorder(top, root, nodes), root, nodes)
    decreases |nodes| - top.depth, 1, 0
  {
    hide Tree, Under, Before;
    BelowOrdered(top, |top.children|, root, nodes);
    BelowExact(top, |top.children|, root, nodes);
    PreorderExact(top, root, nodes);
    var below := Below(top, |top.children|, root, nodes);
    forall j | 0 <= j < |below| ensures Before(top, below[j], root, nodes) {
      assert below[j] in below;
      AboveFirst(top, below[j], root, nodes);
    }
  }

  lemma AboveFirst(a: RouterWrapper, b: RouterWrapper, root: RouterWrapper, nodes: set<RouterWrapper>)
    requires Tree(root, nodes) && a in nodes && b in nodes && a != b && Under(b, a, root, nodes)
    ensures Before(a, b, root, nodes)
  {
  }

  lemma EarlierChildFirst(a: RouterWrapper, b: RouterWrapper, x: RouterWrapper, i: nat, j: nat, root: RouterWrapper,
      nodes: set<RouterWrapper>)
    requires Tree(root, nodes) && a in nodes && b in nodes && x in nodes && i < j
    requires UnderChild(a, x, i, root, nodes) && UnderChild(b, x, j, root, nodes)
    ensures Before(a, b, root, nodes)
  {
    hide Tree, UnderChild;
  }

  lemma {:induction false} BelowOrdered(top: RouterWrapper, k: nat, root: RouterWrapper, nodes: set<RouterWrapper>)
    requires Tree(root, nodes) && top in nodes && k <= |top.children|
    ensures Ordered(Below(top, k, root, nodes), root, nodes)
    decreases |nodes| - top.depth, 0, k
  {
    hide Tree, Under, Before;
    if k > 0 {
      var c := top.children[k - 1];
      ChildBelow(top, k - 1, root, nodes);
      BelowOrdered(top, k - 1, root, nodes);
      PreorderOrdered(c, root, nodes);
      BelowExact(top, k - 1, root, nodes);
      PreorderExact(c, root, nodes);
      var before, added := Below(top, k - 1, root, nodes), Preorder(c, root, nodes);
      forall i, j | 0 <= i < |before| && 0 <= j < |added| ensures Before(before[i], added[j], root, nodes) {
        assert before[i] in before && added[j] in added;
        var x :| 0 <= x < k - 1 && UnderChild(before[i], top, x, root, nodes);
        assert UnderChild(added[j], top, k - 1, root, nodes);
        EarlierChildFirst(before[i], added[j], top, x, k - 1, root, nodes);
      }
    }
  }

  /** Every node is under the root, so the traversal from the root visits each node of the tree exactly once. */
  lemma TraversalVisitsEachOnce(root: RouterWrapper, nodes: set<RouterWrapper>)
    requires Tree(root, nodes)
    ensures Distinct(Preorder(root, root, nodes))
    ensures forall n :: n in Preorder(root, root, nodes) <==> n in nodes
  {
    PreorderExact(root, root, nodes);
    forall n | n in nodes ensures n in Preorder(root, root, nodes) {
      TopIsRoot(n, root, nodes);
      assert Under(n, root, root, nodes);
    }
  }

  lemma {:induction false} TopIsRoot(n: RouterWrapper, root: RouterWrapper, nodes: set<RouterWrapper>)
    requires Tree(root, nodes) && n in nodes
    ensures AncestorAt(n, 0, root, nodes) == root
    decreases n.depth
  {
    OnlyRoot(n, root, nodes);
    if n.depth > 0 {
      TopIsRoot(n.parent, root, nodes);
    }
  }

  /** The list `addPath` appends to, through a pointer. */
  class PathList {
    var paths: seq<string>
    constructor ()
      ensures paths == []
    {
      paths := [];
    }
  }

  /** The paths `addPath` collects in a subtree, and below the first `k` children. */
  ghost function PathsOf(n: RouterWrapper, root: RouterWrapper, nodes: set<RouterWrapper>): seq<string>
    requires Tree(root, nodes) && n in nodes
    reads nodes
    decreases |nodes| - n.depth, 1, 0
  {
    (if n.handler.Some? then [n.FullPath(root, nodes)] else []) + PathsBelow(n, |n.children|, root, nodes)
  }

  ghost function PathsBelow(n: RouterWrapper, k: nat, root: RouterWrapper, nodes: set<RouterWrapper>): seq<string>
    requires Tree(root, nodes) && n in nodes && k <= |n.children|
    reads nodes
    decreases |nodes| - n.depth, 0, k
  {
    if k == 0 then []
    else
      ChildBelow(n, k - 1, root, nodes);
      PathsBelow(n, k - 1, root, nodes) + PathsOf(n.children[k - 1], root, nodes)
  }

  /** They are the full paths of exactly the handled nodes met by the traversal, in its order. */
  lemma {:induction false} PathsAreListed(n: RouterWrapper, root: RouterWrapper, nodes: set<RouterWrapper>)
    requires Tree(root, nodes) && n in nodes
    ensures forall x :: x in Preorder(n, root, nodes) ==> x in nodes
    ensures PathsOf(n, root, nodes) == Listed(Preorder(n, root, nodes), root, nodes)
    decreases |nodes| - n.depth, 1, 0
  {
    hide Tree;
    BelowAreListed(n, |n.children|, root, nodes);
    ListedOne(n, root, nodes);
    ListedAppend([n], Below(n, |n.children|, root, nodes), root, nodes);
  }

  lemma ListedOne(n: RouterWrapper, root: RouterWrapper, nodes: set<RouterWrapper>)
    requires Tree(root, nodes) && n in nodes
    ensures Listed([n], root, nodes) == if n.handler.Some? then [n.FullPath(root, nodes)] else []
  {
    assert [n][..0] == [];
    assert Listed([], root, nodes) == [];
  }

  lemma {:induction false} BelowAreListed(n: RouterWrapper, k: nat, root: RouterWrapper, nodes: set<RouterWrapper>)
    requires Tree(root, nodes) && n in nodes && k <= |n.children|
    ensures forall x :: x in Below(n, k, root, nodes) ==> x in nodes
    ensures PathsBelow(n, k, root, nodes) == Listed(Below(n, k, root, nodes), root, nodes)
    decreases |nodes| - n.depth, 0, k
  {
    hide Tree;
    if k > 0 {
      ChildBelow(n, k - 1, root, nodes);
      BelowAreListed(n, k - 1, root, nodes);
      PathsAreListed(n.children[k - 1], root, nodes);
      ListedAppend(Below(n, k - 1, root, nodes), Preorder(n.children[k - 1], root, nodes), root, nodes);
    }
  }

  /** addPath appends the full paths of exactly the handled nodes of the subtree, in preorder. */
  method AddPath(list: PathList, w: RouterWrapper, ghost root: RouterWrapper, ghost nodes: set<RouterWrapper>)
    requires Tree(root, nodes) && w in nodes
    modifies list
    ensures Tree(root, nodes)
    ensures list.paths == old(list.paths) + PathsOf(w, root, nodes)
    decreases |nodes| - w.depth
  {
    hide Tree;
    if w.handler.Some? {
      list.paths := list.paths + [w.FullPath(root, nodes)];
    }
    var own := list.paths;
    for i := 0 to |w.children|
      invariant Tree(root, nodes)
      invariant list.paths == own + PathsBelow(w, i, root, nodes)
    {
      ChildBelow(w, i, root, nodes);
      AddPath(list, w.children[i], root, nodes);
    }
  }

  /** The nodes with a handler, in the same order. */
  ghost function Handled(ns: seq<RouterWrapper>): seq<RouterWrapper> {
    if ns == [] then []
    else
      var n := ns[|ns| - 1];
      Handled(ns[..|ns| - 1]) + if n.handler.Some? then [n] else []
  }

  lemma {:induction false} HandledAreThose(ns: seq<RouterWrapper>)
    ensures forall n :: n in Handled(ns) <==> n in ns && n.handler.Some?
  {
    if ns != [] {
      var init, last := ns[..|ns| - 1], ns[|ns| - 1];
      HandledAreThose(init);
      assert forall n :: n in ns <==> n in init || n == last;
    }
  }

  lemma {:induction false} HandledOrdered(ns: seq<RouterWrapper>, root: RouterWrapper, nodes: set<RouterWrapper>)
    requires Tree(root, nodes) && Ordered(ns, root, nodes) && Distinct(ns)
    ensures Ordered(Handled(ns), root, nodes) && Distinct(Handled(ns))
  {
    hide Tree, Before;
    HandledAreThose(ns);
    if ns != [] {
      var init, last := ns[..|ns| - 1], ns[|ns| - 1];
      HandledOrdered(init, root, nodes);
      HandledAreThose(init);
      var kept := Handled(init);
      forall i | 0 <= i < |kept| ensures kept[i] != last && Before(kept[i], last, root, nodes) {
        assert kept[i] in kept;
        var j :| 0 <= j < |init| && init[j] == kept[i];
        assert ns[j] == init[j];
      }
    }
  }

  lemma {:induction false} ListedHandled(ns: seq<RouterWrapper>, root: RouterWrapper, nodes: set<RouterWrapper>)
    requires Tree(root, nodes) && forall n :: n in ns ==> n in nodes
    ensures forall n :: n in Handled(ns) ==> n in nodes
    ensures |Listed(ns, root, nodes)| == |Handled(ns)|
    ensures forall i :: 0 <= i < |Handled(ns)| ==> Listed(ns, root, nodes)[i] == Handled(ns)[i].FullPath(root, nodes)
  {
    hide Tree;
    HandledAreThose(ns);
    if ns != [] {
      ListedHandled(ns[..|ns| - 1], root, nodes);
    }
  }

  /**
   The handler of "/": the list it answers with names every handled node of the tree exactly once, by its full path,
   parents before children and the subtrees of the children one after the other.
   */
  method RootHandler(root: RouterWrapper, ghost nodes: set<RouterWrapper>)
    returns (paths: seq<string>, ghost ns: seq<RouterWrapper>)
    requires Tree(root, nodes)
    ensures (forall n :: n in ns <==> n in nodes && n.handler.Some?) && Distinct(ns) && Ordered(ns, root, nodes)
    ensures |paths| == |ns| && forall i :: 0 <= i < |ns| ==> paths[i] == ns[i].FullPath(root, nodes)
  {
    hide Tree, Before;
    TraversalVisitsEachOnce(root, nodes);
    PathsAreListed(root, root, nodes);
    PreorderOrdered(root, root, nodes);
    ns := Handled(Preorder(root, root, nodes));
    HandledAreThose(Preorder(root, root, nodes));
    HandledOrdered(Preorder(root, root, nodes), root, nodes);
    ListedHandled(Preorder(root, root, nodes), root, nodes);
    var list := new PathList();
    AddPath(list, root, root, nodes);
    paths := list.paths;
  }
}
