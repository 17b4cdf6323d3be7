/** The API server's route tree: wrappers with parent and child pointers, grown one `Add` at a time. */
module RouteTree {
  import opened Wrappers

  // ---------------------------------------------------------------- slashes

  /** Every run of slashes becomes one slash. */
  function Collapse(s: string): string {
    if |s| < 2 then s
    else if s[0] == '/' && s[1] == '/' then Collapse(s[1..])
    else [s[0]] + Collapse(s[1..])
  }

  predicate NoDoubleSlash(s: string) { forall i :: 0 <= i < |s| - 1 ==> !(s[i] == '/' && s[i + 1] == '/') }

  lemma {:induction false} CollapseFirst(s: string)
    requires s != ""
    ensures Collapse(s) != "" && Collapse(s)[0] == s[0]
  {
    if |s| >= 2 {
      CollapseFirst(s[1..]);
    }
  }

  lemma {:induction false} CollapseClean(s: string)
    ensures NoDoubleSlash(Collapse(s))
  {
    if |s| >= 2 {
      CollapseClean(s[1..]);
      CollapseFirst(s[1..]);
    }
  }

  lemma {:induction false} CollapseKeeps(s: string)
    requires NoDoubleSlash(s)
    ensures Collapse(s) == s
  {
    if |s| >= 2 {
      assert !(s[0] == '/' && s[0 + 1] == '/');
      forall i | 0 <= i < |s[1..]| - 1 ensures !(s[1..][i] == '/' && s[1..][i + 1] == '/') {
        assert !(s[i + 1] == '/' && s[(i + 1) + 1] == '/');
      }
      CollapseKeeps(s[1..]);
    }
  }

  /** Collapsing on the way makes no difference at the end. */
  lemma {:induction false} CollapseAppend(a: string, b: string)
    ensures Collapse(Collapse(a) + b) == Collapse(a + b)
    decreases |a|
  {
    if |a| >= 2 {
      CollapseAppend(a[1..], b);
      assert (a + b)[1..] == a[1..] + b;
      if !(a[0] == '/' && a[1] == '/') {
        var c := Collapse(a[1..]);
        CollapseFirst(a[1..]);
        assert ([a[0]] + c + b)[1..] == c + b;
      }
    }
  }

  /** One slash too many makes no difference, wherever it is. */
  lemma {:induction false} CollapsePair(a: string, b: string)
    ensures Collapse(a + "//" + b) == Collapse(a + "/" + b)
  {
    var s, t := a + "//" + b, a + "/" + b;
    if a == "" {
      assert s[0] == '/' && s[1] == '/' && s[1..] == t;
    } else {
      assert s[1..] == a[1..] + "//" + b && t[1..] == a[1..] + "/" + b;
      assert s[0] == t[0] == a[0] && s[1] == t[1];
      CollapsePair(a[1..], b);
    }
  }

  function TrimRight(s: string): string {
    if s != "" && s[|s| - 1] == '/' then TrimRight(s[..|s| - 1]) else s
  }

  /** All slashes at the end are gone, and nothing else. */
  lemma {:induction false} TrimRightIs(s: string) returns (slashes: string)
    ensures s == TrimRight(s) + slashes && forall c :: c in slashes ==> c == '/'
    ensures TrimRight(s) != "" ==> TrimRight(s)[|TrimRight(s)| - 1] != '/'
  {
    if s != "" && s[|s| - 1] == '/' {
      var more := TrimRightIs(s[..|s| - 1]);
      slashes := more + "/";
      assert s == s[..|s| - 1] + "/";
      assert s == TrimRight(s) + more + "/";
    } else {
      slashes := "";
    }
  }

  // ---------------------------------------------------------------- wrappers

  type Handler = nat

  datatype Route = Route(path: string, methods: seq<string>, handler: Handler)

  /** A mux router, as far as prefixes go: a subrouter's template is its parent's without trailing slashes, then its own. */
  class Router {
    const prefix: string
    var routes: seq<Route>

    constructor (prefix: string)
      ensures this.prefix == prefix && routes == []
    {
      this.prefix := prefix;
      routes := [];
    }

    function Template(path: string): string { TrimRight(prefix) + path }

    method HandleFunc(path: string, methods: seq<string>, handler: Handler)
      modifies this`routes
      ensures routes == old(routes) + [Route(Template(path), methods, handler)]
    {
      routes := routes + [Route(Template(path), methods, handler)];
    }
  }

  /** The template of a subrouter: the prefix without the slashes at its end, and then the path. */
  lemma TemplateIs(r: Router, path: string) returns (stem: string, slashes: string)
    ensures r.prefix == stem + slashes && (forall c :: c in slashes ==> c == '/') && (stem != "" ==> stem[|stem| - 1] != '/')
    ensures r.Template(path) == stem + path
  {
    slashes := TrimRightIs(r.prefix);
    stem := TrimRight(r.prefix);
  }

  /** A sub-path `Add` accepts. */
  predicate ValidSubPath(p: string) { p != "" && p != "/" && p[0] == '/' }

  class RouterWrapper {
    var router: Router?
    const subPath: string
    const methods: seq<string>
    const handler: Option<Handler>
    var children: seq<RouterWrapper>
    var parent: RouterWrapper?
    ghost var depth: nat

    constructor (path: string, methods: seq<string>, handler: Option<Handler>)
      ensures subPath == path && this.methods == methods && this.handler == handler
      ensures Detached() && router == null && depth == 0
    {
      subPath, this.methods, this.handler := path, methods, handler;
      router, children, parent := null, [], null;
      depth := 0;
    }

    /** As New makes it. */
    ghost predicate Detached()
      reads this
    {
      parent == null && children == []
    }

    /** What `Add` does with a child it accepts, short of its handler: the links and the subrouter. */
    method Link(child: RouterWrapper, ghost root: RouterWrapper, ghost nodes: set<RouterWrapper>)
      requires Tree(root, nodes) && this in nodes
      requires child !in nodes && child.Detached() && ValidSubPath(child.subPath)
      modifies this`children, child
      ensures Tree(root, nodes + {child})
      ensures child.parent == this && child.depth == depth + 1 && child.children == []
      ensures children == old(children) + [child]
      ensures child.router != null && fresh(child.router) && child.router.routes == []
      ensures router != null && child.router.prefix == router.Template(child.subPath)
    {
      hide TrimRight, ValidSubPath;
      child.parent := this;
      children := children + [child];
      child.depth := depth + 1;
      child.router := new Router(router.Template(child.subPath));
      forall n | n in nodes && n != root ensures Linked(n, nodes) {
        assert old(Linked(n, nodes));
        assert n.parent == this ==> n in old(children);
      }
      forall n | n in nodes && n != this ensures Owns(n, nodes) {
        assert old(Owns(n, nodes));
      }
      assert old(Owns(this, nodes));
      Grafted(root, nodes, this, child);
    }

    /**
     Adding a child to a node of the tree. It fails, changing nothing, exactly for no child, a child that has a
     parent, or a bad sub-path; the root cannot become a child because its own sub-path is "/".
     */
    method Add(child: RouterWrapper?, ghost root: RouterWrapper, ghost nodes: set<RouterWrapper>) returns (err: Option<string>)
      requires Tree(root, nodes) && this in nodes
      requires child != null && child !in nodes && child.parent == null && ValidSubPath(child.subPath) ==> child.children == []
      modifies this`children, router`routes, if child == null then {} else {child}
      ensures err.Some? <==> child == null || old(child.parent) != null || !ValidSubPath(child.subPath)
      ensures err.Some? ==> unchanged(this) && unchanged(router) && (child != null ==> unchanged(child)) && Tree(root, nodes)
      ensures err == None ==>
                && child !in nodes && Tree(root, nodes + {child})
                && child.parent == this && child.depth == depth + 1 && child.children == []
                && children == old(children) + [child] && router == old(router)
                && child.router != null && fresh(child.router) && child.router.prefix == router.Template(child.subPath)
                && (child.handler == None ==> router.routes == old(router.routes) && child.router.routes == [])
                && (child.handler.Some? ==>
                      && router.routes == old(router.routes) + [Route(child.router.prefix, child.methods, child.handler.value)]
                      && child.router.routes == [Route(child.router.Template("/"), child.methods, child.handler.value)])
    {
      hide TrimRight;
      if child == null {
        err := Some("child is nil");
      } else if child.parent != null {
        err := Some("child already has parent");
      } else if child.subPath == "" || child.subPath == "/" || child.subPath[0] != '/' {
        err := Some("child subpath is not valid");
      } else {
        Link(child, root, nodes);
        if child.handler.Some? {
          // with or without methods the same two paths are registered
          child.router.HandleFunc("/", child.methods, child.handler.value);
          router.HandleFunc(child.subPath, child.methods, child.handler.value);
        }
        err := None;
      }
    }

    /** RouterWrapper.FullPath */
    function FullPath(ghost root: RouterWrapper, ghost nodes: set<RouterWrapper>): string
      requires Tree(root, nodes) && this in nodes
      reads nodes
      decreases depth
    {
      if parent == null then subPath else Collapse(parent.FullPath(root, nodes) + subPath)
    }
  }

  /** The root as the server makes it: "/" with a handler and a fresh router that serves it. */
  method NewServerRoot(rootHandler: Handler) returns (root: RouterWrapper)
    ensures fresh(root) && Tree(root, {root}) && root.handler == Some(rootHandler) && root.router.prefix == ""
    ensures root.subPath == "/" && root.children == [] && root.router.routes == [Route("/", [], rootHandler)]
  {
    root := new RouterWrapper("/", [], Some(rootHandler));
    root.router := new Router("");
    root.router.HandleFunc("/", [], rootHandler);
    assert "" + "/" == "/";
    assert |{root}| == 1;
  }

  /** A finite acyclic tree: parent and child links agree, and `depth` counts the links to the root. */
  ghost predicate Tree(root: RouterWrapper, nodes: set<RouterWrapper>)
    reads nodes
  {
    && root in nodes && root.parent == null && root.subPath == "/" && root.depth == 0
    && (forall n :: n in nodes ==> n.router != null && n.depth < |nodes|)
    && (forall n :: n in nodes && n != root ==> Linked(n, nodes))
    && (forall n :: n in nodes ==> Owns(n, nodes))
  }

  /** A node other than the root hangs under its parent, one level deeper, under its parent's prefix. */
  ghost predicate Linked(n: RouterWrapper, nodes: set<RouterWrapper>)
    reads nodes, n
  {
    && n.parent != null && n.parent in nodes && n in n.parent.children && n.depth == n.parent.depth + 1
    && ValidSubPath(n.subPath)
    && n.router != null && n.parent.router != null && n.router.prefix == n.parent.router.Template(n.subPath)
  }

  /** A node's children are distinct nodes that point back to it. */
  ghost predicate Owns(n: RouterWrapper, nodes: set<RouterWrapper>)
    reads nodes, n
  {
    && (forall i :: 0 <= i < |n.children| ==> n.children[i] in nodes && n.children[i].parent == n)
    && (forall i, j :: 0 <= i < j < |n.children| ==> n.children[i] != n.children[j])
  }

  /** A tree whose node `w` has one child more than belongs to it yet is a tree with that child. */
  lemma Grafted(root: RouterWrapper, nodes: set<RouterWrapper>, w: RouterWrapper, child: RouterWrapper)
    requires root in nodes && root.parent == null && root.subPath == "/" && root.depth == 0
    requires forall n :: n in nodes ==> n.router != null && n.depth < |nodes|
    requires forall n :: n in nodes && n != root ==> Linked(n, nodes)
    requires forall n :: n in nodes && n != w ==> Owns(n, nodes)
    requires w in nodes && child !in nodes && w.children != [] && w.children[|w.children| - 1] == child
    requires forall i :: 0 <= i < |w.children| - 1 ==> w.children[i] in nodes && w.children[i].parent == w
    requires forall i, j :: 0 <= i < j < |w.children| - 1 ==> w.children[i] != w.children[j]
    requires child.parent == w && child.children == [] && child.depth == w.depth + 1 && ValidSubPath(child.subPath)
    requires child.router != null && child.router.prefix == w.router.Template(child.subPath)
    ensures Tree(root, nodes + {child})
  {
    var all := nodes + {child};
    assert |all| == |nodes| + 1;
    forall n | n in all && n != root ensures Linked(n, all) {
      assert n != child ==> Linked(n, nodes);
    }
    forall n | n in all ensures Owns(n, all) {
      assert n != child && n != w ==> Owns(n, nodes);
    }
  }
}
