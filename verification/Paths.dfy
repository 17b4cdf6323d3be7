/** Go's `path.Clean` and `path.Join`, by components. */
module Paths {
  import opened Strings

  /** The stack of components after one more: empty and "." are dropped, ".." removes the component before it. */
  function CleanStep(p: string, rooted: bool, out: seq<string>): seq<string> {
    if p == "" || p == "." then out
    else if p != ".." then out + [p]
    else if out != [] && out[|out| - 1] != ".." then out[..|out| - 1]
    else if rooted then out
    else out + [p]
  }

  /** The component stack `path.Clean` builds. */
  function CleanParts(parts: seq<string>, rooted: bool, out: seq<string>): seq<string>
    decreases |parts|
  {
    if parts == [] then out
    else CleanParts(parts[1..], rooted, CleanStep(parts[0], rooted, out))
  }

  predicate Rooted(p: string) { p != "" && p[0] == '/' }

  /** path.Clean */
  function Clean(p: string): string {
    var body := Join(CleanParts(Split(p, '/'), Rooted(p), []), "/");
    if Rooted(p) then "/" + body else if body == "" then "." else body
  }

  /** path.Join: empty leading elements are skipped, the rest is joined and cleaned. */
  function PathJoin(elems: seq<string>): string {
    if elems == [] then ""
    else if elems[0] == "" then PathJoin(elems[1..])
    else Clean(Join(elems, "/"))
  }

  /** Where one component leads from a directory, given by the names on the way to it: there is nothing above the top. */
  function Go(dir: seq<string>, p: string): seq<string> {
    if p == "" || p == "." then dir
    else if p == ".." then (if dir == [] then [] else dir[..|dir| - 1])
    else dir + [p]
  }

  function Walk(dir: seq<string>, parts: seq<string>): seq<string>
    decreases |parts|
  {
    if parts == [] then dir else Walk(Go(dir, parts[0]), parts[1..])
  }

  /** The components of a clean path: names, and before them, unless it starts at the top, ways up. */
  predicate Cleaned(parts: seq<string>, rooted: bool) {
    && (forall i :: 0 <= i < |parts| ==> Normal(parts[i]) || (parts[i] == ".." && !rooted))
    && (forall i, j :: 0 <= i < j < |parts| && parts[j] == ".." ==> parts[i] == "..")
  }

  lemma {:induction false} WalkAppend(dir: seq<string>, a: seq<string>, b: seq<string>)
    ensures Walk(dir, a + b) == Walk(Walk(dir, a), b)
    decreases |a|
  {
    if a == [] {
      assert a + b == b;
    } else {
      assert (a + b)[1..] == a[1..] + b;
      WalkAppend(Go(dir, a[0]), a[1..], b);
    }
  }

  lemma WalkOne(dir: seq<string>, p: string)
    ensures Walk(dir, [p]) == Go(dir, p)
  {
    assert [p][1..] == [];
  }

  /** One step of cleaning changes the form, not the way. */
  lemma CleanStepLeads(p: string, rooted: bool, out: seq<string>, dir: seq<string>)
    requires '/' !in p && Cleaned(out, rooted) && (rooted ==> dir == [])
    ensures Cleaned(CleanStep(p, rooted, out), rooted)
    ensures Walk(dir, CleanStep(p, rooted, out)) == Go(Walk(dir, out), p)
  {
    if p == "" || p == "." {
    } else if p == ".." && out != [] && out[|out| - 1] != ".." {
      var init, last := out[..|out| - 1], out[|out| - 1];
      assert out == init + [last];
      WalkAppend(dir, init, [last]);
      WalkOne(Walk(dir, init), last);
      assert (Walk(dir, init) + [last])[..|Walk(dir, init)|] == Walk(dir, init);
    } else if p == ".." && rooted {
    } else {
      WalkAppend(dir, out, [p]);
      WalkOne(Walk(dir, out), p);
    }
  }

  lemma {:induction false} CleanPartsLead(parts: seq<string>, rooted: bool, out: seq<string>, dir: seq<string>)
    requires (forall i :: 0 <= i < |parts| ==> '/' !in parts[i]) && Cleaned(out, rooted) && (rooted ==> dir == [])
    ensures Cleaned(CleanParts(parts, rooted, out), rooted)
    ensures Walk(dir, CleanParts(parts, rooted, out)) == Walk(Walk(dir, out), parts)
    decreases |parts|
  {
    if parts != [] {
      CleanStepLeads(parts[0], rooted, out, dir);
      CleanPartsLead(parts[1..], rooted, CleanStep(parts[0], rooted, out), dir);
    }
  }

  /** path.Clean gives the form without empty, "." or unneeded ".." components of a path that leads to the same place. */
  lemma CleanLeads(p: string, dir: seq<string>) returns (parts: seq<string>)
    ensures Cleaned(parts, Rooted(p))
    ensures Clean(p) == if Rooted(p) then "/" + Join(parts, "/") else if parts == [] then "." else Join(parts, "/")
    ensures Walk(if Rooted(p) then [] else dir, parts) == Walk(if Rooted(p) then [] else dir, Split(p, '/'))
  {
    var all, from := Split(p, '/'), if Rooted(p) then [] else dir;
    parts := CleanParts(all, Rooted(p), []);
    forall i | 0 <= i < |all| ensures '/' !in all[i] {
      assert all[i] in all;
    }
    CleanPartsLead(all, Rooted(p), [], from);
    if parts != [] {
      assert parts[0] != "";
    }
  }

  /** A component that cleaning keeps as it is. */
  predicate Normal(p: string) { p != "" && p != "." && p != ".." && '/' !in p }

  predicate AllNormal(parts: seq<string>) { forall p :: p in parts ==> Normal(p) }

  lemma CleanKeeps(p: string, rest: seq<string>, rooted: bool, out: seq<string>)
    requires Normal(p)
    ensures CleanParts([p] + rest, rooted, out) == CleanParts(rest, rooted, out + [p])
  {
    assert ([p] + rest)[1..] == rest;
  }

  /** A component followed by ".." leaves nothing behind. */
  lemma CleanUp(p: string, rest: seq<string>, rooted: bool, out: seq<string>)
    requires Normal(p)
    ensures CleanParts([p] + ([".."] + rest), rooted, out) == CleanParts(rest, rooted, out)
  {
    CleanKeeps(p, [".."] + rest, rooted, out);
    assert ([".."] + rest)[1..] == rest;
    assert (out + [p])[..|out|] == out;
  }

  lemma {:induction false} CleanNormal(parts: seq<string>, rooted: bool, out: seq<string>)
    requires AllNormal(parts)
    ensures CleanParts(parts, rooted, out) == out + parts
    decreases |parts|
  {
    if parts == [] {
    } else {
      assert Normal(parts[0]);
      CleanNormal(parts[1..], rooted, out + [parts[0]]);
      assert parts == [parts[0]] + parts[1..];
    }
  }

  /** Trailing empty components do not matter. */
  lemma {:induction false} CleanTrailing(parts: seq<string>, rooted: bool, out: seq<string>)
    requires AllNormal(parts)
    ensures CleanParts(parts + [""], rooted, out) == out + parts
    decreases |parts|
  {
    if parts == [] {
      assert [""][1..] == [] && parts + [""] == [""];
      assert CleanParts([], rooted, out) == out;
    } else {
      assert Normal(parts[0]);
      assert (parts + [""])[1..] == parts[1..] + [""];
      CleanTrailing(parts[1..], rooted, out + [parts[0]]);
      assert parts == [parts[0]] + parts[1..];
    }
  }

  /** Every character a cleaned path holds is a slash, a dot or a character of the original. */
  lemma {:induction false} CleanPartsFrom(parts: seq<string>, rooted: bool, out: seq<string>, ok: set<char>)
    requires '.' in ok
    requires forall p, c :: p in parts && c in p ==> c in ok
    requires forall p, c :: p in out && c in p ==> c in ok
    ensures forall p, c :: p in CleanParts(parts, rooted, out) && c in p ==> c in ok
    decreases |parts|
  {
    if parts != [] {
      var out' := CleanStep(parts[0], rooted, out);
      CleanPartsFrom(parts[1..], rooted, out', ok);
    }
  }

  lemma {:induction false} JoinChars(parts: seq<string>, sep: string, ok: set<char>)
    requires forall c :: c in sep ==> c in ok
    requires forall p, c :: p in parts && c in p ==> c in ok
    ensures forall c :: c in Join(parts, sep) ==> c in ok
  {
    if |parts| > 1 {
      JoinChars(parts[1..], sep, ok);
      assert forall c :: c in parts[0] ==> c in ok;
    } else if |parts| == 1 {
      assert forall c :: c in parts[0] ==> c in ok;
    }
  }

  lemma {:induction false} SplitChars(s: string, sep: char, ok: set<char>)
    requires forall c :: c in s ==> c in ok
    ensures forall p, c :: p in Split(s, sep) && c in p ==> c in ok
  {
    var n := IndexOf(s, sep);
    if n < |s| {
      SplitChars(s[n + 1..], sep, ok);
    }
  }

  lemma PathJoinChars(elems: seq<string>, ok: set<char>)
    requires '.' in ok && '/' in ok
    requires forall p, c :: p in elems && c in p ==> c in ok
    ensures forall c :: c in PathJoin(elems) ==> c in ok
  {
    if elems != [] {
      if elems[0] == "" {
        PathJoinChars(elems[1..], ok);
      } else {
        var s := Join(elems, "/");
        JoinChars(elems, "/", ok);
        SplitChars(s, '/', ok);
        CleanPartsFrom(Split(s, '/'), Rooted(s), [], ok);
        JoinChars(CleanParts(Split(s, '/'), Rooted(s), []), "/", ok);
      }
    }
  }

  lemma {:induction false} CleanAtMost(parts: seq<string>, rooted: bool, out: seq<string>)
    ensures |CleanParts(parts, rooted, out)| <= |out| + |parts|
    decreases |parts|
  {
    if parts != [] {
      CleanAtMost(parts[1..], rooted, CleanStep(parts[0], rooted, out));
    }
  }

  /** With a plain component to cancel, an abnormal component is dropped or cancels it. */
  lemma {:induction false} CleanDrops(parts: seq<string>, out: seq<string>)
    requires out != [] && AllNormal(out) && (forall p :: p in parts ==> '/' !in p) && !AllNormal(parts)
    ensures |CleanParts(parts, false, out)| < |out| + |parts|
    decreases |parts|
  {
    var p, rest := parts[0], parts[1..];
    assert parts == [p] + rest;
    if Normal(p) {
      CleanDrops(rest, out + [p]);
    } else {
      assert out[|out| - 1] in out;
      CleanAtMost(rest, false, CleanStep(p, false, out));
    }
  }

  lemma {:induction false} KeptHaveNoSlash(parts: seq<string>, rooted: bool, out: seq<string>)
    requires (forall p :: p in parts ==> '/' !in p) && (forall p :: p in out ==> '/' !in p)
    ensures forall p :: p in CleanParts(parts, rooted, out) ==> '/' !in p
    decreases |parts|
  {
    if parts != [] {
      KeptHaveNoSlash(parts[1..], rooted, CleanStep(parts[0], rooted, out));
    }
  }

  // ---------------------------------------------------------------- a file in a directory

  lemma {:induction false} CleanLast(parts: seq<string>, p: string, rooted: bool, out: seq<string>)
    requires Normal(p)
    ensures CleanParts(parts + [p], rooted, out) == CleanParts(parts, rooted, out) + [p]
    decreases |parts|
  {
    if parts == [] {
      assert [] + [p] == [p];
      assert [p][1..] == [];
    } else {
      assert (parts + [p])[1..] == parts[1..] + [p];
      var out' := CleanStep(parts[0], rooted, out);
      CleanLast(parts[1..], p, rooted, out');
    }
  }

  lemma {:induction false} JoinLast(parts: seq<string>, p: string, sep: string)
    requires parts != []
    ensures Join(parts + [p], sep) == Join(parts, sep) + sep + p
  {
    if |parts| == 1 {
      assert (parts + [p])[1..] == [p];
    } else {
      assert (parts + [p])[1..] == parts[1..] + [p];
      JoinLast(parts[1..], p, sep);
    }
  }

  lemma JoinTwo(a: string, b: string)
    ensures Join([a, b], "/") == a + ['/'] + b
  {
    assert [a, b][1..] == [b];
  }

  /** A clean path below a directory. */
  lemma JoinBelow(dir: string, path: string)
    requires Normal(dir) && AllNormal(Split(path, '/'))
    ensures PathJoin([dir, path]) == dir + "/" + path && Split(PathJoin([dir, path]), '/') == [dir] + Split(path, '/')
  {
    var joined, parts := dir + ['/'] + path, [dir] + Split(path, '/');
    JoinTwo(dir, path);
    SplitAppend(dir, '/', path);
    SplitNowhere(dir, '/');
    assert joined[0] == dir[0];
    CleanNormal(parts, false, []);
    assert [] + parts == parts;
    JoinSplit(joined, '/');
    assert joined == dir + "/" + path;
  }

  lemma CleanRooted(body: string)
    requires AllNormal(Split(body, '/'))
    ensures Clean("/" + body) == "/" + body
  {
    hide Split, AllNormal;
    var parts := Split(body, '/');
    assert "" + ['/'] + body == "/" + body;
    SplitAppend("", '/', body);
    SplitNowhere("", '/');
    assert ([""] + parts)[1..] == parts;
    CleanNormal(parts, true, []);
    assert [] + parts == parts;
    JoinSplit(body, '/');
    assert ['/'] == "/";
  }

  /** The same below a directory of the root. */
  lemma JoinUnder(dir: string, path: string)
    requires Normal(dir) && AllNormal(Split(path, '/'))
    ensures PathJoin(["/" + dir, path]) == "/" + (dir + "/" + path)
  {
    hide Clean, Split;
    var top, body := "/" + dir, dir + ['/'] + path;
    SplitAppend(dir, '/', path);
    SplitNowhere(dir, '/');
    CleanRooted(body);
    JoinTwo(top, path);
    assert top + ['/'] + path == "/" + body && body == dir + "/" + path;
  }

  /** An empty directory is skipped. */
  lemma JoinNothing(path: string)
    requires path != "" && AllNormal(Split(path, '/'))
    ensures PathJoin(["", path]) == path
  {
    hide Split;
    var parts := Split(path, '/');
    assert ["", path][1..] == [path];
    CleanNormal(parts, false, []);
    assert [] + parts == parts;
    JoinSplit(path, '/');
    assert path[0] == '/' ==> Split(path, '/')[0] == "" by { FirstPart(path); }
    assert parts[0] in parts;
    assert Join([path], "/") == path;
  }

  lemma FirstPart(path: string)
    requires path != ""
    ensures path[0] == '/' ==> Split(path, '/')[0] == ""
  {
  }

  /** The body of a path with one component more. */
  lemma BodyWith(stack: seq<string>, name: string)
    ensures Join(stack + [name], "/") == (if stack == [] then "" else Join(stack, "/") + "/") + name
  {
    if stack == [] {
      assert stack + [name] == [name];
    } else {
      JoinLast(stack, name, "/");
    }
  }

  lemma Associates(a: string, b: string, c: string)
    ensures a + b + c == a + (b + c)
  {
  }

  /** What every file in a directory has in front of its name. */
  function DirPrefix(dir: string): string {
    var stack := CleanParts(Split(dir, '/'), Rooted(dir), []);
    (if Rooted(dir) then "/" else "") + if stack == [] then "" else Join(stack, "/") + "/"
  }

  lemma JoinFile(dir: string, name: string)
    requires dir != "" && Normal(name)
    ensures PathJoin([dir, name]) == DirPrefix(dir) + name
  {
    var path, stack := dir + ['/'] + name, CleanParts(Split(dir, '/'), Rooted(dir), []);
    JoinTwo(dir, name);
    SplitAppend(dir, '/', name);
    SplitNowhere(name, '/');
    CleanLast(Split(dir, '/'), name, Rooted(dir), []);
    hide CleanParts, Split, Join;
    BodyWith(stack, name);
    Associates(if Rooted(dir) then "/" else "", if stack == [] then "" else Join(stack, "/") + "/", name);
    NotEmptied(if stack == [] then "" else Join(stack, "/") + "/", name);
    assert Rooted(path) == Rooted(dir);
  }

  lemma NotEmptied(a: string, name: string)
    requires name != ""
    ensures a + name != "" && "" + (a + name) == a + name
  {
  }
}
