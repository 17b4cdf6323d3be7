/** The names that the Kubernetes API, docker and the file system take. */
module Identifiers {
  import opened Strings

  predicate LowerOrDigit(c: char) { 'a' <= c <= 'z' || '0' <= c <= '9' }

  predicate LetterOrDigit(c: char) { LowerOrDigit(c) || 'A' <= c <= 'Z' }

  // ---------------------------------------------------------------- objects in the API

  /** A label of RFC 1123, section 2.1, in lower case. */
  predicate LabelText(l: string) {
    && l != "" && l[0] != '-' && l[|l| - 1] != '-'
    && forall c :: c in l ==> LowerOrDigit(c) || c == '-'
  }

  /** The name of an object: labels separated by dots. */
  predicate ObjectName(n: string) { |n| <= 253 && Labels(n) }

  predicate Labels(n: string) { forall l :: l in Split(n, '.') ==> LabelText(l) }

  predicate NamespaceName(n: string) { |n| <= 63 && LabelText(n) }

  lemma LabelsPrefixed(a: string, n: string)
    requires a != "" && a[0] != '-' && (forall c :: c in a ==> LowerOrDigit(c) || c == '-') && Labels(n)
    ensures Labels(a + n)
  {
    SplitPrefixed(a, n, '.');
    hide Split, LabelText;
    var parts := Split(n, '.');
    assert parts[0] in parts;
    LabelWithin(a, parts[0], "");
    assert a + parts[0] + "" == a + parts[0];
  }

  lemma LabelsSuffixed(n: string, b: string)
    requires b != "" && b[|b| - 1] != '-' && (forall c :: c in b ==> LowerOrDigit(c) || c == '-') && Labels(n)
    ensures Labels(n + b)
  {
    SplitSuffixed(n, b, '.');
    hide Split, LabelText;
    var parts := Split(n, '.');
    assert parts[|parts| - 1] in parts;
    LabelWithin("", parts[|parts| - 1], b);
    assert "" + parts[|parts| - 1] + b == parts[|parts| - 1] + b;
  }

  lemma LabelWithin(a: string, l: string, b: string)
    requires LabelText(l) && (a == "" || a[0] != '-') && (b == "" || b[|b| - 1] != '-')
    requires (forall c :: c in a ==> LowerOrDigit(c) || c == '-') && (forall c :: c in b ==> LowerOrDigit(c) || c == '-')
    ensures LabelText(a + l + b)
  {
    var m := a + l + b;
    assert m[0] == if a == "" then l[0] else a[0];
    assert m[|m| - 1] == if b == "" then l[|l| - 1] else b[|b| - 1];
  }

  // ---------------------------------------------------------------- image references

  predicate TagChar(c: char) { LetterOrDigit(c) || c == '_' || c == '.' || c == '-' }

  predicate TagText(t: string) {
    1 <= |t| <= 128 && t[0] != '.' && t[0] != '-' && forall c :: c in t ==> TagChar(c)
  }

  predicate Separator(c: char) { c == '.' || c == '_' || c == '-' }

  /** Two separators in a row: dashes, or exactly two underscores. */
  predicate MayFollow(p: string, i: nat)
    requires i + 1 < |p|
  {
    || (p[i] == '-' && p[i + 1] == '-')
    || (p[i] == '_' && p[i + 1] == '_' && (i == 0 || p[i - 1] != '_') && (i + 2 == |p| || p[i + 2] != '_'))
  }

  predicate PathComponent(p: string) {
    && p != "" && LowerOrDigit(p[0]) && LowerOrDigit(p[|p| - 1])
    && (forall c :: c in p ==> LowerOrDigit(c) || Separator(c))
    && forall i :: 0 <= i < |p| - 1 && Separator(p[i]) && Separator(p[i + 1]) ==> MayFollow(p, i)
  }

  predicate HostLabel(l: string) {
    && l != "" && l[0] != '-' && l[|l| - 1] != '-'
    && forall c :: c in l ==> LetterOrDigit(c) || c == '-'
  }

  predicate Port(p: string) { p != "" && forall c :: c in p ==> '0' <= c <= '9' }

  /** A first component is the registry's host if it looks like one: a dot, a port, or "localhost". */
  predicate Host(h: string) {
    var parts := Split(h, ':');
    && ('.' in h || ':' in h || h == "localhost")
    && (|parts| == 1 || (|parts| == 2 && Port(parts[1])))
    && forall l :: l in Split(parts[0], '.') ==> HostLabel(l)
  }

  /** The name with its registry spelled out: docker.io is the one meant by default, and library its default directory. */
  function CanonicalName(n: string): string {
    var i := IndexOf(n, '/');
    var hosted := i < |n| && Host(n[..i]);
    var domain := if !hosted || n[..i] == "index.docker.io" then "docker.io" else n[..i];
    var remote := if hosted then n[i + 1..] else n;
    domain + "/" + (if domain == "docker.io" && '/' !in remote then "library/" + remote else remote)
  }

  /** A reference without a tag, by the documentation of `docker image tag`. */
  predicate RepositoryName(n: string) {
    var parts := Split(n, '/');
    && |CanonicalName(n)| <= 255
    && (PathComponent(parts[0]) || (|parts| > 1 && Host(parts[0])))
    && forall i :: 1 <= i < |parts| ==> PathComponent(parts[i])
  }

  /** A reference with a tag. */
  predicate TaggedReference(ref: string) {
    exists i :: 0 <= i < |ref| && ref[i] == ':' && RepositoryName(ref[..i]) && TagText(ref[i + 1..])
  }

  /** A name in a registry. */
  lemma HostedName(name: string, host: string, parts: seq<string>)
    requires Split(name, '/') == [host] + parts && Host(host) && parts != []
    ensures RepositoryName(name) <==> |CanonicalName(name)| <= 255 && forall p :: p in parts ==> PathComponent(p)
  {
    hide PathComponent, Host, Split, CanonicalName;
    var all := Split(name, '/');
    assert all[0] == host;
    if |CanonicalName(name)| <= 255 && forall p :: p in parts ==> PathComponent(p) {
      forall i | 1 <= i < |all| ensures PathComponent(all[i]) {
        assert all[i] == parts[i - 1];
      }
    }
    if RepositoryName(name) {
      forall p | p in parts ensures PathComponent(p) {
        var i :| 0 <= i < |parts| && parts[i] == p;
        assert all[i + 1] == p;
      }
    }
  }

  /** A reference that ends in its colon has no tag. */
  lemma NoTagNoReference(name: string)
    ensures !TaggedReference(name + ":")
  {
    var ref := name + ":";
    forall i | 0 <= i < |ref| && ref[i] == ':' ensures !TagText(ref[i + 1..]) {
      if i < |name| {
        var t := ref[i + 1..];
        assert t[|t| - 1] == ':';
        assert ':' in t;
      }
    }
  }

  /** A tag has no colon, so a reference is a repository's name and the tag behind its last colon. */
  lemma ReferenceIs(name: string, tag: string)
    requires ':' !in tag
    ensures TaggedReference(name + ":" + tag) <==> RepositoryName(name) && TagText(tag)
  {
    hide RepositoryName;
    var ref := name + ":" + tag;
    assert ref[|name|] == ':' && ref[..|name|] == name && ref[|name| + 1..] == tag;
    forall i | |name| < i < |ref| ensures ref[i] != ':' {
      assert ref[i] == tag[i - |name| - 1];
    }
    forall i | 0 <= i < |name| && ref[i] == ':' ensures !TagText(ref[i + 1..]) {
      var t := ref[i + 1..];
      assert t[|name| - i - 1] == ':';
      assert ':' in t;
    }
  }

  // ---------------------------------------------------------------- files

  /** A key of a secret. */
  predicate SecretKey(k: string) {
    1 <= |k| <= 253 && k != "." && !(".." <= k) && forall c :: c in k ==> LetterOrDigit(c) || c == '-' || c == '_' || c == '.'
  }

  /** A file in the volume of a secret: a key, or where the link of that name leads, in a hidden directory. */
  predicate SecretFile(f: string) {
    var parts := Split(f, '/');
    (|parts| == 1 && SecretKey(parts[0])) || (|parts| == 2 && ".." <= parts[0] && SecretKey(parts[1]))
  }

  /** A path within the limits of Linux for paths and for the names in them. */
  predicate FilePath(path: string) { |path| < 4096 && forall p :: p in Split(path, '/') ==> |p| <= 255 }
}
