/** Names computed from a request: image and tag, target name, registry endpoint, passphrase variables. */
module Naming {
  import opened Wrappers
  import opened Strings
  import opened Paths
  import opened ApiTypes

  /** utils.ParseImage: everything after a second colon is dropped. */
  function ParseImage(image: string): (string, string) {
    var res := Split(image, ':');
    if |res| == 1 then (res[0], "") else (res[0], res[1])
  }

  /** What stands before the first colon is the name, what stands between it and the next one is the tag. */
  lemma ParseAt(name: string, more: string)
    requires ':' !in name
    ensures ParseImage(name + [':'] + more) == (name, Split(more, ':')[0])
  {
    SplitAppend(name, ':', more);
    SplitAlone(name);
    hide Split;
    assert ([name] + Split(more, ':'))[0] == name && ([name] + Split(more, ':'))[1] == Split(more, ':')[0];
  }

  lemma SplitAlone(part: string)
    requires ':' !in part
    ensures Split(part, ':') == [part]
  {
    IndexOfAbsent(part, ':');
  }

  /** `ParseImage` undoes `name:tag`, and looks at nothing behind a second colon. */
  lemma ParseImageInverts(name: string, tag: string, rest: string)
    requires ':' !in name && ':' !in tag
    ensures ParseImage(name) == (name, "")
    ensures ParseImage(name + ":" + tag) == (name, tag)
    ensures ParseImage(name + ":" + (tag + ":" + rest)) == (name, tag)
  {
    SplitAlone(name);
    SplitAlone(tag);
    ParseAt(name, tag);
    ParseAt(name, tag + [':'] + rest);
    SplitAppend(tag, ':', rest);
    hide Split;
    assert ([tag] + Split(rest, ':'))[0] == tag;
  }

  /** Name and tag come back exactly if neither has a colon. */
  lemma ParseImageIff(name: string, tag: string)
    ensures ParseImage(name + ":" + tag) == (name, tag) <==> ':' !in name && ':' !in tag
  {
    if ':' !in name && ':' !in tag {
      ParseImageInverts(name, tag, "");
    }
    SplitParts(name + ":" + tag);
  }

  lemma SplitParts(image: string)
    ensures ':' !in ParseImage(image).0 && ':' !in ParseImage(image).1
  {
    var res := Split(image, ':');
    assert res[0] in res;
    if |res| > 1 {
      assert res[1] in res;
    }
  }

  /** trust.BuildTargetName */
  function BuildTargetName(regName: string, namespace: string, imageName: string): string {
    PathJoin([namespace, regName, imageName])
  }

  /** buildTargetName of the sign request reconciler */
  function TargetName(spec: ImageSignRequestSpec): string {
    BuildTargetName(spec.registryLogin.name, spec.registryLogin.namespace, ParseImage(spec.image).0)
  }

  /** Requests for the same registry whose images differ only behind the first colon share one target key. */
  lemma TagsShareTarget(a: ImageSignRequestSpec, b: ImageSignRequestSpec, name: string, rest: string, rest': string)
    requires ':' !in name
    requires a.registryLogin.namespace == b.registryLogin.namespace && a.registryLogin.name == b.registryLogin.name
    requires a.image == name + ":" + rest && (b.image == name + ":" + rest' || b.image == name)
    ensures TargetName(a) == TargetName(b) == BuildTargetName(a.registryLogin.name, a.registryLogin.namespace, name)
  {
    SplitJoin([name], ':');
    SplitAppend(name, ':', rest);
    SplitAppend(name, ':', rest');
  }

  /** An image path that `path.Clean` leaves alone: empty, or relative without empty, "." or ".." components. */
  predicate CleanImage(imageName: string) {
    imageName == "" || AllNormal(Split(imageName, '/'))
  }

  /** The components a target name is made of. */
  function NameParts(regName: string, namespace: string, imageName: string): seq<string> {
    [namespace, regName] + if imageName == "" then [] else Split(imageName, '/')
  }

  lemma SplitJoined(namespace: string, regName: string, imageName: string)
    requires Normal(namespace) && Normal(regName)
    ensures Split(Join([namespace, regName, imageName], "/"), '/') == [namespace, regName] + Split(imageName, '/')
    ensures !Rooted(Join([namespace, regName, imageName], "/"))
  {
    Join3(namespace, regName, imageName, "/");
    Split3(namespace, regName, imageName, '/');
  }

  lemma CleanedIs(namespace: string, regName: string, imageName: string, parts: seq<string>)
    requires Normal(namespace) && Normal(regName)
    requires CleanParts([namespace, regName] + Split(imageName, '/'), false, []) == parts
    requires parts != [] && AllNormal(parts)
    ensures BuildTargetName(regName, namespace, imageName) == Join(parts, "/")
    ensures Split(BuildTargetName(regName, namespace, imageName), '/') == parts
  {
    SplitJoined(namespace, regName, imageName);
    SplitJoin(parts, '/');
    IndexOfAbsent("", '/');
    assert Normal(parts[0]);
  }

  lemma TargetNameParts(regName: string, namespace: string, imageName: string)
    requires Normal(namespace) && Normal(regName) && CleanImage(imageName)
    ensures Split(BuildTargetName(regName, namespace, imageName), '/') == NameParts(regName, namespace, imageName)
    ensures BuildTargetName(regName, namespace, imageName) == Join(NameParts(regName, namespace, imageName), "/")
  {
    var parts := NameParts(regName, namespace, imageName);
    var split := [namespace, regName] + Split(imageName, '/');
    assert AllNormal(parts);
    if imageName == "" {
      IndexOfAbsent("", '/');
      assert split == parts + [""];
      CleanTrailing(parts, false, []);
    } else {
      CleanNormal(parts, false, []);
    }
    assert [] + parts == parts;
    CleanedIs(namespace, regName, imageName, parts);
  }

  /** Target names tell apart every registry and every clean image. */
  lemma TargetNameInjective(r: string, n: string, i: string, r': string, n': string, i': string)
    requires Normal(n) && Normal(r) && CleanImage(i)
    requires Normal(n') && Normal(r') && CleanImage(i')
    ensures BuildTargetName(r, n, i) == BuildTargetName(r', n', i') <==> n == n' && r == r' && i == i'
  {
    TargetNameParts(r, n, i);
    TargetNameParts(r', n', i');
    var p, p' := NameParts(r, n, i), NameParts(r', n', i');
    if p == p' {
      assert p[0] == p'[0] && p[1] == p'[1];
      assert p[2..] == (if i == "" then [] else Split(i, '/'));
      assert p'[2..] == (if i' == "" then [] else Split(i', '/'));
      JoinSplit(i, '/');
      JoinSplit(i', '/');
    }
  }

  /** A target name says what its parts are exactly if the image is clean; else parts of it are dropped or cancelled. */
  lemma TargetNamePlainIff(r: string, n: string, i: string)
    requires Normal(n) && Normal(r)
    ensures BuildTargetName(r, n, i) == Join(NameParts(r, n, i), "/") <==> CleanImage(i)
  {
    hide BuildTargetName, Join, NameParts, CleanImage;
    if CleanImage(i) {
      TargetNameParts(r, n, i);
    } else {
      UncleanName(r, n, i);
    }
  }

  lemma UncleanName(r: string, n: string, i: string)
    requires Normal(n) && Normal(r) && !CleanImage(i)
    ensures BuildTargetName(r, n, i) != Join(NameParts(r, n, i), "/")
  {
    var parts, kept := [n, r] + Split(i, '/'), CleanParts([n, r] + Split(i, '/'), false, []);
    SplitJoined(n, r, i);
    KeptAfterTwo(n, r, Split(i, '/'));
    assert NameParts(r, n, i) == parts;
    forall p | p in parts ensures '/' !in p {}
    SplitJoin(parts, '/');
    KeptHaveNoSlash(parts, false, []);
    hide CleanParts, Split;
    if kept != [] {
      SplitJoin(kept, '/');
    }
    NotEmptyOrDot(n, r, Split(i, '/'));
  }

  lemma NotEmptyOrDot(n: string, r: string, more: seq<string>)
    requires Normal(n) && Normal(r) && more != []
    ensures Join([n, r] + more, "/") != "." && Join([n, r] + more, "/") != ""
  {
    assert ([n, r] + more)[1..] == [r] + more;
    assert ([n, r] + more)[0] == n;
    assert |Join([n, r] + more, "/")| >= |n| + 1;
  }

  /** The two plain parts in front keep a later abnormal part from staying. */
  lemma KeptAfterTwo(n: string, r: string, more: seq<string>)
    requires Normal(n) && Normal(r) && !AllNormal(more) && forall p :: p in more ==> '/' !in p
    ensures |CleanParts([n, r] + more, false, [])| < |more| + 2
  {
    assert [n, r] + more == [n] + ([r] + more);
    CleanKeeps(n, [r] + more, false, []);
    CleanKeeps(r, more, false, [] + [n]);
    assert [] + [n] + [r] == [n, r];
    CleanDrops(more, [n, r]);
  }

  /** Without the cleanliness condition injectivity fails: ".." in an image reaches any other registry's names. */
  lemma TargetNameCollision(r: string, r': string, n: string, i: string)
    requires Normal(n) && Normal(r) && Normal(r') && i != "" && CleanImage(i)
    ensures BuildTargetName(r, n, "../" + r' + "/" + i) == BuildTargetName(r', n, i)
  {
    assert "../" + r' + "/" + i == ".." + ['/'] + (r' + ['/'] + i);
    CollidingParts(r, r', n, i, ".." + ['/'] + (r' + ['/'] + i));
    TargetNameParts(r', n, i);
  }

  lemma CollidingParts(r: string, r': string, n: string, i: string, image: string)
    requires Normal(n) && Normal(r) && Normal(r') && i != "" && CleanImage(i)
    requires image == ".." + ['/'] + (r' + ['/'] + i)
    ensures BuildTargetName(r, n, image) == Join(NameParts(r', n, i), "/")
  {
    hide Clean, CleanParts, Split, Join, BuildTargetName, ParseImage;
    var rest := [r'] + Split(i, '/');
    Split3("..", r', i, '/');
    assert Split(image, '/') == [".."] + rest;
    assert [n, r] + Split(image, '/') == [n] + ([r] + ([".."] + rest));
    CleanKeeps(n, [r] + ([".."] + rest), false, []);
    CleanUp(r, rest, false, [n]);
    CleanNormal(rest, false, [n]);
    assert [] + [n] == [n];
    assert [n] + rest == NameParts(r', n, i);
    CleanedIs(n, r, image, [n] + rest);
  }

  /** The archive's name is as clean as the image's. */
  lemma ArchiveName(name: string)
    requires CleanImage(name)
    ensures AllNormal(Split(name + ".tar", '/'))
  {
    SplitSuffixed(name, ".tar", '/');
    hide Split;
    var parts := Split(name, '/');
    var last := parts[|parts| - 1];
    assert Normal(last + ".tar") by {
      assert last in parts && '/' !in last;
      assert |last + ".tar"| >= 4;
    }
    if name == "" {
      SplitNowhere(name, '/');
    }
    forall p | p in Split(name + ".tar", '/') ensures Normal(p) {
      assert p in parts[..|parts| - 1] || p == last + ".tar";
    }
  }

  /** The target name of a request for a clean image says which registry and which image it is for, and nothing else. */
  lemma RequestTargetName(spec: ImageSignRequestSpec, name: string)
    requires ImageNamed(spec, name)
    ensures TargetName(spec) ==
            spec.registryLogin.namespace + "/" + spec.registryLogin.name + if name == "" then "" else "/" + name
  {
    hide BuildTargetName, ParseImage, CleanImage;
    var n, r := spec.registryLogin.namespace, spec.registryLogin.name;
    NamedImage(spec, name);
    TargetNameParts(r, n, name);
    hide NameParts;
    PartsJoined(r, n, name);
  }

  /** The request names its registry plainly, and this image, with whatever tag. */
  predicate ImageNamed(spec: ImageSignRequestSpec, name: string) {
    && Normal(spec.registryLogin.namespace) && Normal(spec.registryLogin.name)
    && ':' !in name && CleanImage(name)
    && (spec.image == name || (name + ":" <= spec.image))
  }

  lemma NamedImage(spec: ImageSignRequestSpec, name: string)
    requires ImageNamed(spec, name)
    ensures ParseImage(spec.image).0 == name
  {
    hide ParseImage;
    if spec.image == name {
      ParseImageInverts(name, "", "");
    } else {
      ParseAt(name, spec.image[|name| + 1..]);
      assert spec.image == name + [':'] + spec.image[|name| + 1..];
    }
  }

  lemma PartsJoined(r: string, n: string, i: string)
    ensures Join(NameParts(r, n, i), "/") == n + "/" + r + if i == "" then "" else "/" + i
  {
    var parts := NameParts(r, n, i);
    if i == "" {
      assert parts == [n, r] && parts[1..] == [r];
    } else {
      JoinSplit(i, '/');
      hide Split;
      assert parts[1..] == [r] + Split(i, '/') && parts[1..][1..] == Split(i, '/');
      assert Join(parts, "/") == n + "/" + (r + "/" + i);
    }
  }

  /** Two such requests share a target key exactly if they name the same registry and the same image. */
  lemma RequestTargetsIff(a: ImageSignRequestSpec, i: string, b: ImageSignRequestSpec, j: string)
    requires ImageNamed(a, i) && ImageNamed(b, j)
    ensures TargetName(a) == TargetName(b) <==>
              && a.registryLogin.namespace == b.registryLogin.namespace && a.registryLogin.name == b.registryLogin.name && i == j
  {
    hide BuildTargetName, ParseImage, CleanImage, Normal;
    NamedImage(a, i);
    NamedImage(b, j);
    TargetNameInjective(a.registryLogin.name, a.registryLogin.namespace, i, b.registryLogin.name, b.registryLogin.namespace, j);
  }

  const RegistryLoginUrl := "tmax.io/registry-login-url"

  /** RegCtl.GetEndpoint on the registry's annotations. */
  function GetEndpoint(annotations: map<string, string>): string {
    if RegistryLoginUrl in annotations then TrimLeft(annotations[RegistryLoginUrl], "https://") else ""
  }

  /** The endpoint is the URL without its longest beginning of such characters; without the annotation it is empty. */
  lemma EndpointIs(annotations: map<string, string>)
    ensures "tmax.io/registry-login-url" !in annotations ==> GetEndpoint(annotations) == ""
    ensures "tmax.io/registry-login-url" in annotations ==>
              exists cut ::
                && annotations["tmax.io/registry-login-url"] == cut + GetEndpoint(annotations)
                && forall c :: c in cut ==> c in "https://"
    ensures GetEndpoint(annotations) != "" ==> GetEndpoint(annotations)[0] !in "https://"
  {
    if RegistryLoginUrl in annotations {
      var cut := TrimCut(annotations[RegistryLoginUrl], "https://");
      assert annotations[RegistryLoginUrl] == cut + GetEndpoint(annotations);
    }
  }

  lemma {:induction false} TrimCut(s: string, cutset: string) returns (cut: string)
    ensures s == cut + TrimLeft(s, cutset) && forall c :: c in cut ==> c in cutset
    ensures TrimLeft(s, cutset) != "" ==> TrimLeft(s, cutset)[0] !in cutset
  {
    if s != [] && s[0] in cutset {
      var more := TrimCut(s[1..], cutset);
      cut := [s[0]] + more;
      FirstCut(s, more, TrimLeft(s[1..], cutset));
    } else {
      cut := "";
    }
  }

  lemma FirstCut(s: string, more: string, rest: string)
    requires s != "" && s[1..] == more + rest
    ensures s == [s[0]] + more + rest
  {
    assert s == [s[0]] + s[1..];
  }

  /** `TrimLeft` removes any of the characters of "https://", so the host survives exactly if it starts with none of them. */
  lemma EndpointOfUrl(annotations: map<string, string>, scheme: string, host: string)
    requires "tmax.io/registry-login-url" in annotations && annotations["tmax.io/registry-login-url"] == scheme + host
    requires scheme == "https://" || scheme == "http://" || scheme == ""
    ensures GetEndpoint(annotations) == host <==> host == "" || host[0] !in "https://"
  {
    SchemeChars(scheme);
    TrimAllOf(scheme, host, "https://");
    TrimShrinks(host, "https://");
  }

  lemma SchemeChars(scheme: string)
    requires scheme == "https://" || scheme == "http://" || scheme == ""
    ensures forall c :: c in scheme ==> c in "https://"
  {
    var all := "https://";
    assert all[0] == 'h' && all[1] == 't' && all[3] == 'p' && all[4] == 's' && all[5] == ':' && all[6] == '/';
  }

  lemma {:induction false} TrimAllOf(a: string, b: string, cutset: string)
    requires forall c :: c in a ==> c in cutset
    ensures TrimLeft(a + b, cutset) == TrimLeft(b, cutset)
  {
    if a == [] {
      assert a + b == b;
    } else {
      assert (a + b)[1..] == a[1..] + b;
      TrimAllOf(a[1..], b, cutset);
    }
  }

  lemma {:induction false} TrimShrinks(s: string, cutset: string)
    ensures |TrimLeft(s, cutset)| <= |s|
    ensures s != [] && s[0] in cutset ==> |TrimLeft(s, cutset)| < |s|
  {
    if s != [] && s[0] in cutset {
      TrimShrinks(s[1..], cutset);
    }
  }

  /** registry.NewRegCtl: nil (None) without both names or when the lookup fails, else the registry's annotations. */
  function NewRegCtl(regName: string, namespace: string, lookup: Option<map<string, string>>): Option<map<string, string>> {
    if regName == "" || namespace == "" then None else lookup
  }

  datatype Role = Root | Target

  function RoleName(r: Role): string { if r.Root? then "root" else "target" }

  /** trust.RoleMap: the environment variable docker reads a role's passphrase from. */
  function RoleEnv(r: Role): string {
    if r.Root? then "DOCKER_CONTENT_TRUST_ROOT_PASSPHRASE" else "DOCKER_CONTENT_TRUST_REPOSITORY_PASSPHRASE"
  }

  lemma RoleEnvsDiffer()
    ensures RoleEnv(Root) != RoleEnv(Target)
  {
    assert RoleEnv(Root)[22] == 'O' && RoleEnv(Target)[22] == 'E';
  }

  /** The line that marks a key file's role. */
  function RoleLine(r: Role): string { "role: " + RoleName(r) }

  const PassLength := 12

  /** A value utils.RandomString may return. */
  predicate RandomString(s: string, length: nat) {
    |s| == length && forall c :: c in s ==> 'a' <= c <= 'z' || '0' <= c <= '9'
  }

  /** utils.RandomString: any characters of the set, as many as asked for. */
  method NewRandomString(length: nat) returns (str: string)
    ensures RandomString(str, length)
  {
    str := "";
    for i := 0 to length
      invariant RandomString(str, i)
    {
      var c: char := *;
      if !('a' <= c <= 'z' || '0' <= c <= '9') {
        c := 'a';
      }
      str := str + [c];
    }
  }

  /** AssignNewRootPass and AssignNewTargetPass: only the role's own variable is assigned. */
  method AssignNewPass(phrase: map<string, string>, r: Role) returns (phrase': map<string, string>)
    ensures RoleEnv(r) in phrase' && RandomString(phrase'[RoleEnv(r)], PassLength)
    ensures var name := match r
                        case Root => "DOCKER_CONTENT_TRUST_ROOT_PASSPHRASE"
                        case Target => "DOCKER_CONTENT_TRUST_REPOSITORY_PASSPHRASE";
            name in phrase' && |phrase'[name]| == 12 && phrase' == phrase[name := phrase'[name]]
  {
    var pass := NewRandomString(PassLength);
    phrase' := phrase[RoleEnv(r) := pass];
  }
}
