/** The signing pod's manifest and the options that change it in place. */
module DindPod {
  import opened Wrappers
  import opened Shell
  import opened CommandOptions

  datatype EnvVar = EnvVar(name: string, value: string)

  datatype VolumeSource = PersistentVolumeClaim(claimName: string) | Secret(secretName: string)

  datatype Volume = Volume(name: string, source: VolumeSource)

  datatype VolumeMount = VolumeMount(name: string, mountPath: string)

  /** A PodOption closure by the values it captures; a nil environment map is None. */
  datatype PodOption =
    | WithEnv(envs: Option<map<string, string>>)
    | WithPvc(pvcName: string)
    | WithDcjSecret(dcjSecret: string)
    | WithCertSecret(certSecret: string)
    | WithLifeCycle(cmds: seq<string>)

  const ImagePvc := "image-pvc"
  const ImageMountPath := "/tmp"
  const DefaultDindImage := "docker:19.03.0-beta5-dind"

  /** `entries` lists the map's entries, each once, in some order. */
  ghost predicate Enumerates(entries: seq<EnvVar>, envs: map<string, string>) {
    && |entries| == |envs|
    && (forall i :: 0 <= i < |entries| ==> entries[i].name in envs && envs[entries[i].name] == entries[i].value)
    && (forall i, j :: 0 <= i < j < |entries| ==> entries[i].name != entries[j].name)
  }

  function NewVolumes(o: PodOption): seq<Volume> {
    match o
    case WithPvc(n) => if n == "" then [] else [Volume(ImagePvc, PersistentVolumeClaim(n))]
    case WithDcjSecret(n) => if n == "" then [] else [Volume("dockerconfigjson", Secret(n))]
    case WithCertSecret(n) => if n == "" then [] else [Volume("cert", Secret(n))]
    case _ => []
  }

  function NewMounts(o: PodOption): seq<VolumeMount> {
    match o
    case WithPvc(n) => if n == "" then [] else [VolumeMount(ImagePvc, ImageMountPath)]
    case WithDcjSecret(n) => if n == "" then [] else [VolumeMount("dockerconfigjson", "/home/dockremap")]
    case WithCertSecret(n) => if n == "" then [] else [VolumeMount("cert", "/usr/local/share/ca-certificates")]
    case _ => []
  }

  function Volumes(opts: seq<PodOption>): seq<Volume> {
    if opts == [] then [] else Volumes(opts[..|opts| - 1]) + NewVolumes(opts[|opts| - 1])
  }

  function Mounts(opts: seq<PodOption>): seq<VolumeMount> {
    if opts == [] then [] else Mounts(opts[..|opts| - 1]) + NewMounts(opts[|opts| - 1])
  }

  function LifeCycle(opts: seq<PodOption>): Option<string> {
    if opts == [] then None
    else match opts[|opts| - 1]
      case WithLifeCycle(cmds) => Some(PostStartScript(cmds))
      case _ => LifeCycle(opts[..|opts| - 1])
  }

  /** `env` is what the options' environment maps amount to, map after map. */
  ghost predicate EnvFrom(env: seq<EnvVar>, opts: seq<PodOption>)
    decreases |opts|
  {
    if opts == [] then env == []
    else
      var init, last := opts[..|opts| - 1], opts[|opts| - 1];
      if last.WithEnv? && last.envs.Some? then
        var n := |env| - |last.envs.value|;
        n >= 0 && EnvFrom(env[..n], init) && Enumerates(env[n..], last.envs.value)
      else EnvFrom(env, init)
  }

  class Pod {
    const namespace: string
    const name: string
    const container: string
    const image: string
    const labels: map<string, string>
    const privileged: bool
    var env: seq<EnvVar>
    var volumes: seq<Volume>
    var mounts: seq<VolumeMount>
    var postStart: Option<seq<string>>

    /** dindPod: the container name passed in is not used, the container is always called "docker-cli". */
    constructor (namespace: string, pod: string, container: string, image: string)
      ensures this.namespace == namespace && name == pod && this.container == "docker-cli" && privileged
      ensures this.image == if image == "" then DefaultDindImage else image
      ensures labels == map["obj" := "docker-cli"]
      ensures env == [] && volumes == [] && mounts == [] && postStart == None
    {
      this.namespace, name, this.container := namespace, pod, "docker-cli";
      this.image := if image == "" then DefaultDindImage else image;
      labels := map["obj" := "docker-cli"];
      privileged := true;
      env, volumes, mounts, postStart := [], [], [], None;
    }

    /** Go ranges over a map in no particular order. */
    method AddEnv(envs: map<string, string>)
      modifies this`env
      ensures |old(env)| <= |env| && env[..|old(env)|] == old(env)
      ensures Enumerates(env[|old(env)|..], envs)
    {
      var before := env;
      var rest := envs;
      while rest != map[]
        invariant |before| <= |env| && env[..|before|] == before
        invariant forall k :: k in rest ==> k in envs && rest[k] == envs[k]
        invariant |env| - |before| + |rest| == |envs|
        invariant forall i :: |before| <= i < |env| ==>
                    env[i].name in envs && envs[env[i].name] == env[i].value && env[i].name !in rest
        invariant forall i, j :: |before| <= i < j < |env| ==> env[i].name != env[j].name
        decreases |rest|
      {
        assert |rest| != 0;
        var k :| k in rest.Keys;
        var next := rest - {k};
        assert next.Keys == rest.Keys - {k};
        assert |next| == |next.Keys| && |rest| == |rest.Keys|;
        env := env + [EnvVar(k, rest[k])];
        rest := next;
      }
    }

    method Apply(o: PodOption)
      modifies this
      ensures volumes == old(volumes) + NewVolumes(o) && mounts == old(mounts) + NewMounts(o)
      ensures match o
              case WithPvc(n) => n != "" ==>
                && volumes == old(volumes) + [Volume("image-pvc", PersistentVolumeClaim(n))]
                && mounts == old(mounts) + [VolumeMount("image-pvc", "/tmp")]
              case WithDcjSecret(n) => n != "" ==>
                && volumes == old(volumes) + [Volume("dockerconfigjson", Secret(n))]
                && mounts == old(mounts) + [VolumeMount("dockerconfigjson", "/home/dockremap")]
              case WithCertSecret(n) => n != "" ==>
                && volumes == old(volumes) + [Volume("cert", Secret(n))]
                && mounts == old(mounts) + [VolumeMount("cert", "/usr/local/share/ca-certificates")]
              case _ => true
      ensures o.WithEnv? || o.WithLifeCycle? || o in [WithPvc(""), WithDcjSecret(""), WithCertSecret("")] ==>
                volumes == old(volumes) && mounts == old(mounts)
      ensures postStart == if o.WithLifeCycle? then Some(["/bin/sh", "-c", PostStartScript(o.cmds)]) else old(postStart)
      ensures |old(env)| <= |env| && env[..|old(env)|] == old(env)
      ensures if o.WithEnv? && o.envs.Some? then Enumerates(env[|old(env)|..], o.envs.value) else env == old(env)
    {
      match o
      case WithEnv(envs) =>
        if envs == None { return; }
        AddEnv(envs.value);
      case WithPvc(pvcName) =>
        if pvcName == "" { return; }
        volumes := volumes + [Volume(ImagePvc, PersistentVolumeClaim(pvcName))];
        mounts := mounts + [VolumeMount(ImagePvc, ImageMountPath)];
      case WithDcjSecret(secretName) =>
        if secretName == "" { return; }
        mounts := mounts + [VolumeMount("dockerconfigjson", "/home/dockremap")];
        volumes := volumes + [Volume("dockerconfigjson", Secret(secretName))];
      case WithCertSecret(secretName) =>
        if secretName == "" { return; }
        mounts := mounts + [VolumeMount("cert", "/usr/local/share/ca-certificates")];
        volumes := volumes + [Volume("cert", Secret(secretName))];
      case WithLifeCycle(cmds) =>
        postStart := Some(["/bin/sh", "-c", PostStartScript(cmds)]);
    }
  }

  lemma NoOption()
    ensures Volumes([]) == [] && Mounts([]) == [] && EnvFrom([], []) && LifeCycle([]) == None
  {
  }

  /** What one more option adds. */
  lemma OneMoreOption(opts: seq<PodOption>, i: nat, before: seq<EnvVar>, after: seq<EnvVar>)
    requires i < |opts| && EnvFrom(before, opts[..i])
    requires |before| <= |after| && after[..|before|] == before
    requires if opts[i].WithEnv? && opts[i].envs.Some? then Enumerates(after[|before|..], opts[i].envs.value) else after == before
    ensures Volumes(opts[..i + 1]) == Volumes(opts[..i]) + NewVolumes(opts[i])
    ensures Mounts(opts[..i + 1]) == Mounts(opts[..i]) + NewMounts(opts[i])
    ensures EnvFrom(after, opts[..i + 1])
    ensures LifeCycle(opts[..i + 1]) ==
            if opts[i].WithLifeCycle? then Some(PostStartScript(opts[i].cmds)) else LifeCycle(opts[..i])
  {
    hide PostStartScript, Volumes, Mounts, LifeCycle, NewVolumes, NewMounts, EnvFrom, Enumerates;
    MoreParts(opts[..i], opts[i]);
    MoreEnv(opts[..i], opts[i], before, after);
    assert opts[..i + 1] == opts[..i] + [opts[i]];
  }

  lemma MoreParts(opts: seq<PodOption>, o: PodOption)
    ensures Volumes(opts + [o]) == Volumes(opts) + NewVolumes(o)
    ensures Mounts(opts + [o]) == Mounts(opts) + NewMounts(o)
    ensures LifeCycle(opts + [o]) == if o.WithLifeCycle? then Some(PostStartScript(o.cmds)) else LifeCycle(opts)
  {
    hide PostStartScript, NewVolumes, NewMounts;
    assert (opts + [o])[..|opts|] == opts;
  }

  lemma MoreEnv(opts: seq<PodOption>, o: PodOption, before: seq<EnvVar>, after: seq<EnvVar>)
    requires EnvFrom(before, opts) && |before| <= |after| && after[..|before|] == before
    requires if o.WithEnv? && o.envs.Some? then Enumerates(after[|before|..], o.envs.value) else after == before
    ensures EnvFrom(after, opts + [o])
  {
    assert (opts + [o])[..|opts|] == opts;
    if o.WithEnv? && o.envs.Some? {
      assert |after[|before|..]| == |o.envs.value|;
    }
    hide Enumerates;
  }

  /** NewDindPod applies its options one after the other. */
  method NewDindPod(namespace: string, pod: string, container: string, image: string, opts: seq<PodOption>)
    returns (p: Pod)
    ensures fresh(p) && p.namespace == namespace && p.name == pod && p.privileged && p.container == "docker-cli"
    ensures p.labels == map["obj" := "docker-cli"]
    ensures p.image == if image == "" then "docker:19.03.0-beta5-dind" else image
    ensures p.volumes == Volumes(opts) && p.mounts == Mounts(opts)
    ensures EnvFrom(p.env, opts)
    ensures p.postStart == if LifeCycle(opts).None? then None else Some(["/bin/sh", "-c", LifeCycle(opts).value])
  {
    hide Volumes, Mounts, EnvFrom, LifeCycle;
    p := new Pod(namespace, pod, container, image);
    NoOption();
    for i := 0 to |opts|
      invariant p.volumes == Volumes(opts[..i]) && p.mounts == Mounts(opts[..i])
      invariant EnvFrom(p.env, opts[..i])
      invariant p.postStart == if LifeCycle(opts[..i]).None? then None else Some(["/bin/sh", "-c", LifeCycle(opts[..i]).value])
    {
      ghost var env := p.env;
      p.Apply(opts[i]);
      OneMoreOption(opts, i, env, p.env);
    }
    assert opts[..|opts|] == opts;
  }

  /** The options `Start` builds a signing pod from. */
  function StartOptions(opt: CommandOpt): seq<PodOption> {
    [ WithEnv(Some(Environment(opt))),
      WithPvc(opt.imagePvc),
      WithDcjSecret(opt.registryLoginSecret),
      WithCertSecret(opt.registryLoginCertSecret),
      WithLifeCycle(LifeCycleCommands(opt)) ]
  }

  /** Volumes and mounts correspond one to one, by distinct names, at distinct paths. */
  predicate Paired(volumes: seq<Volume>, mounts: seq<VolumeMount>) {
    && |volumes| == |mounts|
    && (forall i :: 0 <= i < |mounts| ==> volumes[i].name == mounts[i].name)
    && (forall i, j :: 0 <= i < j < |mounts| ==> mounts[i].name != mounts[j].name && mounts[i].mountPath != mounts[j].mountPath)
  }

  /** A volume of this source is mounted at this path. */
  predicate Mounted(volumes: seq<Volume>, mounts: seq<VolumeMount>, source: VolumeSource, path: string) {
    exists v, m :: v in volumes && m in mounts && v.name == m.name && v.source == source && m.mountPath == path
  }

  /** What is to be mounted for these options, and where. */
  predicate ToMount(opt: CommandOpt, source: VolumeSource, path: string) {
    || (opt.imagePvc != "" && source == PersistentVolumeClaim(opt.imagePvc) && path == "/tmp")
    || (opt.registryLoginSecret != "" && source == Secret(opt.registryLoginSecret) && path == "/home/dockremap")
    || (opt.registryLoginCertSecret != "" && source == Secret(opt.registryLoginCertSecret)
        && path == "/usr/local/share/ca-certificates")
  }

  /** What a signing pod is to be for its options. */
  ghost predicate PodFor(opt: CommandOpt, env: seq<EnvVar>, volumes: seq<Volume>, mounts: seq<VolumeMount>,
                         postStart: Option<seq<string>>) {
    && (forall name, value :: EnvVar(name, value) in env <==> IsEntry(opt, name, value))
    && (forall i, j :: 0 <= i < j < |env| ==> env[i].name != env[j].name)
    && (forall source, path :: Mounted(volumes, mounts, source, path) <==> ToMount(opt, source, path))
    && Paired(volumes, mounts)
    && postStart == Some(["/bin/sh", "-c",
         "update-ca-certificates; mkdir -p " + "/root/.docker/trust/private"
         + RestoreText(opt.rootKey) + RestoreText(opt.targetKey) + LoginBehind(opt.registryLoginSecret)])
  }

  /**
   For all option values, the pod of `Start` mounts exactly the claim and the secrets meant, where they are meant to be,
   has exactly docker's two variables, and runs exactly the script meant.
   */
  lemma StartPodWellFormed(opt: CommandOpt, env: seq<EnvVar>)
    requires EnvFrom(env, StartOptions(opt))
    ensures LifeCycle(StartOptions(opt)) == Some(Script(opt))
    ensures PodFor(opt, env, Volumes(StartOptions(opt)), Mounts(StartOptions(opt)), Some(["/bin/sh", "-c", Script(opt)]))
  {
    hide RestoreText, LoginBehind, EnvFrom, Volumes, Mounts, Mounted, ToMount, IsEntry, Paired, Script, Environment;
    StartLifeCycle(opt);
    StartEnv(opt, env);
    ScriptText(opt);
    StartVolumes(opt);
    StartPaired(opt.imagePvc, opt.registryLoginSecret, opt.registryLoginCertSecret);
    forall name, value ensures EnvVar(name, value) in env <==> IsEntry(opt, name, value) {
      EnvironmentIs(opt, name, value);
      EntryIn(env, Environment(opt), name, value);
    }
    forall source, path
      ensures Mounted(Volumes(StartOptions(opt)), Mounts(StartOptions(opt)), source, path) <==> ToMount(opt, source, path)
    {
      MountedIff(opt, source, path);
    }
    EnumeratesOnce(env, Environment(opt));
  }

  lemma StartLifeCycle(opt: CommandOpt)
    ensures LifeCycle(StartOptions(opt)) == Some(Script(opt))
  {
    hide LifeCycleCommands, PostStartScript, Environment;
  }

  lemma EnumeratesOnce(env: seq<EnvVar>, envs: map<string, string>)
    requires Enumerates(env, envs)
    ensures forall i, j :: 0 <= i < j < |env| ==> env[i].name != env[j].name
  {
  }

  /** A listing of a map's entries misses none. */
  lemma EntryIn(env: seq<EnvVar>, envs: map<string, string>, name: string, value: string)
    requires Enumerates(env, envs)
    ensures EnvVar(name, value) in env <==> name in envs && envs[name] == value
  {
    if EnvVar(name, value) in env {
      var i :| 0 <= i < |env| && env[i] == EnvVar(name, value);
    }
    if name in envs && envs[name] == value {
      AllListed(env, envs);
      var i :| 0 <= i < |env| && env[i].name == name;
      assert env[i] == EnvVar(name, value);
    }
  }

  lemma AllListed(env: seq<EnvVar>, envs: map<string, string>)
    requires Enumerates(env, envs)
    ensures forall name :: name in envs ==> exists i :: 0 <= i < |env| && env[i].name == name
  {
    var names := set i | 0 <= i < |env| :: env[i].name;
    NamesCounted(env);
    assert names <= envs.Keys && |names| == |envs.Keys|;
    SameSet(names, envs.Keys);
  }

  lemma {:induction false} NamesCounted(env: seq<EnvVar>)
    requires forall i, j :: 0 <= i < j < |env| ==> env[i].name != env[j].name
    ensures |set i | 0 <= i < |env| :: env[i].name| == |env|
  {
    var names := set i | 0 <= i < |env| :: env[i].name;
    if env != [] {
      var init, last := env[..|env| - 1], env[|env| - 1];
      NamesCounted(init);
      assert names == (set i | 0 <= i < |init| :: init[i].name) + {last.name};
    }
  }

  lemma SameSet<T>(a: set<T>, b: set<T>)
    requires a <= b && |a| == |b|
    ensures a == b
  {
    assert |b - a| == |b| - |a|;
  }

  lemma MountedIff(opt: CommandOpt, source: VolumeSource, path: string)
    ensures Mounted(Volumes(StartOptions(opt)), Mounts(StartOptions(opt)), source, path) <==> ToMount(opt, source, path)
  {
    hide Volumes, Mounts, Mounted, NewVolumes, NewMounts, OfName;
    StartVolumes(opt);
    VolumeNamesDiffer();
    var o := StartOptions(opt);
    ClaimMounted(opt.imagePvc, source, path);
    LoginMounted(opt.registryLoginSecret, source, path);
    CertMounted(opt.registryLoginCertSecret, source, path);
    MountedIn(NewVolumes(o[1]), NewMounts(o[1]), "image-pvc", NewVolumes(o[2]), NewMounts(o[2]), "dockerconfigjson",
              NewVolumes(o[3]), NewMounts(o[3]), "cert", source, path);
  }

  lemma ClaimMounted(n: string, source: VolumeSource, path: string)
    ensures OfName(NewVolumes(WithPvc(n)), NewMounts(WithPvc(n)), "image-pvc")
    ensures Mounted(NewVolumes(WithPvc(n)), NewMounts(WithPvc(n)), source, path) <==>
              n != "" && source == PersistentVolumeClaim(n) && path == "/tmp"
  {
  }

  lemma LoginMounted(n: string, source: VolumeSource, path: string)
    ensures OfName(NewVolumes(WithDcjSecret(n)), NewMounts(WithDcjSecret(n)), "dockerconfigjson")
    ensures Mounted(NewVolumes(WithDcjSecret(n)), NewMounts(WithDcjSecret(n)), source, path) <==>
              n != "" && source == Secret(n) && path == "/home/dockremap"
  {
  }

  lemma CertMounted(n: string, source: VolumeSource, path: string)
    ensures OfName(NewVolumes(WithCertSecret(n)), NewMounts(WithCertSecret(n)), "cert")
    ensures Mounted(NewVolumes(WithCertSecret(n)), NewMounts(WithCertSecret(n)), source, path) <==>
              n != "" && source == Secret(n) && path == "/usr/local/share/ca-certificates"
  {
  }

  lemma VolumeNamesDiffer()
    ensures "image-pvc" != "dockerconfigjson" && "dockerconfigjson" != "cert" && "image-pvc" != "cert"
  {
    assert "image-pvc"[0] == 'i' && "dockerconfigjson"[0] == 'd' && "cert"[0] == 'c';
  }

  lemma MountedIn(u: seq<Volume>, x: seq<VolumeMount>, a: string, v: seq<Volume>, y: seq<VolumeMount>, b: string,
                  w: seq<Volume>, z: seq<VolumeMount>, c: string, source: VolumeSource, path: string)
    requires a != b && b != c && a != c
    requires OfName(u, x, a) && OfName(v, y, b) && OfName(w, z, c)
    ensures Mounted(u + v + w, x + y + z, source, path) <==>
              Mounted(u, x, source, path) || Mounted(v, y, source, path) || Mounted(w, z, source, path)
  {
    hide OfName;
    var volumes, mounts := u + v + w, x + y + z;
    forall n, m | n in volumes && m in mounts && n.name == m.name
      ensures (n in u && m in x) || (n in v && m in y) || (n in w && m in z)
    {
      NameOf(u, x, a);
      NameOf(v, y, b);
      NameOf(w, z, c);
    }
  }

  /** All of this name. */
  predicate OfName(volumes: seq<Volume>, mounts: seq<VolumeMount>, name: string) {
    (forall v :: v in volumes ==> v.name == name) && forall m :: m in mounts ==> m.name == name
  }

  lemma NameOf(volumes: seq<Volume>, mounts: seq<VolumeMount>, name: string)
    requires OfName(volumes, mounts, name)
    ensures (forall v :: v in volumes ==> v.name == name) && forall m :: m in mounts ==> m.name == name
  {
  }

  lemma StartEnv(opt: CommandOpt, env: seq<EnvVar>)
    requires EnvFrom(env, StartOptions(opt))
    ensures Enumerates(env, Environment(opt))
  {
    hide Environment, LifeCycleCommands, Enumerates;
    var o := StartOptions(opt);
    assert o[..4][..3] == o[..3] && o[..3][..2] == o[..2] && o[..2][..1] == o[..1] && o[..1][..0] == [];
    assert EnvFrom(env, o[..4]) && EnvFrom(env, o[..3]) && EnvFrom(env, o[..2]) && EnvFrom(env, o[..1]);
    var n := |env| - |Environment(opt)|;
    assert EnvFrom(env[..n], []);
    assert env[n..] == env;
  }

  /** With a login secret, the script's last command copies a file from where that secret is mounted. */
  lemma LoginFromSecret(opt: CommandOpt) returns (path: string)
    requires AllSafe(RestoredKeys(opt)) && opt.registryLoginSecret != ""
    ensures Mounted(Volumes(StartOptions(opt)), Mounts(StartOptions(opt)), Secret(opt.registryLoginSecret), path)
    ensures var cs := Parse(Script(opt));
            && cs.Some? && cs.value != []
            && var c := cs.value[|cs.value| - 1];
               |c.words| == 3 && c.words[0] == "cp" && path + "/" < c.words[1] && c.words[2] == "/root/.docker/config.json"
  {
    hide Mounted, Volumes, Mounts, Script, RestoredKeys, StoreAll, AllSafe;
    path := "/home/dockremap";
    MountedIff(opt, Secret(opt.registryLoginSecret), path);
    ScriptCommands(opt);
    LoginBelow();
  }

  lemma LoginBelow()
    ensures "/home/dockremap" + "/" < "/home/dockremap/.dockerconfigjson"
  {
    assert "/home/dockremap" + "/" + ".dockerconfigjson" == "/home/dockremap/.dockerconfigjson";
  }

  lemma NothingFrom(opt: CommandOpt)
    ensures NewVolumes(StartOptions(opt)[0]) == NewVolumes(StartOptions(opt)[4]) == []
    ensures NewMounts(StartOptions(opt)[0]) == NewMounts(StartOptions(opt)[4]) == []
  {
  }

  /** Where the volumes of a claim and of two secrets are mounted, as far as there are any. */
  function VolumeMounts(pvc: string, dcj: string, cert: string): seq<VolumeMount> {
    NewMounts(WithPvc(pvc)) + NewMounts(WithDcjSecret(dcj)) + NewMounts(WithCertSecret(cert))
  }

  lemma StartVolumes(opt: CommandOpt)
    ensures var o := StartOptions(opt); Volumes(o) == NewVolumes(o[1]) + NewVolumes(o[2]) + NewVolumes(o[3])
    ensures Mounts(StartOptions(opt)) == VolumeMounts(opt.imagePvc, opt.registryLoginSecret, opt.registryLoginCertSecret)
  {
    hide Environment, LifeCycleCommands, NewVolumes, NewMounts;
    NothingFrom(opt);
    var o := StartOptions(opt);
    assert o[..4][..3] == o[..3] && o[..3][..2] == o[..2] && o[..2][..1] == o[..1] && o[..1][..0] == [];
    assert Volumes(o[..1]) == [] && Mounts(o[..1]) == [];
    assert Volumes(o[..2]) == NewVolumes(o[1]) && Mounts(o[..2]) == NewMounts(o[1]);
    assert Volumes(o[..3]) == Volumes(o[..2]) + NewVolumes(o[2]) && Mounts(o[..3]) == Mounts(o[..2]) + NewMounts(o[2]);
    assert Volumes(o[..4]) == Volumes(o[..3]) + NewVolumes(o[3]) && Mounts(o[..4]) == Mounts(o[..3]) + NewMounts(o[3]);
    assert Volumes(o) == Volumes(o[..4]) && Mounts(o) == Mounts(o[..4]);
  }

  lemma StartPaired(pvc: string, dcj: string, cert: string)
    ensures Paired(NewVolumes(WithPvc(pvc)) + NewVolumes(WithDcjSecret(dcj)) + NewVolumes(WithCertSecret(cert)),
                   VolumeMounts(pvc, dcj, cert))
  {
    hide Paired;
    var a, b, c := ImagePvc, "dockerconfigjson", "cert";
    assert a[0] == 'i' && b[0] == 'd' && c[0] == 'c';
    var p, q, r := ImageMountPath, "/home/dockremap", "/usr/local/share/ca-certificates";
    assert p[1] == 't' && q[1] == 'h' && r[1] == 'u';
    PairedPieces(NewVolumes(WithPvc(pvc)), NewMounts(WithPvc(pvc)), a, p,
                 NewVolumes(WithDcjSecret(dcj)), NewMounts(WithDcjSecret(dcj)), b, q,
                 NewVolumes(WithCertSecret(cert)), NewMounts(WithCertSecret(cert)), c, r);
  }

  /** One volume and its mount, or neither. */
  predicate Piece(volumes: seq<Volume>, mounts: seq<VolumeMount>, name: string, path: string) {
    || (volumes == [] && mounts == [])
    || (|volumes| == 1 && volumes[0].name == name && mounts == [VolumeMount(name, path)])
  }

  lemma PairedWith(volumes: seq<Volume>, mounts: seq<VolumeMount>, v: seq<Volume>, y: seq<VolumeMount>, name: string,
      path: string)
    requires Paired(volumes, mounts) && Piece(v, y, name, path)
    requires forall i :: 0 <= i < |mounts| ==> mounts[i].name != name && mounts[i].mountPath != path
    ensures Paired(volumes + v, mounts + y)
  {
  }

  lemma PairedPieces(u: seq<Volume>, x: seq<VolumeMount>, a: string, p: string,
                     v: seq<Volume>, y: seq<VolumeMount>, b: string, q: string,
                     w: seq<Volume>, z: seq<VolumeMount>, c: string, r: string)
    requires Piece(u, x, a, p) && Piece(v, y, b, q) && Piece(w, z, c, r)
    requires a != b && b != c && a != c && p != q && q != r && p != r
    ensures Paired(u + v + w, x + y + z)
  {
    assert Paired(u, x);
    hide Paired;
    PairedWith(u, x, v, y, b, q);
    PairedWith(u + v, x + y, w, z, c, r);
  }
}
