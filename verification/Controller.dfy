/** The signing controller as the program runs it: it starts a pod, drives it with commands, and stores keys. */
module Controller {
  import opened Wrappers
  import opened Strings
  import opened Paths
  import opened ApiTypes
  import opened Naming
  import opened Shell
  import opened CommandOptions
  import opened Commands
  import opened Protocol
  import opened ProtocolInvariant
  import opened Objects
  import opened Operator

  /** Reading a Go map: a missing key reads as the empty string. */
  function MapRead(m: map<string, string>, k: string): string { if k in m then m[k] else "" }

  /** The passphrase that a set of passphrases holds for a role. */
  function PassPhrase(phrase: map<string, string>, r: Role): string {
    match r
    case Root => MapRead(phrase, "DOCKER_CONTENT_TRUST_ROOT_PASSPHRASE")
    case Target => MapRead(phrase, "DOCKER_CONTENT_TRUST_REPOSITORY_PASSPHRASE")
  }

  /** The line by which a key's file is known. */
  function Line(role: Role): string {
    match role
    case Root => "role: root"
    case Target => "role: target"
  }

  lemma LineIs(role: Role)
    ensures RoleLine(role) == Line(role)
  {
    assert "role: " + "root" == "role: root" && "role: " + "target" == "role: target";
  }

  /** A listing and texts of listed files, of which the last is the first with the role's line: that file's key. */
  ghost predicate FirstFound(answers: seq<Answer>, role: Role, k: TrustKey, pass: string) {
    && |answers| >= 2 && (forall i :: 0 <= i < |answers| ==> answers[i].Ran?)
    && |answers| - 1 <= |Fields(answers[0].text)|
    && Contains(answers[|answers| - 1].text, Line(role))
    && (forall i :: 1 <= i < |answers| - 1 ==> !Contains(answers[i].text, Line(role)))
    && k == TrustKey(Fields(answers[0].text)[|answers| - 2], answers[|answers| - 1].text, pass)
  }

  /** A listing and the texts of all listed files, none with the role's line. */
  ghost predicate NoneFound(answers: seq<Answer>, role: Role) {
    && answers != [] && (forall i :: 0 <= i < |answers| ==> answers[i].Ran?)
    && |answers| - 1 == |Fields(answers[0].text)|
    && forall i :: 1 <= i < |answers| ==> !Contains(answers[i].text, Line(role))
  }

  /** The texts handed to a shell, for as many answers as there are: first to list the key files, then to read them. */
  ghost predicate ListsAndReads(texts: seq<string>, answers: seq<Answer>) {
    && |texts| == |answers| >= 1 && texts[0] == "ls --color=never " + "/root/.docker/trust/private"
    && answers[0].Ran?
    && forall i :: 1 <= i < |texts| ==>
         i - 1 < |Fields(answers[0].text)| && texts[i] == "cat " + KeyPath(Fields(answers[0].text)[i - 1])
  }

  /** Creating the pod, and looking at it once a second until it runs. */
  predicate CameUp(answers: seq<Answer>) {
    && 2 <= |answers| <= 61 && answers[0].Accepted? && answers[|answers| - 1] == Phase(true)
    && forall i :: 1 <= i < |answers| - 1 ==> answers[i] == Phase(false)
  }

  /** A minute of looking. */
  predicate NeverUp(answers: seq<Answer>) {
    |answers| == 61 && answers[0].Accepted? && forall i :: 1 <= i < 61 ==> answers[i] == Phase(false)
  }

  /** The texts that load, list, tag and sign an image. */
  function SignTexts(imageName: string, imageTag: string, registry: Option<map<string, string>>, ids: seq<string>): seq<string> {
    ["docker load < " + PathJoin(["/tmp", imageName + ".tar"]), "docker images -q"] +
    if ids == [] || registry.None? then []
    else
      var ref := PathJoin([GetEndpoint(registry.value), imageName]) + ":" + imageTag;
      ["docker tag " + ids[0] + " " + ref, "docker trust sign " + ref]
  }

  /** For a clean image and an endpoint without a path, the archive and the reference are what they should be. */
  lemma SignTextsAre(imageName: string, imageTag: string, annotations: map<string, string>, ids: seq<string>)
    requires imageName != "" && CleanImage(imageName) && Normal(GetEndpoint(annotations)) && ids != []
    ensures var ref := GetEndpoint(annotations) + "/" + imageName + ":" + imageTag;
            SignTexts(imageName, imageTag, Some(annotations), ids) ==
            [ "docker load < " + ("/" + ("tmp" + "/" + (imageName + ".tar"))), "docker images -q",
              "docker tag " + ids[0] + " " + ref, "docker trust sign " + ref ]
  {
    hide GetEndpoint, Split, PathJoin;
    ArchiveName(imageName);
    JoinUnder("tmp", imageName + ".tar");
    assert "/" + "tmp" == "/tmp";
    JoinBelow(GetEndpoint(annotations), imageName);
  }

  /** The texts that generate a root key. */
  function GenerateTexts(): seq<string> {
    ["mkdir -p " + "/root/.docker/trust", "docker trust key generate " + "root" + " --dir " + "/root/.docker/trust"]
  }

  /** The first so many texts were handed to a shell, and that many answers came. */
  ghost predicate SentFirst(before: seq<string>, asked: seq<string>, seen: seq<Answer>, log: seq<Answer>, texts: seq<string>) {
    && seen <= log && |log| - |seen| <= |texts| && asked == before + texts[..|log| - |seen|]
  }

  /** The closure in Start: one key's environment entry and the command that restores its file. */
  method AddEnvAndCmd(envs: map<string, string>, cmds: seq<string>, trustKey: Option<TrustKey>, r: Role)
    returns (envs': map<string, string>, cmds': seq<string>)
    ensures envs' == envs + KeyEnv(trustKey, r)
    ensures cmds' == cmds + StoreCommands(Restorable(trustKey))
  {
    hide StoreFileShellCommand, RoleEnv;
    envs', cmds' := envs, cmds;
    if trustKey.Some? {
      var k := trustKey.value;
      if |k.passPhrase| > 0 {
        envs' := envs'[RoleEnv(r) := k.passPhrase];
      }
      if |k.id| > 0 && |k.key| > 0 {
        cmds' := cmds' + [StoreFileShellCommand(k.id, k.key)];
      }
    }
  }

  /** What Start collects for the pod. */
  method CollectOptions(opt: CommandOpt) returns (envs: map<string, string>, cmds: seq<string>)
    ensures envs == Environment(opt) && cmds == LifeCycleCommands(opt)
    ensures forall name, value :: name in envs && envs[name] == value <==> IsEntry(opt, name, value)
    ensures Behind(cmds) == RestoreText(opt.rootKey) + RestoreText(opt.targetKey) + LoginBehind(opt.registryLoginSecret)
  {
    hide StoreFileShellCommand, RoleEnv, StoreCommands, KeyEnv, Restorable, LoginCommand;
    envs, cmds := map[], [];
    envs, cmds := AddEnvAndCmd(envs, cmds, opt.rootKey, Root);
    assert envs == KeyEnv(opt.rootKey, Root) && cmds == StoreCommands(Restorable(opt.rootKey));
    envs, cmds := AddEnvAndCmd(envs, cmds, opt.targetKey, Target);
    StoreCommandsAppend(Restorable(opt.rootKey), Restorable(opt.targetKey));
    if |opt.registryLoginSecret| > 0 {
      cmds := cmds + [LoginCommand];
    }
    CollectedAre(opt);
  }

  lemma CollectedAre(opt: CommandOpt)
    ensures forall name, value ::
              name in Environment(opt) && Environment(opt)[name] == value <==> IsEntry(opt, name, value)
    ensures Behind(LifeCycleCommands(opt))
         == RestoreText(opt.rootKey) + RestoreText(opt.targetKey) + LoginBehind(opt.registryLoginSecret)
  {
    hide Environment, IsEntry, LifeCycleCommands;
    forall name, value
      ensures name in Environment(opt) && Environment(opt)[name] == value <==> IsEntry(opt, name, value)
    {
      EnvironmentIs(opt, name, value);
    }
    BehindAll(opt);
  }

  class SigningController {
    const cluster: Cluster
    const w: nat
    const signer: string
    const namespace: string
    const pod: string
    const regctl: Option<map<string, string>>
    var startedPod: DindPod.Pod?
    var isRunning: bool

    constructor (cluster: Cluster, w: nat, signer: string, namespace: string, pod: string, regctl: Option<map<string, string>>)
      ensures this.cluster == cluster && this.w == w && this.signer == signer && this.namespace == namespace
      ensures this.pod == pod && this.regctl == regctl && startedPod == null && !isRunning
    {
      this.cluster, this.w, this.signer, this.namespace := cluster, w, signer, namespace;
      this.pod, this.regctl := pod, regctl;
      startedPod, isRunning := null, false;
    }

    /** This is the controller of run `w`. */
    ghost predicate Serves(wk: Worker)
      reads this
    {
      && wk.job.Signer() == signer && wk.regctl == regctl && wk.pod == Some(NamespacedName(namespace, pod))
      && (startedPod != null ==> startedPod.namespace == namespace && startedPod.name == pod)
    }

    method Start(ghost wk: Worker, opt: CommandOpt) returns (r: Flow<()>)
      requires cluster.Valid() && cluster.At(w, wk) && wk.pc.CreatePod? && opt == wk.opt
      requires Serves(wk) && startedPod == null && !isRunning
      modifies this, cluster
      ensures cluster.Continues(old(cluster.events), old(cluster.log)) && !r.Panicked? && cluster.Leaves(w, wk, r)
      ensures Serves(wk) && startedPod != null
      ensures r.Back? ==>
                cluster.At(w, if isRunning then wk.(pc := if wk.job.SignJob? then LoadImage else MakeDir)
                              else NameTaken(wk))
      ensures startedPod.image == "docker:19.03.0-beta5-dind" && startedPod.container == "docker-cli" && startedPod.privileged
      ensures DindPod.PodFor(opt, startedPod.env, startedPod.volumes, startedPod.mounts, startedPod.postStart)
      ensures r.Back? ==>
                var answers := cluster.log[|old(cluster.log)|..];
                if isRunning then CameUp(answers) else answers == [Exists]
      ensures r.Erred? && Last(cluster.log).Phase? ==>
                r.error == "pod is not running" && NeverUp(cluster.log[|old(cluster.log)|..])
    {
      hide Inv, Run, FailsWith, NameTaken, Script, LifeCycleCommands, Environment, DindPod.EnvFrom, DindPod.Volumes,
           DindPod.Mounts, DindPod.PodFor, IsEntry, RestoreText, LoginBehind, Behind;
      var envs, cmds := CollectOptions(opt);
      var options := [
        DindPod.WithEnv(Some(envs)),
        DindPod.WithPvc(opt.imagePvc),
        DindPod.WithDcjSecret(opt.registryLoginSecret),
        DindPod.WithCertSecret(opt.registryLoginCertSecret),
        DindPod.WithLifeCycle(cmds)
      ];
      startedPod := DindPod.NewDindPod(namespace, pod, "docker-cli", "", options);
      DindPod.StartPodWellFormed(opt, startedPod.env);

      ghost var seen := cluster.log;
      var created :- cluster.CreatePod(w, wk, startedPod);
      if !created {
        return Back(());
      }

      ghost var made := cluster.log;
      r := AwaitRunning(wk);
      if !r.Died? {
        assert cluster.log[|seen|..] == [made[|seen|]] + cluster.log[|made|..];
      }
    }

    /** The rest of Start: look at the pod again and again until it runs. */
    method AwaitRunning(ghost wk: Worker) returns (r: Flow<()>)
      requires cluster.Valid() && cluster.At(w, wk.(pc := WaitPod(0))) && wk.pc.CreatePod?
      requires Serves(wk) && startedPod != null && !isRunning
      modifies this`isRunning, cluster
      ensures cluster.Continues(old(cluster.events), old(cluster.log)) && !r.Panicked? && cluster.Leaves(w, wk, r)
      ensures Serves(wk)
      ensures r.Back? ==> isRunning && cluster.At(w, wk.(pc := if wk.job.SignJob? then LoadImage else MakeDir))
      ensures unchanged(this`startedPod)
      ensures r.Back? ==>
                var looks := cluster.log[|old(cluster.log)|..];
                && 1 <= |looks| <= 60 && looks[|looks| - 1] == Phase(true)
                && forall i :: 0 <= i < |looks| - 1 ==> looks[i] == Phase(false)
      ensures r.Erred? && Last(cluster.log).Phase? ==>
                var looks := cluster.log[|old(cluster.log)|..];
                r.error == "pod is not running" && |looks| == 60 && forall i :: 0 <= i < 60 ==> looks[i] == Phase(false)
    {
      hide Inv, Run, FailsWith;
      for cnt := 0 to MaxRetryCount
        invariant cluster.Continues(old(cluster.events), old(cluster.log)) && Serves(wk) && startedPod != null && !isRunning
        invariant |cluster.log| == |old(cluster.log)| + cnt
        invariant forall i :: |old(cluster.log)| <= i < |cluster.log| ==> cluster.log[i] == Phase(false)
        invariant cluster.At(w, if cnt < MaxRetryCount then wk.(pc := WaitPod(cnt)) else wk.Fail("pod is not running", Pc.Close))
      {
        var running :- cluster.GetPod(w, wk.(pc := WaitPod(cnt)), namespace, pod, cnt);
        if running {
          isRunning := true;
          break;
        }
      }

      if !isRunning {
        OwnErrors(Last(cluster.log));
        return Erred("pod is not running");
      }
      return Back(());
    }

    method Close(ghost wk: Worker) returns (r: Flow<()>)
      requires cluster.Valid() && cluster.At(w, wk) && wk.pc.Close? && Serves(wk) && startedPod != null
      modifies cluster
      ensures cluster.Continues(old(cluster.events), old(cluster.log)) && !r.Panicked?
      ensures if r.Died? then cluster.Gone(w, wk)
              else exists deleted :: cluster.At(w, wk.(deleted := Some(deleted), pc := Respond))
      ensures !r.Died? ==> cluster.OneMore(old(cluster.log))
      ensures r.Back? ==>
                var p := NamespacedName(namespace, pod);
                if p in cluster.s.pods then !cluster.s.pods[p].live else p !in cluster.s.foreign
    {
      r := cluster.DeletePod(w, wk, startedPod);
    }

    // ---------------------------------------------------------------- commands

    method ListKey(ghost wk: Worker) returns (r: Flow<string>)
      requires cluster.Valid() && cluster.At(w, wk) && Serves(wk) && wk.pc.ListKeys?
      modifies cluster
      ensures cluster.Continues(old(cluster.events), old(cluster.log)) && !r.Panicked? && cluster.Leaves(w, wk, r)
      ensures r.Back? ==> cluster.At(w, Scan(wk, Fields(r.value)))
      ensures !r.Died? ==> cluster.Printed(old(cluster.log), r)
      ensures cluster.asked == old(cluster.asked) + ["ls --color=never " + "/root/.docker/trust/private"]
    {
      hide Inv, Run, Scan, Fields, Join;
      TextIs(NextCommand(wk).value);
      r := cluster.Exec(w, wk, namespace, pod, "docker-cli", Join(["ls", "--color=never", PrivateKeyDir], " "));
    }

    method ReadKey(ghost wk: Worker, name: string) returns (r: Flow<string>)
      requires cluster.Valid() && cluster.At(w, wk) && Serves(wk) && wk.pc.ReadKeys? && wk.pc.names != []
               && name == wk.pc.names[0]
      modifies cluster
      ensures cluster.Continues(old(cluster.events), old(cluster.log)) && !r.Panicked? && cluster.Leaves(w, wk, r)
      ensures r.Back? ==> cluster.At(w, AfterRead(wk, wk.pc.names, r.value))
      ensures !r.Died? ==> cluster.Printed(old(cluster.log), r)
      ensures cluster.asked == old(cluster.asked) + ["cat " + KeyPath(name)]
    {
      hide Inv, Run, AfterRead, Join, KeyPath;
      TextIs(NextCommand(wk).value);
      r := cluster.Exec(w, wk, namespace, pod, "docker-cli", Join(["cat", KeyPath(name)], " "));
    }

    method LoadImageTar(ghost wk: Worker, path: string) returns (r: Flow<string>)
      requires cluster.Valid() && cluster.At(w, wk) && Serves(wk) && wk.pc.LoadImage? && wk.job.SignJob?
               && path == ArchivePath(wk.job.spec)
      modifies cluster
      ensures cluster.Continues(old(cluster.events), old(cluster.log)) && !r.Panicked? && cluster.Leaves(w, wk, r)
      ensures r.Back? ==> cluster.At(w, wk.(pc := ListImages))
      ensures !r.Died? ==> cluster.Printed(old(cluster.log), r)
      ensures cluster.asked == old(cluster.asked) + ["docker load < " + path]
    {
      hide Inv, Run, Join, ArchivePath;
      TextIs(NextCommand(wk).value);
      r := cluster.Exec(w, wk, namespace, pod, "docker-cli", Join(["docker", "load", "<", path], " "));
    }

    method ListImageId(ghost wk: Worker) returns (r: Flow<string>)
      requires cluster.Valid() && cluster.At(w, wk) && Serves(wk) && wk.pc.ListImages?
      modifies cluster
      ensures cluster.Continues(old(cluster.events), old(cluster.log)) && !r.Panicked? && cluster.Leaves(w, wk, r)
      ensures r.Back? ==> cluster.At(w, AfterImages(wk, Fields(r.value)))
      ensures !r.Died? ==> cluster.Printed(old(cluster.log), r)
      ensures cluster.asked == old(cluster.asked) + ["docker images -q"]
    {
      hide Inv, Run, Join, AfterImages, Fields;
      TextIs(NextCommand(wk).value);
      r := cluster.Exec(w, wk, namespace, pod, "docker-cli", Join(["docker", "images", "-q"], " "));
    }

    method TagWith(ghost wk: Worker, target: string, tagName: string) returns (r: Flow<string>)
      requires cluster.Valid() && cluster.At(w, wk) && Serves(wk) && wk.pc == TagImage(target) && wk.job.SignJob?
      requires wk.regctl.Some? && tagName == ImageRef(wk.job.spec, wk.regctl.value)
      modifies cluster
      ensures cluster.Continues(old(cluster.events), old(cluster.log)) && !r.Panicked? && cluster.Leaves(w, wk, r)
      ensures r.Back? ==> cluster.At(w, wk.(pc := Sign))
      ensures !r.Died? ==> cluster.Printed(old(cluster.log), r)
      ensures cluster.asked == old(cluster.asked) + ["docker tag " + target + " " + tagName]
    {
      hide Inv, Run, Join, ImageRef;
      TextIs(NextCommand(wk).value);
      r := cluster.Exec(w, wk, namespace, pod, "docker-cli", Join(["docker", "tag", target, tagName], " "));
    }

    method SignAndPush(ghost wk: Worker, imageName: string) returns (r: Flow<string>)
      requires cluster.Valid() && cluster.At(w, wk) && Serves(wk) && wk.pc.Sign? && wk.job.SignJob?
      requires wk.regctl.Some? && imageName == ImageRef(wk.job.spec, wk.regctl.value)
      modifies cluster
      ensures cluster.Continues(old(cluster.events), old(cluster.log)) && !r.Panicked? && cluster.Leaves(w, wk, r)
      ensures r.Back? ==> cluster.At(w, AfterSign(wk))
      ensures !r.Died? ==> cluster.Printed(old(cluster.log), r)
      ensures cluster.asked == old(cluster.asked) + ["docker trust sign " + imageName]
    {
      hide Inv, Run, Join, ImageRef, AfterSign;
      TextIs(NextCommand(wk).value);
      r := cluster.Exec(w, wk, namespace, pod, "docker-cli", Join(["docker", "trust", "sign", imageName], " "));
    }

    /** Two commands: make the directory, then generate the key. */
    method GenerateRootKey(ghost wk: Worker) returns (r: Flow<string>)
      requires cluster.Valid() && cluster.At(w, wk) && wk.pc.MakeDir? && Serves(wk)
      modifies cluster
      ensures cluster.Continues(old(cluster.events), old(cluster.log)) && !r.Panicked? && cluster.Leaves(w, wk, r)
      ensures r.Back? ==> cluster.At(w, wk.(pc := ListKeys)) && |cluster.log| == |old(cluster.log)| + 2
      ensures !r.Died? ==> SentFirst(old(cluster.asked), cluster.asked, old(cluster.log), cluster.log, GenerateTexts())
    {
      hide Inv, Run, Join;
      TextIs(MkdirBase);
      TextIs(GenerateKey(Root));
      var made :- cluster.Exec(w, wk, namespace, pod, "docker-cli", Join(["mkdir", "-p", BaseDir], " "));
      r := cluster.Exec(w, wk.(pc := Generate), namespace, pod, "docker-cli",
        Join(["docker", "trust", "key", "generate", RoleName(Root), "--dir", BaseDir], " "));
    }

    // ---------------------------------------------------------------- what the reconcilers ask for

    /** The texts sent and the answers: a listing, and then the texts of the first `n` files, none with the role's line. */
    static ghost predicate ReadSoFar(was: seq<string>, asked: seq<string>, before: seq<Answer>, log: seq<Answer>,
        names: seq<string>, n: nat, role: Role)
    {
      && |log| == |before| + 1 + n && before <= log && log[|before|].Ran? && Fields(log[|before|].text) == names
      && Last(log).Ran? && Last(log).ok
      && (forall i :: |before| < i < |log| ==> log[i].Ran? && !Contains(log[i].text, Line(role)))
      && was <= asked && ListsAndReads(asked[|was|..], log[|before|..])
    }

    /** The listing, whatever its answer. */
    static lemma ListedFirst(was: seq<string>, before: seq<Answer>, role: Role)
      ensures forall a: Answer :: a.Ran? ==>
                var asked, log := was + ["ls --color=never " + "/root/.docker/trust/private"], before + [a];
                && ListsAndReads(asked[|was|..], log[|before|..])
                && (a.ok ==> ReadSoFar(was, asked, before, log, Fields(a.text), 0, role))
    {
      hide Fields, Contains, Line;
      var text := "ls --color=never " + "/root/.docker/trust/private";
      forall a: Answer | a.Ran?
        ensures ListsAndReads((was + [text])[|was|..], (before + [a])[|before|..])
        ensures a.ok ==> ReadSoFar(was, was + [text], before, before + [a], Fields(a.text), 0, role)
      {
        assert (was + [text])[|was|..] == [text] && (before + [a])[|before|..] == [a];
      }
    }

    /** One more text, whatever its answer. */
    static lemma ReadsOn(was: seq<string>, asked: seq<string>, before: seq<Answer>, log: seq<Answer>, names: seq<string>, n: nat,
        role: Role)
      requires ReadSoFar(was, asked, before, log, names, n, role) && n < |names|
      ensures was <= asked && before <= log
      ensures forall a: Answer :: ListsAndReads((asked + ["cat " + KeyPath(names[n])])[|was|..], (log + [a])[|before|..])
    {
      hide Fields, KeyPath, Contains, Line;
      var text := "cat " + KeyPath(names[n]);
      forall a: Answer ensures ListsAndReads((asked + [text])[|was|..], (log + [a])[|before|..]) {
        assert (asked + [text])[|was|..] == asked[|was|..] + [text];
        assert (log + [a])[|before|..] == log[|before|..] + [a];
      }
    }

    /** That file has no such line, or it has. */
    static lemma OneMoreRead(was: seq<string>, asked: seq<string>, before: seq<Answer>, log: seq<Answer>, names: seq<string>,
        n: nat, role: Role, a: Answer, pass: string)
      requires ReadSoFar(was, asked, before, log, names, n, role) && n < |names| && a.Ran? && a.ok
      ensures was <= asked && before <= log
      ensures var more := asked + ["cat " + KeyPath(names[n])];
              if Contains(a.text, Line(role)) then
                && ListsAndReads(more[|was|..], (log + [a])[|before|..])
                && FirstFound((log + [a])[|before|..], role, TrustKey(names[n], a.text, pass), pass)
              else ReadSoFar(was, more, before, log + [a], names, n + 1, role)
    {
      hide Fields, KeyPath, Contains, Line, ListsAndReads;
      ReadsOn(was, asked, before, log, names, n, role);
      var answers := (log + [a])[|before|..];
      assert |answers| == n + 2 && answers[0] == log[|before|];
      forall i | 1 <= i < n + 1 ensures answers[i].Ran? && !Contains(answers[i].text, Line(role)) {
        assert answers[i] == log[|before| + i];
      }
    }

    static lemma AllRead(was: seq<string>, asked: seq<string>, before: seq<Answer>, log: seq<Answer>,
        names: seq<string>, role: Role)
      requires ReadSoFar(was, asked, before, log, names, |names|, role)
      ensures was <= asked && before <= log && log != [] && Last(log).Ran? && Last(log).ok
      ensures ListsAndReads(asked[|was|..], log[|before|..]) && NoneFound(log[|before|..], role)
    {
      hide Fields, Contains, Line, ListsAndReads;
      var answers := log[|before|..];
      forall i | 1 <= i < |answers| ensures answers[i].Ran? && !Contains(answers[i].text, Line(role)) {
        assert answers[i] == log[|before| + i];
      }
    }

    /** List the key files and read them until one carries the role's line. */
    method ReadTrustKey(ghost wk: Worker, phrase: map<string, string>, role: Role) returns (r: Flow<TrustKey>)
      requires cluster.Valid() && cluster.At(w, wk) && wk.pc.ListKeys? && Serves(wk)
      requires role == wk.job.Role() && PassPhrase(phrase, role) == PassOf(wk)
      modifies cluster
      ensures cluster.Continues(old(cluster.events), old(cluster.log)) && !r.Panicked? && cluster.Leaves(w, wk, r)
      ensures r.Back? ==> cluster.At(w, AfterFound(wk, r.value))
      ensures old(cluster.asked) <= cluster.asked
      ensures !r.Died? ==>
                ListsAndReads(cluster.asked[|old(cluster.asked)|..], cluster.log[|old(cluster.log)|..])
      ensures r.Back? ==> FirstFound(cluster.log[|old(cluster.log)|..], role, r.value, PassPhrase(phrase, role))
      ensures r.Erred? && Last(cluster.log).Ran? && Last(cluster.log).ok ==>
                r.error == "key file not found" && NoneFound(cluster.log[|old(cluster.log)|..], role)
    {
      hide Inv, Run, PassOf, FirstFound, NoneFound, FailsWith, Fields, AfterFound, PassPhrase, ListsAndReads, ReadSoFar, Scan;
      ghost var was, before := cluster.asked, cluster.log;
      ListedFirst(was, before, role);
      var out :- ListKey(wk);
      r := ReadListed(wk, phrase, role, Fields(out), was, before);
    }

    /** The rest of readTrustKey. */
    method ReadListed(ghost wk: Worker, phrase: map<string, string>, role: Role, keys: seq<string>, ghost was: seq<string>,
        ghost before: seq<Answer>) returns (r: Flow<TrustKey>)
      requires cluster.Valid() && cluster.At(w, Scan(wk, keys)) && Serves(wk)
      requires role == wk.job.Role() && PassPhrase(phrase, role) == PassOf(wk)
      requires ReadSoFar(was, cluster.asked, before, cluster.log, keys, 0, role)
      modifies cluster
      ensures cluster.Continues(old(cluster.events), before) && !r.Panicked? && cluster.Leaves(w, wk, r)
      ensures r.Back? ==> cluster.At(w, AfterFound(wk, r.value))
      ensures was <= cluster.asked
      ensures !r.Died? ==> ListsAndReads(cluster.asked[|was|..], cluster.log[|before|..])
      ensures r.Back? ==> FirstFound(cluster.log[|before|..], role, r.value, PassPhrase(phrase, role))
      ensures r.Erred? && Last(cluster.log).Ran? && Last(cluster.log).ok ==>
                r.error == "key file not found" && NoneFound(cluster.log[|before|..], role)
    {
      hide Inv, Run, PassOf, FirstFound, NoneFound, FailsWith, AfterRead, Fields, AfterFound, RoleLine, Contains,
           RoleEnv, PassPhrase, Line, ListsAndReads, KeyPath, ReadSoFar, Scan;
      LineIs(role);
      SoFar(was, cluster.asked, before, cluster.log, keys, 0, role);
      var found, trustKey := false, TrustKey("", "", "");

      for i := 0 to |keys|
        invariant cluster.Continues(old(cluster.events), before) && !found && was <= cluster.asked
        invariant cluster.At(w, Scan(wk, keys[i..]))
        invariant ReadSoFar(was, cluster.asked, before, cluster.log, keys, i, role)
      {
        ReadsOn(was, cluster.asked, before, cluster.log, keys, i, role);
        ghost var asked, seen := cluster.asked, cluster.log;
        ghost var here := wk.(pc := ReadKeys(keys[i..]));
        ScanIs(wk, keys[i..]);
        var text :- ReadKey(here, keys[i]);
        ReadLeads(wk, here, keys[i..], text);
        assert keys[i..][1..] == keys[i + 1..];
        OneMoreRead(was, asked, before, seen, keys, i, role, Last(cluster.log), PassPhrase(phrase, role));
        if Contains(text, RoleLine(role)) {
          trustKey := TrustKey(keys[i], text, MapRead(phrase, RoleEnv(role)));
          ReadPass(phrase, role);
          found := true;
          break;
        }
      }

      if !found {
        AllRead(was, cluster.asked, before, cluster.log, keys, role);
        OwnErrors(Last(cluster.log));
        ScanIs(wk, keys[|keys|..]);
        return Erred("key file not found");
      }
      return Back(trustKey);
    }

    static lemma SoFar(was: seq<string>, asked: seq<string>, before: seq<Answer>, log: seq<Answer>, names: seq<string>, n: nat,
        role: Role)
      requires ReadSoFar(was, asked, before, log, names, n, role)
      ensures was <= asked && before <= log
    {
      hide Fields, Contains, Line, ListsAndReads;
    }

    static lemma ScanIs(wk: Worker, names: seq<string>)
      ensures Scan(wk, names) == if names == [] then wk.Fail("key file not found", Pc.Close) else wk.(pc := ReadKeys(names))
    {
    }

    static lemma ReadPass(phrase: map<string, string>, role: Role)
      ensures MapRead(phrase, RoleEnv(role)) == PassPhrase(phrase, role)
    {
    }

    /** A reading at any point of the scan leads where it would from the start. */
    static lemma ReadLeads(wk: Worker, here: Worker, names: seq<string>, text: string)
      requires here == wk.(pc := here.pc) && names != []
      ensures AfterRead(here, names, text) ==
              if Contains(text, RoleLine(wk.job.Role())) then AfterFound(wk, TrustKey(names[0], text, PassOf(wk)))
              else Scan(wk, names[1..])
    {
      hide Contains, RoleLine;
    }

    static lemma SameSign(wk: Worker)
      requires wk.job.SignJob?
      ensures AfterSign(wk.(pc := Sign)) == AfterSign(wk)
    {
    }

    static lemma SameImages(wk: Worker, ids: seq<string>)
      ensures AfterImages(wk.(pc := ListImages), ids) == AfterImages(wk, ids)
      ensures ids == [] ==> AfterImages(wk, ids) == wk.Fail("image is not found", Pc.Close)
    {
    }

    static lemma TarOf(spec: ImageSignRequestSpec)
      ensures ArchivePath(spec) == PathJoin([DindPod.ImageMountPath, ImageName(spec) + ".tar"])
    {
    }

    static lemma ImageOf(spec: ImageSignRequestSpec, annotations: map<string, string>)
      ensures ImageRef(spec, annotations) ==
              PathJoin([GetEndpoint(annotations), ImageName(spec)]) + ":" + ParseImage(spec.image).1
    {
    }

    /** Load the image from its volume, tag it with the registry's name, sign it. */
    method SignImage(ghost wk: Worker, imageName: string, imageTag: string) returns (r: Flow<()>)
      requires cluster.Valid() && cluster.At(w, wk) && wk.pc.LoadImage? && wk.job.SignJob? && Serves(wk)
      requires imageName == ImageName(wk.job.spec) && imageTag == ParseImage(wk.job.spec.image).1
      modifies cluster
      ensures cluster.Continues(old(cluster.events), old(cluster.log)) && cluster.Leaves(w, wk, r)
      ensures r.Back? ==> cluster.At(w, AfterSign(wk)) && |cluster.log| == |old(cluster.log)| + 4
      ensures !r.Died? ==>
                SentFirst(old(cluster.asked), cluster.asked, old(cluster.log), cluster.log,
                          SignTexts(imageName, imageTag, regctl, ImageIds(old(cluster.log), cluster.log)))
      ensures (r.Panicked? ==> regctl.None?) && (r.Back? ==> regctl.Some?)
      ensures r.Erred? && Last(cluster.log).Ran? && Last(cluster.log).ok ==>
                r.error == "image is not found" && ImageIds(old(cluster.log), cluster.log) == []
    {
      hide Inv, Run, FailsWith, AfterImages, AfterSign, Fields, ParseImage, GetEndpoint, PathJoin, ArchivePath, ImageRef,
           ImageName, SignTexts, ImageIds;
      var tar := PathJoin([DindPod.ImageMountPath, imageName + ".tar"]);
      TarOf(wk.job.spec);
      ghost var asked, seen := cluster.asked, cluster.log;
      LoadSent(asked, seen, imageName, imageTag, regctl);
      var loaded :- LoadImageTar(wk, tar);
      ghost var first := cluster.log;
      r := SignLoaded(wk, imageName, imageTag);
      if !r.Died? {
        SentOn(asked, seen, first, cluster.asked, cluster.log, imageName, imageTag, regctl);
      }
    }

    /** What the listing of the images printed, if things have come to that. */
    static ghost function ImageIds(seen: seq<Answer>, log: seq<Answer>): seq<string> {
      if |log| >= |seen| + 2 && log[|seen| + 1].Ran? then Fields(log[|seen| + 1].text) else []
    }

    static lemma LoadSent(asked: seq<string>, seen: seq<Answer>, name: string, tag: string, registry: Option<map<string, string>>)
      ensures forall a: Answer ::
                SentFirst(asked, asked + ["docker load < " + PathJoin([DindPod.ImageMountPath, name + ".tar"])], seen, seen + [a],
                          SignTexts(name, tag, registry, ImageIds(seen, seen + [a])))
    {
      hide PathJoin, GetEndpoint, Fields;
      forall a: Answer
        ensures SentFirst(asked, asked + ["docker load < " + PathJoin([DindPod.ImageMountPath, name + ".tar"])], seen, seen + [a],
                          SignTexts(name, tag, registry, ImageIds(seen, seen + [a])))
      {
        var texts := SignTexts(name, tag, registry, ImageIds(seen, seen + [a]));
        assert texts[..1] == [texts[0]];
      }
    }

    /** From the listing on, and so from the loading on. */
    static lemma SentOn(asked: seq<string>, seen: seq<Answer>, first: seq<Answer>, after: seq<string>, log: seq<Answer>,
        name: string, tag: string, registry: Option<map<string, string>>)
      requires first != [] && first == seen + [Last(first)] && first <= log
      requires SentFirst(asked + ["docker load < " + PathJoin([DindPod.ImageMountPath, name + ".tar"])], after, first, log,
                         SignTexts(name, tag, registry, IdsHere(first, log))[1..])
      ensures ImageIds(seen, log) == IdsHere(first, log)
      ensures SentFirst(asked, after, seen, log, SignTexts(name, tag, registry, ImageIds(seen, log)))
    {
      hide PathJoin, GetEndpoint, Fields;
      var texts := SignTexts(name, tag, registry, IdsHere(first, log));
      var n := |log| - |first|;
      assert asked + [texts[0]] + texts[1..][..n] == asked + texts[..n + 1];
    }

    /** The same once the image is loaded. */
    static ghost function IdsHere(first: seq<Answer>, log: seq<Answer>): seq<string> {
      if |log| >= |first| + 1 && log[|first|].Ran? then Fields(log[|first|].text) else []
    }

    /** The rest of SignImage. */
    method SignLoaded(ghost wk: Worker, imageName: string, imageTag: string) returns (r: Flow<()>)
      requires cluster.Valid() && cluster.At(w, wk.(pc := ListImages)) && wk.job.SignJob? && Serves(wk)
      requires imageName == ImageName(wk.job.spec) && imageTag == ParseImage(wk.job.spec.image).1
      modifies cluster
      ensures cluster.Continues(old(cluster.events), old(cluster.log)) && cluster.Leaves(w, wk, r)
      ensures r.Back? ==> cluster.At(w, AfterSign(wk)) && |cluster.log| == |old(cluster.log)| + 3
      ensures !r.Died? ==>
                SentFirst(old(cluster.asked), cluster.asked, old(cluster.log), cluster.log,
                          SignTexts(imageName, imageTag, regctl, IdsHere(old(cluster.log), cluster.log))[1..])
      ensures (r.Panicked? ==> regctl.None?) && (r.Back? ==> regctl.Some?)
      ensures r.Erred? && Last(cluster.log).Ran? && Last(cluster.log).ok ==>
                r.error == "image is not found" && IdsHere(old(cluster.log), cluster.log) == []
    {
      hide Inv, Run, FailsWith, AfterImages, AfterSign, Fields, ParseImage, GetEndpoint, PathJoin, ArchivePath,
           ImageRef, ImageName, SignTexts, IdsHere;
      ghost var asked, seen := cluster.asked, cluster.log;
      ListSent(asked, seen, imageName, imageTag, regctl);
      var out :- ListImageId(wk.(pc := ListImages));
      var imageIds := Fields(out);
      SameImages(wk, imageIds);
      if imageIds == [] {
        OwnErrors(Last(cluster.log));
        return Erred("image is not found");
      }
      ghost var listed := cluster.log;
      r := TagAndSign(wk, imageIds, imageName, imageTag);
      if !r.Died? {
        SentLast(asked, seen, listed, cluster.asked, cluster.log, imageName, imageTag, regctl, imageIds);
      }
    }

    static lemma ListSent(asked: seq<string>, seen: seq<Answer>, name: string, tag: string, registry: Option<map<string, string>>)
      ensures forall a: Answer ::
                && SentFirst(asked, asked + ["docker images -q"], seen, seen + [a],
                             SignTexts(name, tag, registry, IdsHere(seen, seen + [a]))[1..])
                && (a.Ran? ==> IdsHere(seen, seen + [a]) == Fields(a.text))
    {
      hide PathJoin, GetEndpoint, Fields;
      forall a: Answer
        ensures SentFirst(asked, asked + ["docker images -q"], seen, seen + [a],
                          SignTexts(name, tag, registry, IdsHere(seen, seen + [a]))[1..])
      {
        var texts := SignTexts(name, tag, registry, IdsHere(seen, seen + [a]));
        assert texts[1..][..1] == [texts[1]];
      }
    }

    static lemma SentLast(asked: seq<string>, seen: seq<Answer>, listed: seq<Answer>, after: seq<string>, log: seq<Answer>,
        name: string, tag: string, registry: Option<map<string, string>>, ids: seq<string>)
      requires listed != [] && listed == seen + [Last(listed)] && Last(listed).Ran?
               && Fields(Last(listed).text) == ids && listed <= log
      requires SentFirst(asked + ["docker images -q"], after, listed, log, SignTexts(name, tag, registry, ids)[2..])
      ensures IdsHere(seen, log) == ids
      ensures SentFirst(asked, after, seen, log, SignTexts(name, tag, registry, ids)[1..])
    {
      hide PathJoin, GetEndpoint, Fields;
      var texts := SignTexts(name, tag, registry, ids);
      var n := |log| - |listed|;
      assert asked + ["docker images -q"] + texts[2..][..n] == asked + texts[1..][..n + 1];
    }

    /** The image is there. GetEndpoint is called on the RegCtl without asking whether it is nil. */
    method TagAndSign(ghost wk: Worker, ids: seq<string>, imageName: string, imageTag: string) returns (r: Flow<()>)
      requires cluster.Valid() && wk.job.SignJob? && Serves(wk)
      requires cluster.At(w, AfterImages(wk, ids)) && ids != []
      requires imageName == ImageName(wk.job.spec) && imageTag == ParseImage(wk.job.spec.image).1
      modifies cluster
      ensures cluster.Continues(old(cluster.events), old(cluster.log)) && cluster.Leaves(w, wk, r)
      ensures r.Back? ==> cluster.At(w, AfterSign(wk)) && |cluster.log| == |old(cluster.log)| + 2
      ensures !r.Died? ==>
                SentFirst(old(cluster.asked), cluster.asked, old(cluster.log), cluster.log,
                          SignTexts(imageName, imageTag, regctl, ids)[2..])
      ensures r.Panicked? <==> regctl.None?
      ensures r.Erred? ==> Last(cluster.log).Ran? && !Last(cluster.log).ok
    {
      hide Inv, Run, AfterSign, ParseImage, GetEndpoint, PathJoin, ArchivePath, ImageRef, ImageName;
      if regctl.None? {
        return Panicked;
      }
      var registry := GetEndpoint(regctl.value);
      var image := PathJoin([registry, imageName]) + ":" + imageTag;
      ImageOf(wk.job.spec, regctl.value);
      ghost var texts := SignTexts(imageName, imageTag, regctl, ids)[2..];
      assert texts == ["docker tag " + ids[0] + " " + image, "docker trust sign " + image];
      assert texts[..1] == [texts[0]] && texts[..2] == texts;
      var tagged :- TagWith(wk.(pc := TagImage(ids[0])), ids[0], image);
      SameSign(wk);
      var signed :- SignAndPush(wk.(pc := Sign), image);
      return Back(());
    }

    /**
     Read the new target key from the pod and patch it into the signer key. On return the key that was stored at the
     moment of the patch, in the state `mid`, has it under the target name and is otherwise as it was.
     */
    method AddTargetKey(ghost wk: Worker, original: SignerKey, targetName: string, phrase: map<string, string>)
        returns (r: Flow<()>, ghost key: TrustKey, ghost mid: State)
      requires cluster.Valid() && cluster.At(w, wk) && wk.pc.ListKeys? && wk.job.SignJob? && Serves(wk)
      requires wk.key == Some(original.Spec()) && targetName == TargetName(wk.job.spec)
      requires PassPhrase(phrase, Target) == PassOf(wk)
      modifies cluster
      ensures cluster.Continues(old(cluster.events), old(cluster.log)) && cluster.Leaves(w, wk, r)
      ensures r.Back? ==> cluster.At(w, Succeed(wk)) && GainsEntry(mid, cluster.s, wk.job.spec.signer, targetName, key)
      ensures r.Back? ==>
                && |cluster.log| > |old(cluster.log)| && Last(cluster.log).Accepted?
                && FirstFound(cluster.log[|old(cluster.log)|..|cluster.log| - 1], Target, key, PassPhrase(phrase, Target))
      ensures original.Spec() == old(original.Spec()) && old(cluster.asked) <= cluster.asked
      ensures (r.Panicked? ==> original.targets == null) && (r.Back? ==> original.targets != null)
    {
      hide Inv, Run, PassPhrase, RoleEnv, TargetName, PassOf, FirstFound, NoneFound, FailsWith, ListsAndReads, GainsEntry;
      key, mid := TrustKey("", "", ""), cluster.s;
      var targetKey :- ReadTrustKey(wk, phrase, Target);
      key := targetKey;
      ghost var read := cluster.log;
      var target := CopyWithTarget(original, targetName, targetKey);
      if target.None? {
        return Panicked, key, mid;
      }
      r, mid := cluster.PatchSignerKey(w, wk.(pc := PatchKey(targetKey)), target.value, original);
      if r.Back? {
        assert cluster.log[|old(cluster.log)|..|cluster.log| - 1] == read[|old(cluster.log)|..];
      }
    }

    /** Generate a root key in the pod and store it. */
    method CreateRootKey(ghost wk: Worker, phrase: map<string, string>) returns (r: Flow<TrustKey>)
      requires cluster.Valid() && cluster.At(w, wk) && wk.pc.MakeDir? && wk.job.RootJob? && Serves(wk)
      requires PassPhrase(phrase, Root) == PassOf(wk)
      modifies cluster
      ensures cluster.Continues(old(cluster.events), old(cluster.log)) && !r.Panicked? && cluster.Leaves(w, wk, r)
      ensures r.Back? ==> signer in cluster.s.keys && cluster.s.keys[signer] == [SignerKeySpec(r.value, None)]
      ensures r.Back? ==>
                cluster.At(w, wk.(job := wk.job.(state := Some(MakeSignerState(true, "", "", r.value.id))), pc := Pc.Close))
      ensures r.Back? ==>
                RootMade(old(cluster.asked), cluster.asked, old(cluster.log), cluster.log, r.value, PassPhrase(phrase, Root))
    {
      hide Inv, Run, PassPhrase, RoleEnv, FirstFound, NoneFound, FailsWith, ListsAndReads, GenerateTexts, RootMade;
      ghost var seen, asked := cluster.log, cluster.asked;
      var generated :- GenerateRootKey(wk);
      TwoTexts();
      ghost var listing, listingAsked := cluster.log, cluster.asked;
      assert listingAsked == asked + GenerateTexts();
      var rootKey :- ReadTrustKey(wk.(pc := ListKeys), phrase, Root);
      ghost var read := cluster.log;
      var key := new SignerKey(signer, rootKey, null);
      var stored :- cluster.CreateSignerKey(w, wk.(pc := CreateKey(rootKey)), key);
      MadeAndRead(asked, listingAsked, cluster.asked, seen, listing, read, cluster.log, rootKey, PassPhrase(phrase, Root));
      return Back(rootKey);
    }

    /** Generated, listed, read, found and created, in this order. */
    static ghost predicate RootMade(was: seq<string>, asked: seq<string>, seen: seq<Answer>, log: seq<Answer>, key: TrustKey,
        pass: string)
    {
      && |log| > |seen| + 3 && |asked| > |was| + 2 && Last(log).Accepted?
      && asked[..|was|] == was && asked[|was|..|was| + 2] == GenerateTexts()
      && ListsAndReads(asked[|was| + 2..], log[|seen| + 2..|log| - 1])
      && FirstFound(log[|seen| + 2..|log| - 1], Root, key, pass)
    }

    static lemma MadeAndRead(was: seq<string>, listing: seq<string>, asked: seq<string>, seen: seq<Answer>, made: seq<Answer>,
        read: seq<Answer>, log: seq<Answer>, key: TrustKey, pass: string)
      requires listing == was + GenerateTexts() && listing <= asked
      requires |made| == |seen| + 2 && seen <= made && made <= read && log != [] && log == read + [Last(log)]
               && Last(log).Accepted?
      requires ListsAndReads(asked[|listing|..], read[|made|..]) && FirstFound(read[|made|..], Root, key, pass)
      ensures RootMade(was, asked, seen, log, key, pass)
    {
      hide Fields, KeyPath, Contains, Line;
      assert log[|seen| + 2..|log| - 1] == read[|made|..];
      assert asked[..|listing|] == listing;
      assert asked[|was|..|was| + 2] == listing[|was|..];
    }

    static lemma TwoTexts()
      ensures |GenerateTexts()| == 2 && GenerateTexts()[..2] == GenerateTexts()
    {
    }
  }

  /** The random end of a pod's name: ten lower-case letters or digits. */
  predicate IsSuffix(suffix: string) { |suffix| == 10 && forall c :: c in suffix ==> 'a' <= c <= 'z' || '0' <= c <= '9' }

  /**
   The controller's pod is named after the signer, in the namespace of the request or else in the operator's, and its
   registry is what the lookup found, unless the registry is not named.
   */
  predicate MadeFor(ctl: SigningController, a: Answer, signer: string, registryName: string, registryNamespace: string,
                    requestNamespace: string)
  {
    && a.Chosen? && IsSuffix(a.suffix) && ctl.signer == signer
    && ctl.pod == "image-signing-by-" + signer + "-" + a.suffix
    && ctl.namespace == (if requestNamespace == "" then "reg-test" else requestNamespace)
    && ctl.regctl == if registryName == "" || registryNamespace == "" then None else a.registry
  }

  lemma SuffixIs(suffix: string)
    ensures RandomString(suffix, 10) <==> IsSuffix(suffix)
  {
  }

  /** NewSigningController, with the passphrase the run has drawn, if it has. */
  method NewSigningController(cluster: Cluster, w: nat, ghost wk: Worker, signer: string, registryName: string,
      registryNamespace: string, requestNamespace: string, pass: Option<string>)
    returns (r: Flow<SigningController>, ghost next: Worker)
    requires cluster.Valid() && cluster.At(w, wk) && wk.pc.NewController?
    requires signer == wk.job.Signer()
    requires if wk.job.SignJob? then
               wk.key.Some? && requestNamespace == wk.job.request.key.namespace
               && registryName == wk.job.spec.registryLogin.name && registryNamespace == wk.job.spec.registryLogin.namespace
             else requestNamespace == registryName == registryNamespace == "" && wk.regctl == None
    modifies cluster
    ensures cluster.Continues(old(cluster.events), old(cluster.log)) && (r.Died? || r.Back?)
    ensures r.Died? ==> cluster.Gone(w, wk)
    ensures r.Back? ==>
              && fresh(r.value) && r.value.cluster == cluster && r.value.w == w
              && r.value.startedPod == null && !r.value.isRunning
              && cluster.At(w, next) && r.value.Serves(next)
              && exists chosen, suffix, registry ::
                   next == Choose(wk, chosen, suffix, registry) && (pass.Some? ==> chosen == pass.value)
    ensures r.Back? ==> cluster.OneMore(old(cluster.log))
    ensures r.Back? ==> MadeFor(r.value, Last(cluster.log), signer, registryName, registryNamespace, requestNamespace)
  {
    hide Inv, Run, TargetName, RandomString, IsSuffix;
    next := wk;
    var a :- cluster.Setup(w, wk, pass);
    SuffixIs(a.suffix);
    next := Choose(wk, a.pass, a.suffix, a.registry);
    var namespace := if requestNamespace == "" then OperatorNamespace else requestNamespace;
    var pod := "image-signing-by-" + signer + "-" + a.suffix;
    var ctl := new SigningController(cluster, w, signer, namespace, pod, NewRegCtl(registryName, registryNamespace, a.registry));
    r := Back(ctl);
  }
}
