/** When a request is answered, and what it takes to be answered with Success. */
module ProtocolAnswers {
  import opened Wrappers
  import opened Strings
  import opened ApiTypes
  import opened Identifiers
  import opened Paths
  import opened Naming
  import opened Shell
  import opened CommandOptions
  import opened Commands
  import opened Protocol
  import opened ProtocolInvariant
  import opened ProtocolActs
  import opened ProtocolRuns
  import opened ProtocolTheorems
  import opened ProtocolFlow

  // ---------------------------------------------------------------- no answer

  /** A run that is leaving has no answer exactly if it panicked or found its pod's name taken. */
  predicate AnswerOK(wk: Worker) {
    wk.job.SignJob? ==>
      && !wk.pc.CheckKey?
      && (wk.panicked ==> wk.regctl == None || (wk.key.Some? ==> wk.key.value.targets == None))
      && (BeforePod(wk.pc) || wk.pc.CreatePod? || InPod(wk.pc) ==> wk.job.response == None && !wk.panicked && !wk.taken)
      && (wk.pc.Close? || wk.pc.Respond? || wk.pc.Done? ==> (wk.job.response == None <==> wk.panicked || wk.taken))
  }

  lemma AnswerFollows(wk: Worker, next: Worker, e: Effect)
    requires AnswerOK(wk) && Follows(wk, next, e)
    ensures AnswerOK(next)
  {
    hide FollowsOutside, FollowsSigning, FollowsKeyWork;
    if Signing(wk.pc) {
      AnswerSigning(wk, next, e);
    } else if KeyWork(wk.pc) {
      AnswerKeyWork(wk, next, e);
    } else {
      AnswerOutside(wk, next, e);
    }
  }

  lemma AnswerSigning(wk: Worker, next: Worker, e: Effect)
    requires AnswerOK(wk) && Signing(wk.pc) && FollowsSigning(wk, next, e)
    ensures AnswerOK(next)
  {
    hide CommandEffect;
  }

  lemma AnswerKeyWork(wk: Worker, next: Worker, e: Effect)
    requires AnswerOK(wk) && KeyWork(wk.pc) && FollowsKeyWork(wk, next, e)
    ensures AnswerOK(next)
  {
    hide CommandEffect;
  }

  lemma AnswerOutside(wk: Worker, next: Worker, e: Effect)
    requires AnswerOK(wk) && FollowsOutside(wk, next, e)
    ensures AnswerOK(next)
  {
    hide FollowsLooking, FollowsPod;
    if Looking(wk.pc) {
      AnswerLooking(wk, next, e);
    } else {
      AnswerPod(wk, next, e);
    }
  }

  lemma AnswerLooking(wk: Worker, next: Worker, e: Effect)
    requires AnswerOK(wk) && FollowsLooking(wk, next, e)
    ensures AnswerOK(next)
  {
    hide CommandEffect;
  }

  lemma AnswerPod(wk: Worker, next: Worker, e: Effect)
    requires AnswerOK(wk) && FollowsPod(wk, next, e)
    ensures AnswerOK(next)
  {
    hide CommandEffect;
  }

  // ---------------------------------------------------------------- what Success takes

  /** The longest name a signer can have if "image-signing-by-<signer>-<suffix>" is to name a pod. */
  const MaxSigner := 225

  predicate RegistryNamed(spec: ImageSignRequestSpec) {
    ObjectName(spec.registryLogin.name) && NamespaceName(spec.registryLogin.namespace)
  }

  predicate VolumesNamed(spec: ImageSignRequestSpec) {
    && (spec.pvcName == "" || ObjectName(spec.pvcName))
    && (spec.registryLogin.dcjSecretName == "" || ObjectName(spec.registryLogin.dcjSecretName))
    && (spec.registryLogin.certSecretName == "" || ObjectName(spec.registryLogin.certSecretName))
  }

  /** All that the request names has a proper name, and its signer's is short enough for a pod. */
  predicate Named(spec: ImageSignRequestSpec) {
    RegistryNamed(spec) && VolumesNamed(spec) && ObjectName(spec.signer) && |spec.signer| <= MaxSigner
  }

  /**
   A request that names everything it needs, with an image whose archive has a plain path below a volume it mounts and
   that is, in a registry with these annotations, a tagged reference.
   */
  predicate Answerable(spec: ImageSignRequestSpec, annotations: map<string, string>) {
    && Named(spec)
    && PlainWord(ArchivePath(spec))
    && Held(ArchivePath(spec), spec.pvcName, spec.registryLogin.dcjSecretName, spec.registryLogin.certSecretName)
    && TaggedReference(ImageRef(spec, annotations))
  }

  /** For a registry at a proper host, docker takes the image exactly if it takes the parts of the name and the tag. */
  lemma ImageTakenIff(spec: ImageSignRequestSpec, annotations: map<string, string>, name: string, tag: string)
    requires Normal(GetEndpoint(annotations)) && Host(GetEndpoint(annotations))
    requires spec.image == name + ":" + tag && ':' !in name && ':' !in tag && name != "" && CleanImage(name)
    ensures TaggedReference(ImageRef(spec, annotations)) <==>
              && TagText(tag) && |CanonicalName(GetEndpoint(annotations) + "/" + name)| <= 255
              && forall p :: p in Split(name, '/') ==> PathComponent(p)
  {
    hide TagText, PathComponent, Host, GetEndpoint, PathJoin, Split, TaggedReference, ParseImage, RepositoryName, AllNormal,
         CanonicalName;
    var host := GetEndpoint(annotations);
    ParseImageInverts(name, tag, "");
    JoinBelow(host, name);
    HostedName(host + "/" + name, host, Split(name, '/'));
    ReferenceIs(host + "/" + name, tag);
  }

  /** The archive of a clean image name is below a mount exactly if the request names a claim for its volume. */
  lemma ArchiveHeldIff(spec: ImageSignRequestSpec)
    requires CleanImage(ImageName(spec))
    ensures ArchivePath(spec) == "/tmp/" + ImageName(spec) + ".tar"
    ensures Held(ArchivePath(spec), spec.pvcName, spec.registryLogin.dcjSecretName, spec.registryLogin.certSecretName)
            <==> spec.pvcName != "" && FilePath(ArchivePath(spec))
  {
    hide ImageName, FilePath, PathJoin, Split, AllNormal, SecretFile;
    var name, path := ImageName(spec), ArchivePath(spec);
    ArchiveName(name);
    JoinUnder("tmp", name + ".tar");
    assert "/" + "tmp" == DindPod.ImageMountPath;
    assert path == "/" + ("tmp" + "/" + (name + ".tar"));
    assert path == "/tmp/" + name + ".tar";
    HeldBelow(path, spec.pvcName, spec.registryLogin.dcjSecretName, spec.registryLogin.certSecretName);
    var claim, login, cert := "/tmp" + "/", "/home/dockremap" + "/", "/usr/local/share/ca-certificates" + "/";
    assert claim <= path && |claim| < |path|;
    assert path[1] == 't' && login[1] == 'h' && cert[1] == 'u';
    assert !(login <= path) && !(cert <= path);
  }

  lemma HeldBelow(path: string, pvc: string, dcj: string, cert: string)
    ensures Held(path, pvc, dcj, cert) <==>
              FilePath(path) && ((pvc != "" && HeldBy(DindPod.VolumeMount(DindPod.ImagePvc, "/tmp"), path))
                                 || (dcj != "" && HeldBy(DindPod.VolumeMount("dockerconfigjson", "/home/dockremap"), path))
                                 || (cert != "" && HeldBy(DindPod.VolumeMount("cert", "/usr/local/share/ca-certificates"), path)))
  {
    MountsOf(pvc, dcj, cert);
    hide DindPod.VolumeMounts, FilePath, HeldBy;
    var mounts := DindPod.VolumeMounts(pvc, dcj, cert);
    if pvc != "" {
      assert DindPod.VolumeMount(DindPod.ImagePvc, "/tmp") in mounts;
    }
    if dcj != "" {
      assert DindPod.VolumeMount("dockerconfigjson", "/home/dockremap") in mounts;
    }
    if cert != "" {
      assert DindPod.VolumeMount("cert", "/usr/local/share/ca-certificates") in mounts;
    }
  }

  lemma MountsOf(pvc: string, dcj: string, cert: string)
    ensures forall m :: m in DindPod.VolumeMounts(pvc, dcj, cert) <==>
              || (pvc != "" && m == DindPod.VolumeMount(DindPod.ImagePvc, "/tmp"))
              || (dcj != "" && m == DindPod.VolumeMount("dockerconfigjson", "/home/dockremap"))
              || (cert != "" && m == DindPod.VolumeMount("cert", "/usr/local/share/ca-certificates"))
  {
  }

  // ---------------------------------------------------------------- references are plain words

  lemma {:induction false} CharsOfParts(s: string, sep: char, c: char)
    requires c in s
    ensures c == sep || exists p :: p in Split(s, sep) && c in p
  {
    var n := IndexOf(s, sep);
    if n == |s| {
      assert s in Split(s, sep);
    } else if c in s[..n] {
      assert s[..n] in Split(s, sep);
    } else if c != sep {
      assert s == s[..n] + [sep] + s[n + 1..];
      CharsOfParts(s[n + 1..], sep, c);
    }
  }

  lemma HostPlain(h: string, c: char)
    requires Host(h) && c in h
    ensures LetterOrDigit(c) || c == '-' || c == '.' || c == ':'
  {
    CharsOfParts(h, ':', c);
    if c != ':' {
      var p :| p in Split(h, ':') && c in p;
      if p == Split(h, ':')[0] {
        CharsOfParts(p, '.', c);
      }
    }
  }

  lemma NamePlain(n: string, c: char)
    requires RepositoryName(n) && c in n
    ensures LetterOrDigit(c) || c == '-' || c == '.' || c == '_' || c == ':' || c == '/'
  {
    hide Host, CanonicalName, Split;
    CharsOfParts(n, '/', c);
    if c != '/' {
      var p :| p in Split(n, '/') && c in p;
      if !PathComponent(p) {
        HostPlain(p, c);
      }
    }
  }

  lemma ReferencePlain(ref: string)
    requires TaggedReference(ref)
    ensures PlainWord(ref)
  {
    hide RepositoryName;
    var i :| 0 <= i < |ref| && ref[i] == ':' && RepositoryName(ref[..i]) && TagText(ref[i + 1..]);
    assert ref == ref[..i] + [':'] + ref[i + 1..];
    forall c | c in ref ensures !Meta(c) && !Leading(c) {
      if c in ref[..i] {
        NamePlain(ref[..i], c);
      } else {
        assert c == ':' || c in ref[i + 1..];
      }
    }
    assert ref[0] in ref;
  }

  /** Answerable requests are legible. */
  lemma AnswerableLegible(spec: ImageSignRequestSpec, annotations: map<string, string>)
    requires Answerable(spec, annotations)
    ensures Legible(spec, Some(annotations))
  {
    hide TaggedReference, ImageRef, PlainWord, Named, Held;
    ReferencePlain(ImageRef(spec, annotations));
  }

  // ---------------------------------------------------------------- how far runs come

  predicate VolumesOf(opt: CommandOpt, spec: ImageSignRequestSpec) {
    && opt.imagePvc == spec.pvcName && opt.registryLoginSecret == spec.registryLogin.dcjSecretName
    && opt.registryLoginCertSecret == spec.registryLogin.certSecretName
  }

  predicate PastSign(pc: Pc) { pc.ListKeys? || pc.ReadKeys? || pc.PatchKey? }

  /** How far a run can come with what its request names. */
  predicate Able(wk: Worker) {
    wk.job.SignJob? ==>
      var spec := wk.job.spec;
      && (wk.pc.GetKey? || wk.pc.NewController? || wk.pc.CreatePod? || InPod(wk.pc) ==> ObjectName(spec.signer))
      && (wk.pc.CreatePod? || InPod(wk.pc) ==> VolumesOf(wk.opt, spec))
      && (wk.pc.CreatePod? ==> wk.pod.Some? && |wk.pod.value.name| == |spec.signer| + 28)
      && (InPod(wk.pc) ==> |spec.signer| <= MaxSigner)
      && (PodStarted(wk.pc) ==> VolumesNamed(spec))
      && (wk.regctl.Some? ==> RegistryNamed(spec))
      && (wk.pc.TagImage? || wk.pc.Sign? || PastSign(wk.pc) ==> wk.regctl.Some?)
      && !wk.pc.MakeDir? && !wk.pc.Generate? && !wk.pc.CreateKey?
      && (IsSuccess(wk.job.response) ==> wk.regctl.Some? && Named(spec) && VolumesOf(wk.opt, spec))
  }

  /** What the world adds to the control flow when a run comes past one of these points. */
  predicate WorldAllows(s: State, wk: Worker, next: Worker) {
    wk.job.SignJob? ==>
      && (next.pc.GetKey? ==> wk.job.spec.signer in s.signers)
      && (wk.pc.NewController? ==>
            && VolumesOf(next.opt, wk.job.spec) && next.pod.Some? && |next.pod.value.name| == |wk.job.spec.signer| + 28
            && (next.regctl.Some? ==> RegistryNamed(wk.job.spec)))
      && (wk.pc.CreatePod? && next.pc.WaitPod? ==> wk.pod.Some? && PodNamed(wk.pod.value))
      && (wk.pc.WaitPod? && PodStarted(next.pc) ==> wk.pod.Some? && wk.pod.value in s.pods && s.pods[wk.pod.value].running)
  }

  lemma EarlyAllowed(s: State, w: nat, wk: Worker, a: Answer)
    requires (wk.pc.GetSigner? || wk.pc.CreatePod? || wk.pc.WaitPod?) && Act(s, w, wk, a).Some?
    ensures WorldAllows(s, wk, Act(s, w, wk, a).value.0)
  {
    hide NewPod, ObjectName, NamespaceName, TaggedReference, ImageRef;
  }

  lemma PodNameLength(job: Job, suffix: string)
    ensures |PodName(job, suffix).name| == |job.Signer()| + |suffix| + 18
  {
  }

  lemma ChoiceAllowed(s: State, w: nat, wk: Worker, a: Answer)
    requires wk.pc.NewController? && Act(s, w, wk, a).Some?
    ensures WorldAllows(s, wk, Act(s, w, wk, a).value.0)
  {
    hide ObjectName, NamespaceName, TargetName, PodName, FreshName;
    PodNameLength(wk.job, a.suffix);
  }

  lemma ActAllowed(s: State, w: nat, wk: Worker, a: Answer)
    requires Able(wk) && Act(s, w, wk, a).Some?
    ensures WorldAllows(s, wk, Act(s, w, wk, a).value.0)
  {
    hide Act, Able, WorldAllows;
    if wk.pc.GetSigner? || wk.pc.CreatePod? || wk.pc.WaitPod? {
      EarlyAllowed(s, w, wk, a);
    } else if wk.pc.NewController? {
      ChoiceAllowed(s, w, wk, a);
    } else {
      ActOutline(s, w, wk, a);
      ElsewhereAllowed(s, wk, Act(s, w, wk, a).value.0, Act(s, w, wk, a).value.1);
    }
  }

  lemma ElsewhereAllowed(s: State, wk: Worker, next: Worker, e: Effect)
    requires Outline(wk, next, e)
    requires !(wk.pc.GetSigner? || wk.pc.CreatePod? || wk.pc.WaitPod? || wk.pc.NewController?)
    ensures WorldAllows(s, wk, next)
  {
    hide CommandEffect;
  }

  /** A signer exists only under a proper name. */
  predicate NamesKnown(s: State) { forall n :: n in s.signers ==> ObjectName(n) }

  lemma AbleFollows(s: State, w: nat, wk: Worker, next: Worker, e: Effect)
    requires Able(wk) && AnswerOK(wk) && Local(s, w, wk) && NamesKnown(s)
    requires Follows(wk, next, e) && WorldAllows(s, wk, next)
    ensures Able(next)
  {
    hide FollowsOutside, FollowsSigning, FollowsKeyWork, Able, WorldAllows, Local;
    if Signing(wk.pc) {
      AbleSigning(s, wk, next, e);
    } else if KeyWork(wk.pc) {
      AbleKeyWork(wk, next, e);
    } else {
      AbleOutside(s, w, wk, next, e);
    }
  }

  lemma AbleSigning(s: State, wk: Worker, next: Worker, e: Effect)
    requires Able(wk) && AnswerOK(wk) && Signing(wk.pc) && FollowsSigning(wk, next, e) && WorldAllows(s, wk, next)
    ensures Able(next)
  {
    hide CommandEffect, ObjectName, NamespaceName, TaggedReference, ImageRef;
  }

  lemma AbleKeyWork(wk: Worker, next: Worker, e: Effect)
    requires Able(wk) && AnswerOK(wk) && KeyWork(wk.pc) && FollowsKeyWork(wk, next, e)
    ensures Able(next)
  {
    hide CommandEffect, ObjectName, NamespaceName, TaggedReference, ImageRef;
  }

  lemma AbleOutside(s: State, w: nat, wk: Worker, next: Worker, e: Effect)
    requires Able(wk) && AnswerOK(wk) && Local(s, w, wk) && NamesKnown(s)
    requires FollowsOutside(wk, next, e) && WorldAllows(s, wk, next)
    ensures Able(next)
  {
    hide FollowsLooking, FollowsPod, Able, WorldAllows, AnswerOK, Local;
    if Looking(wk.pc) {
      AbleLooking(s, wk, next, e);
    } else {
      if wk.pc.WaitPod? {
        MountedPod(s, w, wk);
      }
      AblePod(s, wk, next, e);
    }
  }

  lemma AbleLooking(s: State, wk: Worker, next: Worker, e: Effect)
    requires Able(wk) && AnswerOK(wk) && NamesKnown(s) && Looking(wk.pc) && FollowsLooking(wk, next, e)
             && WorldAllows(s, wk, next)
    ensures Able(next)
  {
    hide CommandEffect, TaggedReference, ImageRef, RegistryNamed, VolumesNamed, ObjectName, NamespaceName;
  }

  /** A pod that runs has volumes with proper names. */
  lemma MountedPod(s: State, w: nat, wk: Worker)
    requires Local(s, w, wk) && wk.pc.WaitPod?
    ensures wk.pod.Some? && wk.pod.value in s.pods
    ensures s.pods[wk.pod.value].running ==> Mountable(wk.opt)
  {
    hide HistoriesOK, KeysOK, JobOK, ChoiceOK, PointOK, InitialFiles, Mountable;
  }

  lemma TakenAble(wk: Worker)
    requires Able(wk) && AnswerOK(wk)
    ensures Able(NameTaken(wk))
  {
    hide TaggedReference, ImageRef, RegistryNamed, VolumesNamed, ObjectName;
  }

  lemma AblePod(s: State, wk: Worker, next: Worker, e: Effect)
    requires Able(wk) && AnswerOK(wk) && FollowsPod(wk, next, e) && WorldAllows(s, wk, next)
    requires wk.pc.WaitPod? && PodStarted(next.pc) && wk.pod.Some? && wk.pod.value in s.pods && s.pods[wk.pod.value].running ==>
               Mountable(wk.opt)
    ensures Able(next)
  {
    hide CommandEffect, TaggedReference, ImageRef, RegistryNamed, Labels, NamespaceName, NewPod, NameTaken;
    TakenAble(wk);
  }

  // ---------------------------------------------------------------- over all runs

  ghost predicate RunsOK(s: State) {
    NamesKnown(s) && forall w :: w in s.workers ==> AnswerOK(s.workers[w]) && Able(s.workers[w])
  }

  lemma DoRuns(s: State, w: nat, a: Answer)
    requires Inv(s) && RunsOK(s) && w in s.workers && Act(s, w, s.workers[w], a).Some?
    ensures RunsOK(Step(s, Do(w, a)))
    ensures var next := Act(s, w, s.workers[w], a).value.0;
            && SameJob(s.workers[w].job, next.job) && AnswerOK(next)
            && (s.workers[w].job.SignJob? && IsSuccess(s.workers[w].job.response) ==> next.job == s.workers[w].job)
  {
    hide Inv, Act, Able, AnswerOK, Follows, WorldAllows, Local;
    var wk, r := s.workers[w], Act(s, w, s.workers[w], a).value;
    InvLocal(s, w);
    ActFollows(s, w, wk, a);
    ActAllowed(s, w, wk, a);
    AnswerFollows(wk, r.0, r.1);
    AbleFollows(s, w, wk, r.0, r.1);
    FollowsJob(wk, r.0, r.1);
    SignersStay(s, w, r.0, r.1);
  }

  lemma FollowsJob(wk: Worker, next: Worker, e: Effect)
    requires Follows(wk, next, e) && AnswerOK(wk)
    ensures SameJob(wk.job, next.job)
    ensures wk.job.SignJob? && IsSuccess(wk.job.response) ==> next.job == wk.job
  {
    FollowsOutline(wk, next, e);
    DoneStays(wk, next, e);
    hide Follows, Outline;
  }

  lemma DoneStays(wk: Worker, next: Worker, e: Effect)
    requires Follows(wk, next, e) && Outline(wk, next, e) && AnswerOK(wk)
    ensures SameJob(wk.job, next.job)
    ensures wk.job.SignJob? && IsSuccess(wk.job.response) ==> next.job == wk.job
  {
    hide FollowsLooking, FollowsPod, FollowsSigning, FollowsKeyWork;
    NotCrashed(wk, next, e);
  }

  lemma NotCrashed(wk: Worker, next: Worker, e: Effect)
    requires Follows(wk, next, e)
    ensures !wk.pc.Done? && !wk.pc.Crashed?
  {
    hide CommandEffect, Failed, Succeed, NameTaken;
  }

  lemma SignersStay(s: State, w: nat, wk: Worker, e: Effect)
    ensures ApplyAct(s, w, wk, e).signers.Keys == s.signers.Keys && ApplyAct(s, w, wk, e).workers == s.workers[w := wk]
  {
  }

  lemma StepRuns(s: State, e: Event)
    requires Inv(s) && RunsOK(s)
    ensures RunsOK(Step(s, e))
  {
    hide Inv, Act, ObjectName, TaggedReference, StepOutside;
    if !ByOperator(e) {
      OutsideWorkers(s, e);
      OutsideNames(s, e);
    } else if e.Do? && e.w in s.workers && Act(s, e.w, s.workers[e.w], e.answer).Some? {
      DoRuns(s, e.w, e.answer);
    }
  }

  lemma OutsideNames(s: State, e: Event)
    requires NamesKnown(s) && !ByOperator(e)
    ensures NamesKnown(StepOutside(s, e))
  {
    hide ObjectName;
  }

  lemma {:induction false} RunRuns(s: State, events: seq<Event>)
    requires Inv(s) && RunsOK(s)
    ensures RunsOK(Run(s, events))
    decreases |events|
  {
    hide Inv, Step, RunsOK, Extends, RunsGrow;
    if events != [] {
      StepKeepsInv(s, events[0]);
      StepRuns(s, events[0]);
      RunRuns(Step(s, events[0]), events[1..]);
    }
  }

  lemma EmptyRuns()
    ensures RunsOK(Empty)
  {
  }

  /**
   Every stored Success was given by a run of this very request that had found its registry, and all that the request
   names has proper names. If the request is legible and the keys restored for the run are safe, it is answerable.
   */
  lemma SuccessMeansAnswerable(events: seq<Event>, id: RequestId, i: nat) returns (w: nat)
    requires id in Run(Empty, events).requests && i < |Run(Empty, events).requests[id].versions|
    requires IsSuccess(Run(Empty, events).requests[id].versions[i].status)
    ensures var s := Run(Empty, events);
            var spec := s.requests[id].versions[i].spec;
            && w in s.workers && Answers(s.workers[w], id, spec) && s.workers[w].regctl.Some? && Named(spec)
            && (AllSafe(RestoredKeys(s.workers[w].opt)) && Legible(spec, s.workers[w].regctl) ==>
                  Answerable(spec, s.workers[w].regctl.value))
  {
    hide Run, AnswerOK, SignedWith, TargetName, Legible, AllSafe, RestoredKeys, Holds, Answers, Named, Inv, Extends,
         RunsGrow, Takes;
    EmptyInv();
    EmptyRuns();
    RunRuns(Empty, events);
    var s, spec := Run(Empty, events), Run(Empty, events).requests[id].versions[i].spec;
    var p, k := SuccessMeansSigned(events, [], id, i);
    assert events + [] == events;
    Reached(events, []);
    w := s.pods[p].owner;
    PodMatches(s, w, p);
    AnswersAble(s.workers[w], id, spec);
    SignedTakes(s.pods[p], spec, Last(s.keys[spec.signer]).root);
  }

  lemma PodMatches(s: State, w: nat, p: NamespacedName)
    requires Inv(s) && w in s.workers && s.workers[w].pod == Some(p) && p in s.pods
    ensures PodOf(s.pods[p], s.workers[w])
  {
    hide HistoriesOK, KeysOK, ResponsesOK, StatesOK, PodsOK, NamesOK, JobOK, ChoiceOK, PointOK;
    assert WorkerOK(s, w, s.workers[w]);
  }

  lemma AnswersAble(wk: Worker, id: RequestId, spec: ImageSignRequestSpec)
    requires Able(wk) && Answers(wk, id, spec)
    ensures wk.regctl.Some? && Named(spec) && VolumesOf(wk.opt, spec)
  {
    hide Named, RegistryNamed, VolumesNamed, ObjectName;
  }

  /** What docker took in a pod that signed the image. */
  lemma SignedTakes(pod: Pod, spec: ImageSignRequestSpec, root: TrustKey)
    requires SignedWith(pod, spec, root)
    ensures var annotations := pod.registry.value;
            && |pod.trace| >= 4 && Did(pod.trace[0], LoadCmd(spec)) && Did(pod.trace[3], TrustSign(ImageRef(spec, annotations)))
    ensures Legible(spec, pod.registry) ==> PlainWord(ArchivePath(spec))
    ensures (forall j :: 0 <= j < |pod.trace| && pod.trace[j].ok ==> Takes(pod.opt, pod.trace[j].command)) ==>
              && Held(ArchivePath(spec), pod.opt.imagePvc, pod.opt.registryLoginSecret, pod.opt.registryLoginCertSecret)
              && TaggedReference(ImageRef(spec, pod.registry.value))
  {
    hide ArchivePath, ImageRef, TaggedReference, Held, Fields, PlainWord, RepositoryName;
  }

  /** A request that does not name a registry is never answered with Success: the nil RegCtl panics first. */
  lemma NoSuccessWithoutRegistry(events: seq<Event>, id: RequestId, i: nat)
    requires id in Run(Empty, events).requests && i < |Run(Empty, events).requests[id].versions|
    requires NoRegistry(Run(Empty, events).requests[id].versions[i].spec)
    ensures !IsSuccess(Run(Empty, events).requests[id].versions[i].status)
  {
    hide Run;
    if IsSuccess(Run(Empty, events).requests[id].versions[i].status) {
      var w := SuccessMeansAnswerable(events, id, i);
    }
    NoName();
  }

  lemma NoName()
    ensures !ObjectName("") && !NamespaceName("")
  {
    assert Split("", '.') == [""];
    assert "" in Split("", '.');
  }

  /** The runs of this request restore keys that the shell takes as they are, and hand it plain words. */
  ghost predicate RunsPlain(s: State, id: RequestId) {
    forall w :: w in s.workers && RunOf(s, w, id) ==>
      AllSafe(RestoredKeys(s.workers[w].opt)) && Legible(s.workers[w].job.spec, s.workers[w].regctl)
  }

  /** Nor, if the shell does just what is meant, is one whose image has no tag: docker refuses the reference made of it. */
  lemma NoSuccessWithoutTag(events: seq<Event>, id: RequestId, i: nat)
    requires id in Run(Empty, events).requests && i < |Run(Empty, events).requests[id].versions|
    requires ParseImage(Run(Empty, events).requests[id].versions[i].spec.image).1 == ""
    requires RunsPlain(Run(Empty, events), id)
    ensures !IsSuccess(Run(Empty, events).requests[id].versions[i].status)
  {
    hide Run;
    var spec := Run(Empty, events).requests[id].versions[i].spec;
    forall annotations ensures !TaggedReference(ImageRef(spec, annotations)) {
      UntaggedRef(spec, annotations);
    }
    hide ImageRef, ParseImage, Legible, AllSafe, RestoredKeys, Named, Held;
    if IsSuccess(Run(Empty, events).requests[id].versions[i].status) {
      var w := SuccessMeansAnswerable(events, id, i);
    }
  }

  lemma UntaggedRef(spec: ImageSignRequestSpec, annotations: map<string, string>)
    requires ParseImage(spec.image).1 == ""
    ensures !TaggedReference(ImageRef(spec, annotations))
  {
    hide ParseImage, GetEndpoint;
    var name := PathJoin([GetEndpoint(annotations), ImageName(spec)]);
    assert name + ":" + "" == name + ":";
    NoTagNoReference(name);
  }

  // ---------------------------------------------------------------- what the registry says

  /** Every registry lookup that a run of this request makes and that succeeds finds these annotations. */
  ghost predicate Finds(s: State, events: seq<Event>, id: RequestId, annotations: map<string, string>)
    decreases |events|
  {
    events == [] || (FindsNow(s, events[0], id, annotations) && Finds(Step(s, events[0]), events[1..], id, annotations))
  }

  predicate RunOf(s: State, w: nat, id: RequestId) {
    w in s.workers && s.workers[w].job.SignJob? && s.workers[w].job.request == id
  }

  predicate FindsNow(s: State, e: Event, id: RequestId, annotations: map<string, string>) {
    (e.Do? && e.answer.Chosen? && e.answer.registry.Some? && RunOf(s, e.w, id)) ==> e.answer.registry.value == annotations
  }

  predicate AlwaysFound(s: State, id: RequestId, annotations: map<string, string>) {
    forall w :: w in s.workers && RunOf(s, w, id) && s.workers[w].regctl.Some? ==> s.workers[w].regctl.value == annotations
  }

  lemma ActFinds(s: State, w: nat, wk: Worker, a: Answer)
    requires Act(s, w, wk, a).Some?
    ensures var next := Act(s, w, wk, a).value.0;
            SameJob(wk.job, next.job)
            && (next.regctl == wk.regctl
                || (next.regctl.Some? ==> a.Chosen? && a.registry == next.regctl))
  {
    hide Act;
    ActOutline(s, w, wk, a);
    if wk.pc.NewController? {
      ChoiceFinds(s, w, wk, a);
    }
  }

  lemma ChoiceFinds(s: State, w: nat, wk: Worker, a: Answer)
    requires wk.pc.NewController? && Act(s, w, wk, a).Some?
    ensures var next := Act(s, w, wk, a).value.0;
            next.job == wk.job && (next.regctl == wk.regctl || (next.regctl.Some? ==> a.Chosen? && a.registry == next.regctl))
  {
    hide ObjectName, NamespaceName, TargetName, PodName, FreshName, RandomString;
  }

  lemma StepFinds(s: State, e: Event, id: RequestId, annotations: map<string, string>)
    requires AlwaysFound(s, id, annotations) && FindsNow(s, e, id, annotations)
    ensures AlwaysFound(Step(s, e), id, annotations)
  {
    hide Act, StepOutside, ApplyEffect;
    if !ByOperator(e) {
      OutsideWorkers(s, e);
    } else if e.Do? && e.w in s.workers && Act(s, e.w, s.workers[e.w], e.answer).Some? {
      var r := Act(s, e.w, s.workers[e.w], e.answer).value;
      ActFinds(s, e.w, s.workers[e.w], e.answer);
      SignersStay(s, e.w, r.0, r.1);
    }
  }

  lemma {:induction false} RunFinds(s: State, events: seq<Event>, id: RequestId, annotations: map<string, string>)
    requires AlwaysFound(s, id, annotations) && Finds(s, events, id, annotations)
    ensures AlwaysFound(Run(s, events), id, annotations)
    decreases |events|
  {
    hide Step, AlwaysFound, FindsNow;
    if events != [] {
      StepFinds(s, events[0], id, annotations);
      RunFinds(Step(s, events[0]), events[1..], id, annotations);
    }
  }
}
