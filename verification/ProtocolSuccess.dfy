/** What the operator can do: runs in which requests are answered with Success, and one in which a key is lost. */
module ProtocolSuccess {
  import opened Wrappers
  import opened Strings
  import opened Paths
  import opened ApiTypes
  import opened Identifiers
  import opened Naming
  import opened Shell
  import opened CommandOptions
  import opened Commands
  import opened Protocol
  import opened ProtocolInvariant
  import opened ProtocolKeys
  import opened ProtocolAnswers
  import opened ProtocolLoss
  import opened ProtocolWitness

  /** What a sign run draws and finds. */
  datatype Part = Part(w: nat, suffix: string, file: string, text: string)

  predicate PartOK(x: Props, y: Part) {
    && y.w != 0 && RandomString(y.suffix, 10) && y.suffix != x.suffix
    && Listable(y.file) && y.file != x.rootFile && KeyText(y.text, Target)
  }

  // ---------------------------------------------------------------- the store

  function EmptyTargets(x: Props): SignerKeySpec { SignerKeySpec(RootKeyOf(x), Some(map[])) }

  function NewRequest(spec: ImageSignRequestSpec): RequestRecord { RequestRecord([Request(spec, None)], true) }

  function SignRunStart(id: RequestId, spec: ImageSignRequestSpec, x: Props): Worker {
    SignWorker(id, 0, Request(spec, None)).(key := Some(EmptyTargets(x)), pc := NewController)
  }

  function SignRun(id: RequestId, spec: ImageSignRequestSpec, x: Props, y: Part, annotations: map<string, string>): Worker {
    Choose(SignRunStart(id, spec, x), x.pass, y.suffix, Some(annotations))
  }

  /** The store a sign run starts from: the root key, with targets somebody made, and the request. */
  ghost predicate SignStore(s: State, id: RequestId, spec: ImageSignRequestSpec, x: Props, y: Part) {
    && id in s.requests && s.requests[id] == NewRequest(spec)
    && spec.signer in s.signers && s.signers[spec.signer] == [None]
    && s.keys == map[spec.signer := [SignerKeySpec(RootKeyOf(x), None), EmptyTargets(x)]]
    && s.foreign == {} && y.w !in s.workers && FreshName(s, PodName(SignRunStart(id, spec, x).job, y.suffix))
  }

  lemma NamesDiffer(a: Job, b: Job, u: string, v: string)
    requires a.Signer() == b.Signer() && u != v
    ensures PodName(a, u) != PodName(b, v)
  {
    SamePrefix("image-signing-by-" + a.Signer() + "-", u, v);
  }

  /** Somebody gives the signer's key a map of targets. */
  lemma TargetsMade(s: State, n: string, x: Props)
    requires RootStored(s, n, x)
    ensures var t := Step(s, WriteTargets(n, map[]));
            t == s.(keys := map[n := [SignerKeySpec(RootKeyOf(x), None), EmptyTargets(x)]], outside := t.outside)
  {
    hide PodName, RootKeyOf;
    var none: map<string, TrustKey> := map[];
    var first := SignerKeySpec(RootKeyOf(x), None);
    assert Last(s.keys[n]) == first && first.Entries() == none;
    assert [first] + [EmptyTargets(x)] == [first, EmptyTargets(x)];
    assert s.keys[n := [first, EmptyTargets(x)]] == map[n := [first, EmptyTargets(x)]];
  }

  lemma RequestMade(s: State, id: RequestId, spec: ImageSignRequestSpec)
    requires RequestNamed(id)
    ensures Step(s, CreateRequest(id, spec)) ==
            if id in s.requests then s else s.(requests := s.requests[id := NewRequest(spec)])
  {
    hide RequestNamed;
  }

  /** The name of the sign run's pod is not that of the root run's. */
  lemma NameIsFree(s: State, id: RequestId, spec: ImageSignRequestSpec, x: Props, y: Part)
    requires RootStored(s, spec.signer, x) && PartOK(x, y)
    ensures y.w !in s.workers && FreshName(s, PodName(SignRunStart(id, spec, x).job, y.suffix))
  {
    hide PodName, PartOK;
    var job :| s.workers[0].pod.value == PodName(job, x.suffix) && job.RootJob? && job.signer == spec.signer;
    PartDiffers(x, y);
    NamesDiffer(job, SignRunStart(id, spec, x).job, x.suffix, y.suffix);
  }

  /** Both requests, and a signer key with targets; the one pod so far is the root run's. */
  lemma StoreReached(id: RequestId, id': RequestId, spec: ImageSignRequestSpec, x: Props, y: Part, z: Part) returns (s: State)
    requires PartOK(x, y) && PartOK(x, z)
    requires PropsOK(x) && ObjectName(spec.signer) && |spec.signer| <= MaxSigner && RequestNamed(id) && RequestNamed(id')
    ensures Leads(Empty, s)
    ensures SignStore(s, id, spec, x, y) && SignStore(s, id', spec, x, z)
    ensures s.workers.Keys == {0} && s.workers[0].job.RootJob?
  {
    hide Leads, PodName, PropsOK, PartOK, ObjectName, RequestNamed, Step, RootKeyOf, EmptyTargets, NewRequest, SignRunStart;
    var n := spec.signer;
    var s0 := RootIsStored(n, x);
    var s1 := Step(s0, WriteTargets(n, map[]));
    LeadsByStep(s0, WriteTargets(n, map[]));
    TargetsMade(s0, n, x);
    var s2 := Step(s1, CreateRequest(id, spec));
    LeadsByStep(s1, CreateRequest(id, spec));
    RequestMade(s1, id, spec);
    s := Step(s2, CreateRequest(id', spec));
    LeadsByStep(s2, CreateRequest(id', spec));
    RequestMade(s2, id', spec);
    LeadsOn(Empty, s0, s1);
    LeadsOn(Empty, s1, s2);
    LeadsOn(Empty, s2, s);
    NameIsFree(s0, id, spec, x, y);
    NameIsFree(s0, id', spec, x, z);
  }

  lemma PartDiffers(x: Props, y: Part)
    requires PartOK(x, y)
    ensures y.w != 0 && x.suffix != y.suffix && y.file != x.rootFile && RandomString(y.suffix, 10)
  {
  }

  // ---------------------------------------------------------------- up to the patch

  /** Events that lead on, in which every registry lookup that finds something finds these annotations. */
  predicate Finding(events: seq<Event>, annotations: map<string, string>) {
    forall i :: 0 <= i < |events| ==> NoLookup(events[i]) || events[i].answer.registry == Some(annotations)
  }

  ghost predicate Gets(s: State, t: State, annotations: map<string, string>) {
    exists events :: Finding(events, annotations) && Run(s, events) == t
  }

  lemma GetsByLeading(s: State, t: State, annotations: map<string, string>)
    requires Leads(s, t)
    ensures Gets(s, t, annotations)
  {
    hide Run;
    var events :| NoLookups(events) && Run(s, events) == t;
    assert Finding(events, annotations);
  }

  lemma GetsOn(s: State, t: State, u: State, annotations: map<string, string>)
    requires Gets(s, t, annotations) && Gets(t, u, annotations)
    ensures Gets(s, u, annotations)
  {
    hide Step;
    var a :| Finding(a, annotations) && Run(s, a) == t;
    var b :| Finding(b, annotations) && Run(t, b) == u;
    assert Finding(a + b, annotations);
    ProtocolRuns.RunAppend(s, a, b);
  }

  lemma LookupGets(s: State, w: nat, pass: string, suffix: string, annotations: map<string, string>)
    ensures Gets(s, Step(s, Do(w, Chosen(pass, suffix, Some(annotations)))), annotations)
  {
    hide Step;
    var e := Do(w, Chosen(pass, suffix, Some(annotations)));
    assert [e][1..] == [];
    assert Run(s, [e]) == Run(Step(s, e), []);
    assert Finding([e], annotations);
  }

  lemma PutRun(s: State, w: nat, a: Worker, b: Worker)
    ensures s.workers[w := a][w := b] == s.workers[w := b]
  {
  }

  /** A sign run that has read the first version of its request and this version of its signer's key. */
  function Looked(id: RequestId, spec: ImageSignRequestSpec, key: SignerKeySpec): Worker {
    SignWorker(id, 0, Request(spec, None)).(key := Some(key), pc := NewController)
  }

  lemma RunLooks(s: State, id: RequestId, spec: ImageSignRequestSpec, w: nat, v: nat)
    requires id in s.requests && s.requests[id] == NewRequest(spec) && w !in s.workers
    requires spec.signer in s.signers && s.signers[spec.signer] != []
    requires spec.signer in s.keys && v < |s.keys[spec.signer]|
    ensures Leads(s, s.(workers := s.workers[w := Looked(id, spec, s.keys[spec.signer][v])]))
  {
    hide Leads;
    var w0 := SignWorker(id, 0, Request(spec, None));
    var w1, w2 := w0.(pc := GetKey), Looked(id, spec, s.keys[spec.signer][v]);
    PutRun(s, w, w0, w1);
    PutRun(s, w, w1, w2);
    var s0, s1 := s.(workers := s.workers[w := w0]), s.(workers := s.workers[w := w1]);
    var s2 := s.(workers := s.workers[w := w2]);
    assert Step(s, StartSign(w, id, 0)) == s0;
    LeadsByStep(s, StartSign(w, id, 0));
    LeadsByStep(s0, Do(w, Found(0)));
    LeadsByStep(s1, Do(w, Found(v)));
    assert Step(s0, Do(w, Found(0))) == s1;
    assert Step(s1, Do(w, Found(v))) == s2;
    LeadsOn(s, s0, s1);
    LeadsOn(s, s1, s2);
  }

  lemma RunChooses(s: State, w: nat, wk: Worker, pass: string, suffix: string, annotations: map<string, string>)
    requires w !in s.workers && wk.pc.NewController? && wk.job.SignJob? && wk.key.Some? && wk.pod == None
    requires RegistryNamed(wk.job.spec) && RandomString(pass, PassLength) && RandomString(suffix, 10)
    requires FreshName(s, PodName(wk.job, suffix))
    ensures Gets(s.(workers := s.workers[w := wk]), s.(workers := s.workers[w := Choose(wk, pass, suffix, Some(annotations))]),
                 annotations)
  {
    hide Gets, PodName, RandomString, Choose, ObjectName, NamespaceName;
    var next, a := Choose(wk, pass, suffix, Some(annotations)), Chosen(pass, suffix, Some(annotations));
    var t := s.(workers := s.workers[w := wk]);
    assert FreshName(t, PodName(wk.job, suffix));
    assert Act(t, w, wk, a) == Some((next, NoEffect));
    PutRun(s, w, wk, next);
    LookupGets(t, w, pass, suffix, annotations);
  }

  lemma SignRunBegins(s: State, id: RequestId, spec: ImageSignRequestSpec, x: Props, y: Part, annotations: map<string, string>)
    requires PropsOK(x) && PartOK(x, y) && SignStore(s, id, spec, x, y) && RegistryNamed(spec)
    ensures Gets(s, s.(workers := s.workers[y.w := SignRun(id, spec, x, y, annotations)]), annotations)
  {
    hide Gets, Leads, PodName, Listable, KeyText, RandomString, Choose, ObjectName, NamespaceName;
    var start := SignRunStart(id, spec, x);
    RunLooks(s, id, spec, y.w, 1);
    assert Looked(id, spec, s.keys[spec.signer][1]) == start;
    RunChooses(s, y.w, start, x.pass, y.suffix, annotations);
    var t := s.(workers := s.workers[y.w := start]);
    GetsByLeading(s, t, annotations);
    GetsOn(s, t, s.(workers := s.workers[y.w := SignRun(id, spec, x, y, annotations)]), annotations);
  }

  lemma SignRunChoice(id: RequestId, spec: ImageSignRequestSpec, x: Props, y: Part, annotations: map<string, string>)
    requires RegistryNamed(spec)
    ensures var wk, login := SignRun(id, spec, x, y, annotations), spec.registryLogin;
            && wk.job == SignJob(id, 0, spec, None) && wk.pc.CreatePod? && wk.added && wk.regctl == Some(annotations)
            && wk.key == Some(EmptyTargets(x)) && wk.pod == Some(PodName(wk.job, y.suffix)) && wk.deleted == None
            && wk.opt == CommandOpt(Some(RootKeyOf(x)), Some(TrustKey("", "", x.pass)),
                                    login.dcjSecretName, login.certSecretName, spec.pvcName)
  {
    NoName();
    hide PodName, TargetName, ObjectName, NamespaceName;
  }

  lemma SignPodFiles(opt: CommandOpt, x: Props, y: Part)
    requires PropsOK(x) && PartOK(x, y) && opt.rootKey == Some(RootKeyOf(x)) && opt.targetKey == Some(TrustKey("", "", x.pass))
    ensures KeyPath(y.file) !in InitialFiles(opt) && AllSafe(RestoredKeys(opt))
    ensures RoleEnv(Target) in Environment(opt) && Environment(opt)[RoleEnv(Target)] == x.pass
  {
    hide KeyPath, KeyText, SafeName, Fields, RoleEnv, OnTerminal;
    RootKeyGood(x);
    GoodKeyRestores(RootKeyOf(x), Root);
    assert RestoredKeys(opt) == [RootKeyOf(x)];
    KeyPathInjective(x.rootFile, y.file);
    if KeyPath(y.file) in InitialFiles(opt) {
      KeyFileFrom(RestoredKeys(opt), KeyPath(y.file));
    }
  }

  /** What the pod of a sign run needs for its four commands. */
  predicate Ready(wk: Worker, pod: Pod, x: Props, y: Part) {
    && Sound(pod) && KeyPath(y.file) !in pod.files && wk.job.SignJob? && wk.regctl.Some?
    && PlainWord(ArchivePath(wk.job.spec)) && Takes(pod.opt, LoadCmd(wk.job.spec))
    && TaggedReference(ImageRef(wk.job.spec, wk.regctl.value))
    && RoleEnv(Target) in Environment(pod.opt) && Environment(pod.opt)[RoleEnv(Target)] == x.pass
  }

  lemma LoadCan(wk: Worker, pod: Pod, x: Props, y: Part)
    requires Ready(wk, pod, x, y) && wk.pc.LoadImage? && wk.pod.Some?
    ensures CanRun(wk, pod, Ran(true, "", map[]))
  {
    hide Sound, KeyPath, PlainWord, Held, TaggedReference, RoleEnv, Environment, ArchivePath, ImageRef;
  }

  lemma ListCan(wk: Worker, pod: Pod, x: Props, y: Part)
    requires Ready(wk, pod, x, y) && wk.pc.ListImages? && wk.pod.Some? && Listable(x.rootFile)
    ensures CanRun(wk, pod, Ran(true, x.rootFile, map[]))
  {
    hide Sound, KeyPath, PlainWord, Held, TaggedReference, RoleEnv, Environment, ArchivePath, ImageRef, Fields, Normal;
  }

  lemma TagCan(wk: Worker, pod: Pod, x: Props, y: Part)
    requires Ready(wk, pod, x, y) && wk.pc == TagImage(x.rootFile) && wk.pod.Some? && Listable(x.rootFile)
    ensures CanRun(wk, pod, Ran(true, "", map[]))
  {
    hide Sound, KeyPath, PlainWord, Held, TaggedReference, RoleEnv, Environment, ArchivePath, ImageRef, Fields, Normal,
         RepositoryName;
    ReferencePlain(ImageRef(wk.job.spec, wk.regctl.value));
  }

  lemma SignCan(wk: Worker, pod: Pod, x: Props, y: Part)
    requires Ready(wk, pod, x, y) && wk.pc.Sign? && wk.pod.Some? && PartOK(x, y)
    ensures CanRun(wk, pod, Ran(true, "", map[KeyPath(y.file) := KeyFile(y.text, Some(Target), x.pass)]))
  {
    hide Sound, KeyPath, PlainWord, Held, TaggedReference, RoleEnv, Environment, ArchivePath, ImageRef, MayGenerate, Listable,
         KeyText;
    ReferencePlain(ImageRef(wk.job.spec, wk.regctl.value));
    MayAdd(pod, y.file, KeyFile(y.text, Some(Target), x.pass));
  }

  /** Load, list, tag and sign; signing makes the target key. */
  lemma ImageIsSigned(base: State, w: nat, wk: Worker, p: NamespacedName, pod: Pod, x: Props, y: Part) returns (pod': Pod)
    requires PropsOK(x) && PartOK(x, y) && wk.pc.LoadImage? && wk.added && wk.pod == Some(p) && Ready(wk, pod, x, y)
    ensures Leads(Scene(base, w, wk, p, pod), Scene(base, w, wk.(pc := ListKeys), p, pod'))
    ensures Sound(pod') && KeyPath(y.file) in pod'.files && pod'.files[KeyPath(y.file)].text == y.text && pod'.opt == pod.opt
  {
    hide Leads, Scene, KeyText, RandomString, SafeName, KeyPath, CanRun, LoadCmd, ImageRef, Fields, Sound, AfterRun, Normal,
         PlainWord, PlainCommand, NextCommand, AfterCommand;
    RunJob(wk, pod, x, y);
    ReadyPlain(wk, pod, x, y);
    SignSteps(wk, x);
    hide Ready;
    var none: map<string, KeyFile> := map[];
    var done, images := Ran(true, "", none), Ran(true, x.rootFile, none);
    var signed := Ran(true, "", map[KeyPath(y.file) := KeyFile(y.text, Some(Target), x.pass)]);
    var w1, w2, w3, w4 := wk.(pc := ListImages), wk.(pc := TagImage(x.rootFile)), wk.(pc := Sign), wk.(pc := ListKeys);
    LoadCan(wk, pod, x, y);
    var pod1 := IdleRun(base, w, wk, p, pod, done);
    ReadyOn(wk, w1, pod, pod1, x, y);
    ListCan(w1, pod1, x, y);
    var pod2 := IdleRun(base, w, w1, p, pod1, images);
    ReadyOn(w1, w2, pod1, pod2, x, y);
    TagCan(w2, pod2, x, y);
    var pod3 := IdleRun(base, w, w2, p, pod2, done);
    ReadyOn(w2, w3, pod2, pod3, x, y);
    SignCan(w3, pod3, x, y);
    pod' := AfterRun(pod3, NextCommand(w3).value, signed);
    ReadyPlain(w3, pod3, x, y);
    SoundAfter(pod3, NextCommand(w3).value, signed);
    CanMay(w3, pod3, signed);
    CommandRuns(base, w, w3, p, pod3, signed);
    LeadsOn(Scene(base, w, wk, p, pod), Scene(base, w, w1, p, pod1), Scene(base, w, w2, p, pod2));
    LeadsOn(Scene(base, w, wk, p, pod), Scene(base, w, w2, p, pod2), Scene(base, w, w3, p, pod3));
    LeadsOn(Scene(base, w, wk, p, pod), Scene(base, w, w3, p, pod3), Scene(base, w, w4, p, pod'));
  }

  lemma SignSteps(wk: Worker, x: Props)
    requires wk.pc.LoadImage? && wk.job.SignJob? && wk.regctl.Some? && wk.added && Listable(x.rootFile)
    ensures var w1, w2, w3 := wk.(pc := ListImages), wk.(pc := TagImage(x.rootFile)), wk.(pc := Sign);
            && NextCommand(wk).Some? && AfterCommand(wk, true, "") == w1
            && NextCommand(w1).Some? && AfterCommand(w1, true, x.rootFile) == w2
            && NextCommand(w2).Some? && AfterCommand(w2, true, "") == w3
            && NextCommand(w3) == Some(TrustSign(ImageRef(wk.job.spec, wk.regctl.value)))
            && AfterCommand(w3, true, "") == wk.(pc := ListKeys)
  {
    hide ImageRef, LoadCmd, Fields, Normal, SafeName;
  }

  lemma RunJob(wk: Worker, pod: Pod, x: Props, y: Part)
    requires Ready(wk, pod, x, y)
    ensures wk.job.SignJob? && wk.regctl.Some?
  {
  }

  lemma ReadyPlain(wk: Worker, pod: Pod, x: Props, y: Part)
    requires Ready(wk, pod, x, y)
    ensures Sound(pod) && PlainCommand(TrustSign(ImageRef(wk.job.spec, wk.regctl.value)))
  {
    hide PlainWord, ImageRef, TaggedReference, Sound;
    ReferencePlain(ImageRef(wk.job.spec, wk.regctl.value));
  }

  lemma ReadyOn(wk: Worker, next: Worker, pod: Pod, pod': Pod, x: Props, y: Part)
    requires Ready(wk, pod, x, y) && Sound(pod') && pod'.files == pod.files && pod'.opt == pod.opt
    requires next == wk.(pc := next.pc)
    ensures Ready(next, pod', x, y)
  {
    hide Sound, KeyPath, PlainWord, Takes, TaggedReference, RoleEnv, Environment, ImageRef, ArchivePath;
  }

  /** A sign run up to its patch, with the key it found. */
  predicate AtPatch(wk: Worker, id: RequestId, spec: ImageSignRequestSpec, x: Props, y: Part) {
    && wk.pc == PatchKey(FoundKey(x, y)) && wk.job == SignJob(id, 0, spec, None)
    && wk.pod == Some(PodName(wk.job, y.suffix)) && wk.key == Some(EmptyTargets(x))
    && AllSafe(RestoredKeys(wk.opt))
  }

  function FoundKey(x: Props, y: Part): TrustKey { TrustKey(y.file, OnTerminal(y.text), x.pass) }

  lemma SignPodUp(base: State, id: RequestId, spec: ImageSignRequestSpec, x: Props, y: Part, annotations: map<string, string>)
      returns (wk: Worker, p: NamespacedName, pod: Pod)
    requires PropsOK(x) && PartOK(x, y) && SignStore(base, id, spec, x, y) && Answerable(spec, annotations) && RequestNamed(id)
    ensures Gets(base, Scene(base, y.w, wk, p, pod), annotations)
    ensures wk.pc.LoadImage? && wk.job == SignJob(id, 0, spec, None) && wk.added && wk.regctl == Some(annotations)
    ensures wk.key == Some(EmptyTargets(x)) && p == PodName(wk.job, y.suffix) && wk.pod == Some(p)
    ensures wk.opt.targetKey == Some(TrustKey("", "", x.pass)) && AllSafe(RestoredKeys(wk.opt)) && Ready(wk, pod, x, y)
  {
    hide Gets, Leads, Scene, SignRun, Held, ArchivePath, ImageRef, PlainWord, AllSafe, RestoredKeys, Sound, OnTerminal,
         RegistryNamed, PodName, PodNamed, PropsOK, ObjectName, NamespaceName, TaggedReference, RoleEnv, KeyPath,
         Environment, InitialFiles, Listable, KeyText, RandomString;
    var run := SignRun(id, spec, x, y, annotations);
    SignRunChoice(id, spec, x, y, annotations);
    SignRunBegins(base, id, spec, x, y, annotations);
    PartDiffers(x, y);
    NoName();
    PodIsNamed(run.job, y.suffix);
    p := run.pod.value;
    PodStarts(base, y.w, run, p);
    SignPodFiles(run.opt, x, y);
    pod := NewPod(y.w, run).(running := true);
    SoundAtFirst(pod);
    wk := run.(pc := LoadImage);
    var s1 := base.(workers := base.workers[y.w := run]);
    GetsByLeading(s1, Scene(base, y.w, wk, p, pod), annotations);
    GetsOn(base, s1, Scene(base, y.w, wk, p, pod), annotations);
  }

  lemma RunToPatch(base: State, id: RequestId, spec: ImageSignRequestSpec, x: Props, y: Part, annotations: map<string, string>)
      returns (wk: Worker, p: NamespacedName, pod: Pod)
    requires PropsOK(x) && PartOK(x, y) && SignStore(base, id, spec, x, y) && Answerable(spec, annotations) && RequestNamed(id)
    ensures Gets(base, Scene(base, y.w, wk, p, pod), annotations) && AtPatch(wk, id, spec, x, y) && wk.pod == Some(p)
    ensures wk.regctl == Some(annotations)
  {
    hide Gets, Leads, Scene, PodName, PropsOK, SignStore, RequestNamed, ObjectName, NamespaceName, TaggedReference, Answerable,
         ImageRef, RoleEnv, KeyPath, Environment, Listable, KeyText, RandomString, Contains, RoleLine, AllSafe, RestoredKeys,
         Sound, Ready, OnTerminal;
    var loading, q, pod0 := SignPodUp(base, id, spec, x, y, annotations);
    p := q;
    var listing := loading.(pc := ListKeys);
    var pod1 := ImageIsSigned(base, y.w, loading, p, pod0, x, y);
    PartText(x, y);
    pod := KeyIsFound(base, y.w, listing, p, pod1, y.file, OnTerminal(y.text));
    wk := AfterFound(listing, TrustKey(y.file, OnTerminal(y.text), PassOf(listing)));
    GetsByLeading(Scene(base, y.w, loading, p, pod0), Scene(base, y.w, listing, p, pod1), annotations);
    GetsByLeading(Scene(base, y.w, listing, p, pod1), Scene(base, y.w, wk, p, pod), annotations);
    GetsOn(base, Scene(base, y.w, loading, p, pod0), Scene(base, y.w, listing, p, pod1), annotations);
    GetsOn(base, Scene(base, y.w, listing, p, pod1), Scene(base, y.w, wk, p, pod), annotations);
  }

  lemma PartText(x: Props, y: Part)
    requires PartOK(x, y)
    ensures Listable(y.file) && Contains(OnTerminal(y.text), RoleLine(Target))
  {
    hide KeyText, OnTerminal, RandomString, Listable, RoleLine;
    TerminalKeyText(y.text, Target);
    CarriesRole(OnTerminal(y.text), Target);
  }

  // ---------------------------------------------------------------- patching and answering

  function Answered(spec: ImageSignRequestSpec): RequestRecord {
    RequestRecord([Request(spec, None), Request(spec, Some(MakeResponse(true, "", "")))], true)
  }

  /** The patch goes through, the pod is closed, the request is answered. */
  function Ending(w: nat): seq<Event> { [Do(w, Accepted), Do(w, Accepted), Do(w, Accepted)] }

  lemma ThreeSteps(s: State, w: nat)
    ensures var e := Do(w, Accepted); Run(s, Ending(w)) == Step(Step(Step(s, e), e), e)
  {
    hide Step;
    var e := Do(w, Accepted);
    assert Ending(w)[1..] == [e, e] && [e, e][1..] == [e] && [e][1..] == [];
    assert Run(Step(s, e), [e, e]) == Run(Step(Step(s, e), e), [e]);
    assert Run(Step(Step(s, e), e), [e]) == Run(Step(Step(Step(s, e), e), e), []);
  }

  lemma PatchApplies(s: State, id: RequestId, spec: ImageSignRequestSpec, x: Props, y: Part)
    requires y.w in s.workers && AtPatch(s.workers[y.w], id, spec, x, y)
    requires spec.signer in s.keys && s.keys[spec.signer] != []
    ensures var t := Step(s, Do(y.w, Accepted));
            && t.workers == s.workers[y.w := Succeed(s.workers[y.w])] && t.requests == s.requests
            && spec.signer in t.keys && t.keys[spec.signer] != []
            && EntryOf(t, spec.signer, TargetName(spec)) == Some(FoundKey(x, y))
  {
    hide TargetName, PodName, SignerKeyJson.Patched, AllSafe, RestoredKeys, Astray, FoundKey;
    SignerKeyJson.PatchedIs(EmptyTargets(x), TargetName(spec), FoundKey(x, y), Last(s.keys[spec.signer]));
  }

  lemma RunEnds(s: State, id: RequestId, spec: ImageSignRequestSpec, x: Props, y: Part) returns (t: State)
    requires y.w in s.workers && AtPatch(s.workers[y.w], id, spec, x, y) && id in s.requests && s.requests[id] == NewRequest(spec)
    requires spec.signer in s.keys && s.keys[spec.signer] != []
    ensures Leads(s, t) && t == Run(s, Ending(y.w)) && t.requests == s.requests[id := Answered(spec)]
    ensures y.w in t.workers && t.workers == s.workers[y.w := t.workers[y.w]] && t.workers[y.w].opt == s.workers[y.w].opt
    ensures spec.signer in t.keys && t.keys[spec.signer] != []
    ensures EntryOf(t, spec.signer, TargetName(spec)) == Some(FoundKey(x, y))
  {
    hide Leads, TargetName, PodName, Run, Step, Ending;
    ThreeSteps(s, y.w);
    PatchApplies(s, id, spec, x, y);
    var wk := s.workers[y.w];
    var s1 := Step(s, Do(y.w, Accepted));
    LeadsByStep(s, Do(y.w, Accepted));
    t := ExitAnswers(s1, y.w, id, spec);
    LeadsOn(s, s1, t);
    assert s.workers[y.w := Succeed(wk)][y.w := t.workers[y.w]] == s.workers[y.w := t.workers[y.w]];
  }

  lemma ExitAnswers(s: State, w: nat, id: RequestId, spec: ImageSignRequestSpec) returns (t: State)
    requires w in s.workers && s.workers[w].pc.Close? && id in s.requests && s.requests[id] == NewRequest(spec)
    requires s.workers[w].job == SignJob(id, 0, spec, Some(MakeResponse(true, "", "")))
    ensures Leads(s, t) && t == Step(Step(s, Do(w, Accepted)), Do(w, Accepted))
    ensures t.requests == s.requests[id := Answered(spec)] && t.keys == s.keys
    ensures w in t.workers && t.workers == s.workers[w := t.workers[w]] && t.workers[w].opt == s.workers[w].opt
  {
    hide Leads, Step, NewRequest, Answered;
    var e := Do(w, Accepted);
    var s1 := Step(s, e);
    t := Step(s1, e);
    ClosesFirst(s, w);
    RespondsThen(s1, w, id, spec);
    LeadsByStep(s, e);
    LeadsByStep(s1, e);
    LeadsOn(s, s1, t);
    PutRun(s, w, s1.workers[w], t.workers[w]);
  }

  lemma ClosesFirst(s: State, w: nat)
    requires w in s.workers && s.workers[w].pc.Close?
    ensures var t := Step(s, Do(w, Accepted));
            && t.workers == s.workers[w := s.workers[w].(deleted := Some(true), pc := Respond)]
            && t.requests == s.requests && t.keys == s.keys
  {
    hide Act, StepOutside;
    CloseAnswered(s, w, s.workers[w]);
  }

  lemma RespondsThen(s: State, w: nat, id: RequestId, spec: ImageSignRequestSpec)
    requires w in s.workers && s.workers[w].pc.Respond? && id in s.requests && s.requests[id] == NewRequest(spec)
    requires s.workers[w].job == SignJob(id, 0, spec, Some(MakeResponse(true, "", "")))
    ensures var t := Step(s, Do(w, Accepted));
            && t.workers == s.workers[w := s.workers[w].(pc := Done)] && t.keys == s.keys
            && t.requests == s.requests[id := Answered(spec)]
  {
    hide Act, StepOutside;
    RespondAnswered(s, w, s.workers[w], id, spec);
    var r := s.requests[id];
    assert AddVersion(r.versions, Last(r.versions).(status := s.workers[w].job.response))
        == [Request(spec, None), Request(spec, Some(MakeResponse(true, "", "")))];
  }

  lemma RespondAnswered(s: State, w: nat, wk: Worker, id: RequestId, spec: ImageSignRequestSpec)
    requires wk.pc.Respond? && wk.job.SignJob? && wk.job.request == id && wk.job.version == 0
    requires id in s.requests && s.requests[id] == NewRequest(spec)
    ensures Act(s, w, wk, Accepted) == Some((wk.(pc := Done), SetResponse))
  {
  }

  // ---------------------------------------------------------------- examples of what is drawn and found

  lemma {:induction false} Repeated(c: char, n: nat) returns (s: string)
    requires 'a' <= c <= 'z'
    ensures RandomString(s, n) && (n > 0 ==> s[0] == c)
  {
    s := seq(n, i => c);
  }

  lemma LetterListable(c: char)
    requires 'a' <= c <= 'z'
    ensures Listable([c])
  {
    var file := [c];
    assert file[1..] == [];
    assert WordLength([]) == 0 && WordLength(file) == 1;
    assert file[..1] == file && Fields([]) == [];
    assert Fields(file) == [file] + Fields([]);
    assert c !in file[1..];
    assert file != "." && file != "..";
  }

  /** A text that is only its role line. */
  lemma RoleTexts()
    ensures KeyText(RoleLine(Root), Root) && KeyText(RoleLine(Target), Target)
  {
    RootText();
    TargetText();
  }

  lemma RootText()
    ensures KeyText(RoleLine(Root), Root)
  {
    var root, target := RoleLine(Root), RoleLine(Target);
    assert |root| == 10 && |target| == 12;
    TooShort(root, target);
    assert Contains(root, root);
  }

  lemma TargetText()
    ensures KeyText(RoleLine(Target), Target)
  {
    hide Contains;
    var root, target := RoleLine(Root), RoleLine(Target);
    assert root[0] == 'r' && root[6] == 'r';
    assert target[6] == 't' && target[1] == 'o' && target[2] == 'l';
    assert |root| == 10 && |target| == 12;
    assert target[0 + 6] != root[6] && target[1 + 0] != root[0] && target[2 + 0] != root[0];
    forall i | 0 <= i <= |target| - |root| ensures Differs(target, root, i) {
      assert i == 0 || i == 1 || i == 2;
    }
    NotThere(target, root);
    assert target[0..|target|] == target;
    ContainsAt(target, target, 0);
  }

  /** `sub` does not stand at `i`. */
  predicate Differs(s: string, sub: string, i: nat) { exists k :: 0 <= k < |sub| && i + k < |s| && s[i + k] != sub[k] }

  lemma {:induction false} NotThere(s: string, sub: string)
    requires forall i :: 0 <= i <= |s| - |sub| ==> Differs(s, sub, i)
    ensures !Contains(s, sub)
  {
    if |sub| <= |s| {
      assert Differs(s, sub, 0);
      var k :| 0 <= k < |sub| && 0 + k < |s| && s[0 + k] != sub[k];
    }
    if s != [] {
      forall i | 0 <= i <= |s[1..]| - |sub| ensures Differs(s[1..], sub, i) {
        assert Differs(s, sub, i + 1);
        var k :| 0 <= k < |sub| && i + 1 + k < |s| && s[i + 1 + k] != sub[k];
        assert s[1..][i + k] == s[i + 1 + k];
      }
      NotThere(s[1..], sub);
    }
  }

  lemma {:induction false} TooShort(s: string, sub: string)
    requires |s| < |sub|
    ensures !Contains(s, sub)
  {
    if s != [] {
      TooShort(s[1..], sub);
    }
  }

  /** A root run and two sign runs that differ in everything they draw and find. */
  lemma SomeParts() returns (x: Props, y: Part, z: Part)
    ensures PropsOK(x) && PartOK(x, y) && PartOK(x, z)
    ensures y.w != z.w && y.suffix != z.suffix && y.file != z.file
  {
    hide RandomString, Listable, KeyText, RoleLine;
    var pass := Repeated('a', PassLength);
    var suffix := Repeated('a', 10);
    var suffix2 := Repeated('b', 10);
    var suffix3 := Repeated('c', 10);
    LetterListable('r');
    LetterListable('t');
    LetterListable('u');
    RoleTexts();
    var r, t, u := ['r'], ['t'], ['u'];
    assert r[0] != t[0] && r[0] != u[0] && t[0] != u[0];
    x := Props(pass, suffix, r, RoleLine(Root));
    y := Part(1, suffix2, t, RoleLine(Target));
    z := Part(2, suffix3, u, RoleLine(Target));
  }

  // ---------------------------------------------------------------- the theorems

  ghost predicate SucceedsIn(events: seq<Event>, id: RequestId, spec: ImageSignRequestSpec) {
    var s := Run(Empty, events);
    id in s.requests &&
    (exists i ::
       0 <= i < |s.requests[id].versions| && s.requests[id].versions[i].spec == spec
       && IsSuccess(s.requests[id].versions[i].status))
  }

  lemma {:induction false} FindingFinds(s: State, events: seq<Event>, id: RequestId, annotations: map<string, string>)
    requires Finding(events, annotations)
    ensures Finds(s, events, id, annotations)
    decreases |events|
  {
    hide Step;
    if events != [] {
      assert NoLookup(events[0]) || events[0].answer.registry == Some(annotations);
      FindingFinds(Step(s, events[0]), events[1..], id, annotations);
    }
  }

  /** The runs of this request restore only keys that the shell takes as they are. */
  ghost predicate RestoresSafely(s: State, id: RequestId) {
    forall w :: w in s.workers && RunOf(s, w, id) ==> AllSafe(RestoredKeys(s.workers[w].opt))
  }

  /** In some run in which its registry has these annotations, the request is answered with Success. */
  ghost predicate Possible(id: RequestId, spec: ImageSignRequestSpec, annotations: map<string, string>) {
    exists events ::
      Finds(Empty, events, id, annotations) && RestoresSafely(Run(Empty, events), id) && SucceedsIn(events, id, spec)
  }

  lemma SuccessReached(id: RequestId, spec: ImageSignRequestSpec, annotations: map<string, string>)
    requires Answerable(spec, annotations) && RequestNamed(id)
    ensures Possible(id, spec, annotations)
  {
    hide Run, Gets, Finds, Finding, Answerable, RequestNamed, RestoresSafely;
    var t := SuccessState(id, spec, annotations);
    var events := EventsOf(t, annotations);
    FindingFinds(Empty, events, id, annotations);
    assert t.requests[id].versions[1].spec == spec && IsSuccess(t.requests[id].versions[1].status);
  }

  lemma SuccessState(id: RequestId, spec: ImageSignRequestSpec, annotations: map<string, string>) returns (t: State)
    requires Answerable(spec, annotations) && RequestNamed(id)
    ensures Gets(Empty, t, annotations) && id in t.requests && t.requests[id] == Answered(spec) && RestoresSafely(t, id)
  {
    var x, y, z := SomeParts();
    AnswerableNames(spec, annotations);
    hide Gets, Leads, PropsOK, PartOK, Answerable, RequestNamed, ObjectName, AtPatch, SignStore, TargetName, EntryOf, Answered,
         NewRequest, Empty, AllSafe, RestoredKeys, PodName, RestoresSafely;
    var base := StoreReached(id, id, spec, x, y, y);
    StoreParts(base, id, spec, x, y);
    var wk, p, pod := RunToPatch(base, id, spec, x, y, annotations);
    var s := Scene(base, y.w, wk, p, pod);
    t := RunEnds(s, id, spec, x, y);
    GetsByLeading(Empty, base, annotations);
    GetsByLeading(s, t, annotations);
    GetsOn(Empty, base, s, annotations);
    GetsOn(Empty, s, t, annotations);
    PatchSafe(wk, id, spec, x, y);
    PartDiffers(x, y);
    PutRun(base, y.w, wk, t.workers[y.w]);
    OneRun(base, t, id, y.w, wk);
  }

  lemma PatchSafe(wk: Worker, id: RequestId, spec: ImageSignRequestSpec, x: Props, y: Part)
    requires AtPatch(wk, id, spec, x, y)
    ensures AllSafe(RestoredKeys(wk.opt))
  {
    hide AllSafe, RestoredKeys, PodName;
  }

  /** The root run and this one are all there are. */
  lemma OneRun(base: State, t: State, id: RequestId, w: nat, wk: Worker)
    requires base.workers.Keys == {0} && base.workers[0].job.RootJob? && w != 0 && AllSafe(RestoredKeys(wk.opt))
    requires w in t.workers && t.workers == base.workers[w := t.workers[w]] && t.workers[w].opt == wk.opt
    ensures RestoresSafely(t, id)
  {
    hide AllSafe, RestoredKeys;
  }

  lemma EventsOf(t: State, annotations: map<string, string>) returns (events: seq<Event>)
    requires Gets(Empty, t, annotations)
    ensures Finding(events, annotations) && Run(Empty, events) == t
  {
    hide Run;
    events :| Finding(events, annotations) && Run(Empty, events) == t;
  }

  lemma AnswerableNames(spec: ImageSignRequestSpec, annotations: map<string, string>)
    requires Answerable(spec, annotations)
    ensures ObjectName(spec.signer) && |spec.signer| <= MaxSigner
  {
  }

  lemma StoreParts(s: State, id: RequestId, spec: ImageSignRequestSpec, x: Props, y: Part)
    requires SignStore(s, id, spec, x, y)
    ensures id in s.requests && s.requests[id] == NewRequest(spec) && spec.signer in s.keys && s.keys[spec.signer] != []
  {
    hide FreshName;
  }

  /**
   With given annotations of its registry, a legible request can be answered with Success, in some run, exactly if all
   that it names has a proper name, its signer's is short enough for a pod, its archive is below a volume it mounts, and
   its image has a tag and is, under the registry's endpoint, an image reference. Such requests are legible, and no
   request can be without the names.
   */
  lemma SuccessPossibleIff(id: RequestId, spec: ImageSignRequestSpec, annotations: map<string, string>)
    ensures Legible(spec, Some(annotations)) ==>
              (Possible(id, spec, annotations) <==> RequestNamed(id) && Answerable(spec, annotations))
    ensures Answerable(spec, annotations) ==> Legible(spec, Some(annotations))
    ensures Possible(id, spec, annotations) ==> RequestNamed(id) && Named(spec)
  {
    hide Run, Finds, Answerable, RequestNamed, Named, Legible, RestoresSafely, SucceedsIn;
    if Possible(id, spec, annotations) {
      var events :| Finds(Empty, events, id, annotations) && RestoresSafely(Run(Empty, events), id)
                    && SucceedsIn(events, id, spec);
      SuccessNeeds(events, id, spec, annotations);
    }
    if Answerable(spec, annotations) {
      AnswerableLegible(spec, annotations);
      if RequestNamed(id) {
        SuccessReached(id, spec, annotations);
      }
    }
  }

  lemma SuccessNeeds(events: seq<Event>, id: RequestId, spec: ImageSignRequestSpec, annotations: map<string, string>)
    requires Finds(Empty, events, id, annotations) && RestoresSafely(Run(Empty, events), id) && SucceedsIn(events, id, spec)
    ensures RequestNamed(id) && Named(spec)
    ensures Legible(spec, Some(annotations)) ==> Answerable(spec, annotations)
  {
    hide Run, Finds, Answerable, RequestNamed, Named, Legible, AllSafe, RestoredKeys;
    var s := Run(Empty, events);
    var i :| 0 <= i < |s.requests[id].versions| && s.requests[id].versions[i].spec == spec
        && IsSuccess(s.requests[id].versions[i].status);
    var w := SuccessMeansAnswerable(events, id, i);
    RunFinds(Empty, events, id, annotations);
    assert RunOf(s, w, id);
    RequestsNamed(Empty, events);
  }

  /** Requests exist only under proper names. */
  lemma {:induction false} RequestsNamed(s: State, events: seq<Event>)
    requires forall id :: id in s.requests ==> RequestNamed(id)
    ensures forall id :: id in Run(s, events).requests ==> RequestNamed(id)
    decreases |events|
  {
    hide Step, RequestNamed;
    if events != [] {
      StepNamed(s, events[0]);
      RequestsNamed(Step(s, events[0]), events[1..]);
    }
  }

  lemma StepNamed(s: State, e: Event)
    requires forall id :: id in s.requests ==> RequestNamed(id)
    ensures forall id :: id in Step(s, e).requests ==> RequestNamed(id)
  {
    hide Act, RequestNamed;
  }

  /**
   Two requests for one new image can lose a key: the first is answered with Success while the run of the second, which
   has found no key under the target name either, is about to patch. It gets its Success too, and the key the first one
   came with is replaced.
   */
  lemma SuccessLosesItsKey(id: RequestId, id': RequestId, spec: ImageSignRequestSpec, annotations: map<string, string>)
      returns (before: seq<Event>, w: nat)
    requires Answerable(spec, annotations) && RequestNamed(id) && RequestNamed(id') && id != id'
    ensures var s, t := Run(Empty, before), Run(Empty, before + Ending(w));
            && id in s.requests && s.requests[id] == Answered(spec)
            && Patching(s, w, spec.signer, TargetName(spec)) && s.workers[w].job.request == id'
            && id in t.requests && t.requests[id] == Answered(spec) && id' in t.requests && t.requests[id'] == Answered(spec)
            && EntryOf(s, spec.signer, TargetName(spec)).Some? && EntryOf(t, spec.signer, TargetName(spec)).Some?
            && EntryOf(s, spec.signer, TargetName(spec)) != EntryOf(t, spec.signer, TargetName(spec))
  {
    hide Run, Gets, Answerable, RequestNamed, Answered, EntryOf, TargetName, Empty, Patching;
    var s, t;
    s, t, w := TwoAnswers(id, id', spec, annotations);
    before := EventsOf(s, annotations);
    ProtocolRuns.RunAppend(Empty, before, Ending(w));
  }

  lemma TwoAnswers(id: RequestId, id': RequestId, spec: ImageSignRequestSpec, annotations: map<string, string>)
      returns (s: State, t: State, w: nat)
    requires Answerable(spec, annotations) && RequestNamed(id) && RequestNamed(id') && id != id'
    ensures Gets(Empty, s, annotations) && t == Run(s, Ending(w))
    ensures id in s.requests && s.requests[id] == Answered(spec)
    ensures Patching(s, w, spec.signer, TargetName(spec)) && s.workers[w].job.request == id'
    ensures id in t.requests && t.requests[id] == Answered(spec) && id' in t.requests && t.requests[id'] == Answered(spec)
    ensures EntryOf(s, spec.signer, TargetName(spec)).Some? && EntryOf(t, spec.signer, TargetName(spec)).Some?
    ensures EntryOf(s, spec.signer, TargetName(spec)) != EntryOf(t, spec.signer, TargetName(spec))
  {
    var x, y, z := SomeParts();
    hide Gets, Leads, PropsOK, PartOK, Answerable, RequestNamed, AtPatch, TargetName, EntryOf, Answered, NewRequest, Empty, Run;
    var both := BothAtPatch(id, id', spec, x, y, z, annotations);
    s := RunEnds(both, id, spec, x, y);
    w := z.w;
    PatchesHere(s, id', spec, x, z);
    t := RunEnds(s, id', spec, x, z);
    GetsByLeading(both, s, annotations);
    GetsOn(Empty, both, s, annotations);
  }

  lemma PatchesHere(s: State, id: RequestId, spec: ImageSignRequestSpec, x: Props, y: Part)
    requires y.w in s.workers && AtPatch(s.workers[y.w], id, spec, x, y)
    ensures Patching(s, y.w, spec.signer, TargetName(spec)) && s.workers[y.w].job.request == id
  {
    hide TargetName, PodName;
  }

  lemma BothAtPatch(id: RequestId, id': RequestId, spec: ImageSignRequestSpec, x: Props, y: Part, z: Part,
                    annotations: map<string, string>) returns (s: State)
    requires PropsOK(x) && PartOK(x, y) && PartOK(x, z) && y.w != z.w && y.suffix != z.suffix
    requires Answerable(spec, annotations) && RequestNamed(id) && RequestNamed(id')
    ensures Gets(Empty, s, annotations)
    ensures y.w in s.workers && AtPatch(s.workers[y.w], id, spec, x, y)
    ensures z.w in s.workers && AtPatch(s.workers[z.w], id', spec, x, z)
    ensures id in s.requests && s.requests[id] == NewRequest(spec) && id' in s.requests && s.requests[id'] == NewRequest(spec)
    ensures spec.signer in s.keys && s.keys[spec.signer] != []
  {
    AnswerableNames(spec, annotations);
    hide Gets, Leads, PropsOK, PartOK, Answerable, RequestNamed, ObjectName, AtPatch, SignStore, NewRequest, Empty, Scene;
    var base := StoreReached(id, id', spec, x, y, z);
    var wk, p, pod := RunToPatch(base, id, spec, x, y, annotations);
    var s1 := Scene(base, y.w, wk, p, pod);
    StillStore(base, id, id', spec, x, y, z, wk, p, pod);
    var wk', p', pod' := RunToPatch(s1, id', spec, x, z, annotations);
    s := Scene(s1, z.w, wk', p', pod');
    BothWait(base, id, id', spec, x, y, z, wk, p, pod, wk', p', pod');
    GetsByLeading(Empty, base, annotations);
    GetsOn(Empty, base, s1, annotations);
    GetsOn(Empty, s1, s, annotations);
  }

  /** The first run's progress leaves the store as the second one needs it. */
  lemma StillStore(base: State, id: RequestId, id': RequestId, spec: ImageSignRequestSpec, x: Props, y: Part, z: Part,
                   wk: Worker, p: NamespacedName, pod: Pod)
    requires SignStore(base, id, spec, x, y) && SignStore(base, id', spec, x, z) && AtPatch(wk, id, spec, x, y)
             && wk.pod == Some(p)
    requires y.w != z.w && y.suffix != z.suffix
    ensures SignStore(Scene(base, y.w, wk, p, pod), id', spec, x, z)
  {
    hide PodName;
    NamesDiffer(wk.job, SignRunStart(id', spec, x).job, y.suffix, z.suffix);
  }

  lemma BothWait(base: State, id: RequestId, id': RequestId, spec: ImageSignRequestSpec, x: Props, y: Part, z: Part,
                 wk: Worker, p: NamespacedName, pod: Pod, wk': Worker, p': NamespacedName, pod': Pod)
    requires SignStore(base, id, spec, x, y) && SignStore(base, id', spec, x, z) && y.w != z.w
    requires AtPatch(wk, id, spec, x, y) && AtPatch(wk', id', spec, x, z)
    ensures var s := Scene(Scene(base, y.w, wk, p, pod), z.w, wk', p', pod');
            && y.w in s.workers && s.workers[y.w] == wk && z.w in s.workers && s.workers[z.w] == wk'
            && id in s.requests && s.requests[id] == NewRequest(spec) && id' in s.requests && s.requests[id'] == NewRequest(spec)
            && spec.signer in s.keys && s.keys[spec.signer] != []
  {
    hide FreshName, AtPatch;
  }
}
