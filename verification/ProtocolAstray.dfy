/** Which requests the shell reads as they are meant, and what can come of one that it does not. */
module ProtocolAstray {
  import opened Wrappers
  import opened Strings
  import opened Paths
  import opened ApiTypes
  import opened Identifiers
  import opened Naming
  import opened Shell
  import opened CommandOptions
  import opened Commands
  import opened Protocol
  import opened ProtocolInvariant
  import opened ProtocolKeys
  import opened ProtocolAnswers
  import opened ProtocolWitness
  import opened ProtocolSuccess

  // ---------------------------------------------------------------- legible requests

  predicate NoMeta(s: string) { forall c :: c in s ==> !Meta(c) }

  /** For a clean image and an endpoint without a path: exactly if all parts are without characters of the shell's own. */
  lemma LegibleIff(spec: ImageSignRequestSpec, annotations: map<string, string>)
    requires CleanImage(ImageName(spec)) && ImageName(spec) != "" && Normal(GetEndpoint(annotations))
    ensures Legible(spec, Some(annotations)) <==>
              && NoMeta(GetEndpoint(annotations)) && !Leading(GetEndpoint(annotations)[0])
              && NoMeta(ImageName(spec)) && NoMeta(ParseImage(spec.image).1)
  {
    hide GetEndpoint, ParseImage, PathJoin, Split, AllNormal, FilePath, ImageName, Held;
    var host, name, tag := GetEndpoint(annotations), ImageName(spec), ParseImage(spec.image).1;
    ArchiveHeldIff(spec);
    JoinBelow(host, name);
    var path, ref := ArchivePath(spec), host + "/" + name + ":" + tag;
    assert ImageRef(spec, annotations) == ref;
    PartsOfPath(name);
    PartsOfRef(host, name, tag);
  }

  lemma PartsOfPath(name: string)
    ensures PlainWord("/tmp/" + name + ".tar") <==> NoMeta(name)
  {
    var path := "/tmp/" + name + ".tar";
    assert path[0] == '/';
    if NoMeta(name) {
      assert NoMeta("/tmp/") && NoMeta(".tar");
    } else {
      var c :| c in name && Meta(c);
      assert c in path;
    }
  }

  lemma PartsOfRef(host: string, name: string, tag: string)
    requires host != ""
    ensures PlainWord(host + "/" + name + ":" + tag) <==> NoMeta(host) && !Leading(host[0]) && NoMeta(name) && NoMeta(tag)
  {
    var ref := host + "/" + name + ":" + tag;
    assert ref[0] == host[0];
    if !NoMeta(host) {
      var c :| c in host && Meta(c);
      assert c in ref;
    } else if !NoMeta(name) {
      var c :| c in name && Meta(c);
      assert c in ref;
    } else if !NoMeta(tag) {
      var c :| c in tag && Meta(c);
      assert c in ref;
    }
  }

  // ---------------------------------------------------------------- a request that is not

  const UnreadImage := "real.tar; echo x"

  /** The parts of this image, in a registry at reg.io. */
  lemma UnreadParts(spec: ImageSignRequestSpec, annotations: map<string, string>)
    requires spec.image == UnreadImage && GetEndpoint(annotations) == "reg.io"
    ensures ImageName(spec) == UnreadImage && ParseImage(spec.image).1 == ""
    ensures ImageRef(spec, annotations) == "reg.io/real.tar" + "; " + "echo x:"
    ensures !PlainWord(ArchivePath(spec))
  {
    NoColon();
    SplitNowhere(UnreadImage, ':');
    NoSlash();
    SplitNowhere(UnreadImage, '/');
    NormalParts();
    UnreadRef(spec, annotations);
    UnreadPath(spec);
  }

  lemma NoColon()
    ensures ':' !in UnreadImage
  {
  }

  lemma NoSlash()
    ensures '/' !in UnreadImage
  {
  }

  lemma NormalParts()
    ensures Normal(UnreadImage) && Normal("reg.io")
  {
    NoSlash();
    assert |UnreadImage| == 16 && |"reg.io"| == 6;
  }

  lemma UnreadRef(spec: ImageSignRequestSpec, annotations: map<string, string>)
    requires ImageName(spec) == UnreadImage && GetEndpoint(annotations) == "reg.io" && ParseImage(spec.image).1 == ""
    requires Split(UnreadImage, '/') == [UnreadImage] && Normal(UnreadImage) && Normal("reg.io")
    ensures ImageRef(spec, annotations) == "reg.io/real.tar" + "; " + "echo x:"
  {
    hide GetEndpoint, ParseImage, PathJoin, Split, ImageName, Normal;
    JoinBelow("reg.io", UnreadImage);
    assert "reg.io" + "/" + UnreadImage + ":" + "" == "reg.io/real.tar" + "; " + "echo x:";
  }

  lemma UnreadPath(spec: ImageSignRequestSpec)
    requires ImageName(spec) == UnreadImage && Split(UnreadImage, '/') == [UnreadImage] && Normal(UnreadImage)
    ensures !PlainWord(ArchivePath(spec))
  {
    hide ParseImage, PathJoin, Split, ImageName, Normal, FilePath, Held;
    ArchiveHeldIff(spec);
    assert UnreadImage[8] == ';' && ';' in UnreadImage;
    assert ';' in ArchivePath(spec);
  }

  /** The shell is meant to sign one reference; it signs another one and then prints something. */
  lemma UnreadSign(spec: ImageSignRequestSpec, annotations: map<string, string>)
    requires ImageRef(spec, annotations) == "reg.io/real.tar" + "; " + "echo x:"
    ensures Parse(Text(TrustSign(ImageRef(spec, annotations))))
         == Some([Simple(["docker", "trust", "sign", "reg.io/real.tar"], None, None), Simple(["echo", "x:"], None, None)])
  {
    hide PlainWord, Parse, ImageRef;
    var words := ["docker", "trust", "sign"];
    FirstWords();
    UnreadWords();
    TwoCommands(words, "reg.io/real.tar", ["echo", "x:"]);
    hide Join;
    assert words + ["reg.io/real.tar"] == ["docker", "trust", "sign", "reg.io/real.tar"];
    EchoText();
    assert words + ["reg.io/real.tar" + "; " + "echo x:"] == ["docker", "trust", "sign", "reg.io/real.tar" + "; " + "echo x:"];
  }

  lemma UnreadWords()
    ensures PlainWord("reg.io/real.tar") && AllPlain(["echo", "x:"])
  {
  }

  lemma EchoText()
    ensures Join(["echo", "x:"], " ") == "echo x:"
  {
    assert ["echo", "x:"][1..] == ["x:"];
    assert "echo" + " " + "x:" == "echo x:";
  }

  // ---------------------------------------------------------------- its run

  /** Somebody stores a target key for the request. */
  lemma TargetGiven(s: State, id: RequestId, spec: ImageSignRequestSpec, x: Props, y: Part, k: TrustKey) returns (t: State)
    requires SignStore(s, id, spec, x, y)
    ensures Leads(s, t) && t == s.(keys := t.keys, outside := t.outside)
    ensures spec.signer in t.keys && |t.keys[spec.signer]| == 3
    ensures t.keys[spec.signer][2] == SignerKeySpec(RootKeyOf(x), Some(map[TargetName(spec) := k]))
  {
    hide Leads, PodName, RootKeyOf, TargetName, FreshName;
    var targets := map[TargetName(spec) := k];
    t := Step(s, WriteTargets(spec.signer, targets));
    LeadsByStep(s, WriteTargets(spec.signer, targets));
    assert Last(s.keys[spec.signer]) == EmptyTargets(x) && EmptyTargets(x).Entries() == map[];
  }

  /** The run reads that key and has chosen what to do with it. */
  lemma UnreadChosen(base: State, id: RequestId, spec: ImageSignRequestSpec, x: Props, y: Part, k: TrustKey,
                     annotations: map<string, string>) returns (s: State, run: Worker)
    requires PropsOK(x) && PartOK(x, y) && SignStore(base, id, spec, x, y) && RegistryNamed(spec)
    ensures Gets(base, s.(workers := s.workers[y.w := run]), annotations) && s == base.(keys := s.keys, outside := s.outside)
    ensures run.job == SignJob(id, 0, spec, None) && run.pc.CreatePod? && !run.added && run.regctl == Some(annotations)
    ensures run.pod == Some(PodName(run.job, y.suffix)) && VolumesOf(run.opt, spec)
    ensures run.opt.rootKey == Some(RootKeyOf(x)) && run.opt.targetKey == Some(k)
  {
    hide Gets, Leads, PodName, PropsOK, RootKeyOf, TargetName, RegistryNamed, VolumesOf;
    s := TargetGiven(base, id, spec, x, y, k);
    RunLooks(s, id, spec, y.w, 2);
    var start := Looked(id, spec, s.keys[spec.signer][2]);
    PartDiffers(x, y);
    PropsParts(x);
    RunChooses(s, y.w, start, x.pass, y.suffix, annotations);
    run := Choose(start, x.pass, y.suffix, Some(annotations));
    UnreadChoice(id, spec, s.keys[spec.signer][2], x, y, k, annotations);
    var s0 := s.(workers := s.workers[y.w := start]);
    GetsByLeading(base, s, annotations);
    GetsByLeading(s, s0, annotations);
    GetsOn(base, s, s0, annotations);
    GetsOn(base, s0, s.(workers := s.workers[y.w := run]), annotations);
  }

  /** It is up in its pod. */
  lemma UnreadPodUp(base: State, id: RequestId, spec: ImageSignRequestSpec, x: Props, y: Part, k: TrustKey,
                    annotations: map<string, string>) returns (s: State, wk: Worker, p: NamespacedName, pod: Pod)
    requires PropsOK(x) && PartOK(x, y) && SignStore(base, id, spec, x, y) && Named(spec) && RequestNamed(id)
    ensures Gets(base, Scene(s, y.w, wk, p, pod), annotations) && s == base.(keys := s.keys, outside := s.outside)
    ensures wk.pc.LoadImage? && wk.job == SignJob(id, 0, spec, None) && !wk.added && wk.regctl == Some(annotations)
    ensures wk.pod == Some(p) && pod.live && pod.running && wk.opt.rootKey == Some(RootKeyOf(x)) && wk.opt.targetKey == Some(k)
  {
    hide Gets, Leads, Scene, PodName, PodNamed, PropsOK, ObjectName, NamespaceName, RootKeyOf, TargetName,
         RegistryNamed, Mountable,
         Named, VolumesOf, FreshName;
    NamesRegistry(spec);
    var run;
    s, run := UnreadChosen(base, id, spec, x, y, k, annotations);
    PartDiffers(x, y);
    PodNameFree(base, s, id, spec, x, y);
    NoName();
    PodIsNamed(run.job, y.suffix);
    p := run.pod.value;
    MountsNamed(spec, run.opt);
    PodStarts(s, y.w, run, p);
    wk, pod := run.(pc := LoadImage), NewPod(y.w, run).(running := true);
    var s1 := s.(workers := s.workers[y.w := run]);
    GetsByLeading(s1, Scene(s, y.w, wk, p, pod), annotations);
    GetsOn(base, s1, Scene(s, y.w, wk, p, pod), annotations);
  }

  lemma PodNameFree(base: State, s: State, id: RequestId, spec: ImageSignRequestSpec, x: Props, y: Part)
    requires SignStore(base, id, spec, x, y) && s == base.(keys := s.keys, outside := s.outside)
    ensures var p := PodName(SignJob(id, 0, spec, None), y.suffix); p !in s.pods && p !in s.foreign
  {
    hide PodName;
  }

  lemma PropsParts(x: Props)
    requires PropsOK(x)
    ensures RandomString(x.pass, PassLength) && Listable(x.rootFile)
  {
  }

  lemma NamesRegistry(spec: ImageSignRequestSpec)
    requires Named(spec)
    ensures RegistryNamed(spec) && ObjectName(spec.signer) && |spec.signer| <= MaxSigner
  {
  }

  lemma MountsNamed(spec: ImageSignRequestSpec, opt: CommandOpt)
    requires Named(spec) && VolumesOf(opt, spec)
    ensures Mountable(opt)
  {
  }

  lemma UnreadChoice(id: RequestId, spec: ImageSignRequestSpec, key: SignerKeySpec, x: Props, y: Part, k: TrustKey,
                     annotations: map<string, string>)
    requires RegistryNamed(spec) && key == SignerKeySpec(RootKeyOf(x), Some(map[TargetName(spec) := k]))
    ensures var wk := Choose(Looked(id, spec, key), x.pass, y.suffix, Some(annotations));
            && wk.job == SignJob(id, 0, spec, None) && wk.pc.CreatePod? && !wk.added && wk.regctl == Some(annotations)
            && wk.pod == Some(PodName(wk.job, y.suffix)) && VolumesOf(wk.opt, spec)
            && wk.opt.rootKey == Some(RootKeyOf(x)) && wk.opt.targetKey == Some(k)
  {
    NoName();
    hide PodName, TargetName, ObjectName, NamespaceName, RootKeyOf;
  }

  /** All four texts end well, whatever they did. */
  lemma UnreadSigned(base: State, w: nat, wk: Worker, p: NamespacedName, pod: Pod, id: string) returns (pod': Pod)
    requires wk.pc.LoadImage? && wk.job.SignJob? && !wk.added && wk.regctl.Some? && wk.pod == Some(p) && pod.live && pod.running
    requires !PlainWord(ArchivePath(wk.job.spec)) && Fields(id) == [id]
    ensures Leads(Scene(base, w, wk, p, pod), Scene(base, w, Succeed(wk), p, pod'))
  {
    hide Leads, Scene, ReadAsMeant, Astray, Fields, ArchivePath, ImageRef, PlainWord;
    ReadAsMeantIff(LoadCmd(wk.job.spec));
    var w1, w2, w3 := wk.(pc := ListImages), wk.(pc := TagImage(id)), wk.(pc := Sign);
    var pod1 := AstrayRun(base, w, wk, p, pod, "");
    var pod2 := AstrayRun(base, w, w1, p, pod1, id);
    var pod3 := AstrayRun(base, w, w2, p, pod2, "");
    pod' := AstrayRun(base, w, w3, p, pod3, "");
    assert AfterCommand(w3, true, "") == Succeed(wk);
    LeadsOn(Scene(base, w, wk, p, pod), Scene(base, w, w1, p, pod1), Scene(base, w, w2, p, pod2));
    LeadsOn(Scene(base, w, wk, p, pod), Scene(base, w, w2, p, pod2), Scene(base, w, w3, p, pod3));
    LeadsOn(Scene(base, w, wk, p, pod), Scene(base, w, w3, p, pod3), Scene(base, w, Succeed(wk), p, pod'));
  }

  /**
   The image has no tag and docker would refuse its reference, but the shell does not hand it to docker: it signs another
   reference, prints something, and ends well. So a request for it can be answered with Success, with safe keys in its
   pod, and whatever else it names.
   */
  lemma UntaggedSucceeds(id: RequestId, spec: ImageSignRequestSpec, annotations: map<string, string>)
    requires RequestNamed(id) && Named(spec) && spec.image == UnreadImage && GetEndpoint(annotations) == "reg.io"
    ensures ParseImage(spec.image).1 == "" && !TaggedReference(ImageRef(spec, annotations))
    ensures Parse(Text(TrustSign(ImageRef(spec, annotations))))
         == Some([Simple(["docker", "trust", "sign", "reg.io/real.tar"], None, None), Simple(["echo", "x:"], None, None)])
    ensures Possible(id, spec, annotations)
  {
    hide GetEndpoint, ParseImage, ImageRef, Named, RequestNamed, TaggedReference, Parse, Text, Run, Finds,
         RestoresSafely, SucceedsIn,
         Gets;
    UnreadParts(spec, annotations);
    UnreadSign(spec, annotations);
    UntaggedRef(spec, annotations);
    var t := UnreadState(id, spec, annotations);
    var events := EventsOf(t, annotations);
    FindingFinds(Empty, events, id, annotations);
    AnsweredSucceeds(events, id, spec);
  }

  lemma AnsweredSucceeds(events: seq<Event>, id: RequestId, spec: ImageSignRequestSpec)
    requires id in Run(Empty, events).requests && Run(Empty, events).requests[id] == Answered(spec)
    ensures SucceedsIn(events, id, spec)
  {
    hide Run;
    var r := Run(Empty, events).requests[id];
    assert r.versions[1].spec == spec && IsSuccess(r.versions[1].status);
  }

  lemma UnreadState(id: RequestId, spec: ImageSignRequestSpec, annotations: map<string, string>) returns (t: State)
    requires RequestNamed(id) && Named(spec) && !PlainWord(ArchivePath(spec))
    ensures Gets(Empty, t, annotations) && id in t.requests && t.requests[id] == Answered(spec) && RestoresSafely(t, id)
  {
    var x, y, z := SomeParts();
    NamesRegistry(spec);
    hide Gets, Leads, PropsOK, PartOK, Named, RequestNamed, ObjectName, SignStore, TargetName, Answered, NewRequest,
         Empty, AllSafe,
         RestoredKeys, PodName, RestoresSafely, ArchivePath, PlainWord, RegistryNamed, RootKeyOf;
    var base := StoreReached(id, id, spec, x, y, y);
    StoreParts(base, id, spec, x, y);
    var s, wk, p, pod := UnreadPodUp(base, id, spec, x, y, FoundKey(x, y), annotations);
    PropsParts(x);
    ListedAlone(x);
    var pod' := UnreadSigned(s, y.w, wk, p, pod, x.rootFile);
    var signed := Scene(s, y.w, Succeed(wk), p, pod');
    t := ExitAnswers(signed, y.w, id, spec);
    GetsByLeading(Empty, base, annotations);
    GetsByLeading(Scene(s, y.w, wk, p, pod), signed, annotations);
    GetsByLeading(signed, t, annotations);
    GetsOn(Empty, base, Scene(s, y.w, wk, p, pod), annotations);
    GetsOn(Empty, Scene(s, y.w, wk, p, pod), signed, annotations);
    GetsOn(Empty, signed, t, annotations);
    BothSafe(wk.opt, x, y);
    PartDiffers(x, y);
    PutRun(s, y.w, Succeed(wk), t.workers[y.w]);
    OneRun(base, t, id, y.w, wk);
  }

  lemma ListedAlone(x: Props)
    requires Listable(x.rootFile)
    ensures Fields(x.rootFile) == [x.rootFile]
  {
  }

  lemma BothSafe(opt: CommandOpt, x: Props, y: Part)
    requires PropsOK(x) && PartOK(x, y) && opt.rootKey == Some(RootKeyOf(x)) && opt.targetKey == Some(FoundKey(x, y))
    ensures AllSafe(RestoredKeys(opt))
  {
    hide KeyText, RandomString, OnTerminal, ShellSafe, Restorable, Normal, Fields;
    RootKeyGood(x);
    TerminalKeyText(y.text, Target);
    GoodKeyRestores(RootKeyOf(x), Root);
    SafeTarget(x, y);
    assert RestoredKeys(opt) == [RootKeyOf(x), FoundKey(x, y)];
  }

  lemma SafeTarget(x: Props, y: Part)
    requires PropsOK(x) && PartOK(x, y)
    ensures Restorable(Some(FoundKey(x, y))) == [FoundKey(x, y)] && ShellSafe(FoundKey(x, y))
  {
    hide KeyText, RandomString, OnTerminal, Normal, Fields, Contains;
    TerminalKeyText(y.text, Target);
    GoodKeyRestores(FoundKey(x, y), Target);
  }
}
