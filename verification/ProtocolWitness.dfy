/** Building runs step by step: from nothing to a stored root key. */
module ProtocolWitness {
  import opened Wrappers
  import opened Strings
  import opened Paths
  import opened ApiTypes
  import opened Identifiers
  import opened Naming
  import opened Shell
  import opened CommandOptions
  import opened Commands
  import opened Protocol
  import opened ProtocolInvariant
  import opened ProtocolActs
  import opened ProtocolKeys
  import opened ProtocolAnswers

  // ---------------------------------------------------------------- getting from one state to another

  /** Not a registry lookup that finds something. */
  predicate NoLookup(e: Event) { !(e.Do? && e.answer.Chosen? && e.answer.registry.Some?) }

  predicate NoLookups(events: seq<Event>) { forall i :: 0 <= i < |events| ==> NoLookup(events[i]) }

  ghost predicate Leads(s: State, t: State) { exists events :: NoLookups(events) && Run(s, events) == t }

  lemma LeadsByStep(s: State, e: Event)
    requires NoLookup(e)
    ensures Leads(s, Step(s, e))
  {
    hide Step;
    assert [e][1..] == [];
    assert Run(s, [e]) == Run(Step(s, e), []);
    assert NoLookups([e]);
  }

  lemma LeadsOn(s: State, t: State, u: State)
    requires Leads(s, t) && Leads(t, u)
    ensures Leads(s, u)
  {
    hide Step;
    var a :| NoLookups(a) && Run(s, a) == t;
    var b :| NoLookups(b) && Run(t, b) == u;
    assert NoLookups(a + b);
    ProtocolRuns.RunAppend(s, a, b);
  }

  /** `base`, with run `w` at `wk` and its pod. */
  function Scene(base: State, w: nat, wk: Worker, p: NamespacedName, pod: Pod): State {
    base.(workers := base.workers[w := wk], pods := base.pods[p := pod])
  }

  lemma StepScene(base: State, w: nat, wk: Worker, p: NamespacedName, pod: Pod, e: Event, wk': Worker, pod': Pod)
    requires Step(Scene(base, w, wk, p, pod), e) ==
             Scene(base, w, wk, p, pod).(workers := base.workers[w := wk][w := wk'], pods := base.pods[p := pod][p := pod'])
    requires NoLookup(e)
    ensures Leads(Scene(base, w, wk, p, pod), Scene(base, w, wk', p, pod'))
  {
    hide Step;
    assert base.workers[w := wk][w := wk'] == base.workers[w := wk'];
    assert base.pods[p := pod][p := pod'] == base.pods[p := pod'];
    LeadsByStep(Scene(base, w, wk, p, pod), e);
  }

  /** A pod in which commands do what is meant. */
  predicate Sound(pod: Pod) { pod.live && pod.running && !Astray(pod.opt, pod.trace) }

  /** The next command does what is meant, and can be answered like this. */
  predicate CanRun(wk: Worker, pod: Pod, a: Answer) {
    && NextCommand(wk).Some? && wk.pod.Some? && Sound(pod) && a.Ran? && a.ok
    && PlainCommand(NextCommand(wk).value) && Plausible(pod, NextCommand(wk).value, a)
  }

  /** The next command can be answered like this, for whatever reason. */
  predicate MayRun(wk: Worker, pod: Pod, a: Answer) {
    && NextCommand(wk).Some? && wk.pod.Some? && pod.live && pod.running && a.Ran? && a.ok
    && (Astray(pod.opt, AfterRun(pod, NextCommand(wk).value, a).trace) || Plausible(pod, NextCommand(wk).value, a))
  }

  lemma CanMay(wk: Worker, pod: Pod, a: Answer)
    requires CanRun(wk, pod, a)
    ensures MayRun(wk, pod, a)
  {
    hide NextCommand, Astray, Plausible, PlainCommand;
  }

  lemma CommandActs(s: State, w: nat, wk: Worker, a: Answer)
    requires wk.pod.Some? && wk.pod.value in s.pods && MayRun(wk, s.pods[wk.pod.value], a)
    ensures Act(s, w, wk, a) ==
            Some((AfterCommand(wk, true, a.text), PutPod(AfterRun(s.pods[wk.pod.value], NextCommand(wk).value, a))))
  {
    hide LoadCmd, ImageRef, AfterCommand, Plausible, Astray, AfterRun, PlainCommand;
  }

  lemma SoundAfter(pod: Pod, command: Command, a: Answer)
    requires Sound(pod) && a.Ran? && PlainCommand(command)
    ensures Sound(AfterRun(pod, command, a)) && AfterRun(pod, command, a).files == pod.files + a.generated
    ensures AfterRun(pod, command, a).opt == pod.opt
  {
    hide Astray, PlainCommand, ReadAsMeant;
    AstrayMore(pod.opt, pod.trace, Executed(command, a.ok, a.text));
    ReadAsMeantIff(command);
  }

  lemma NextKeepsPod(wk: Worker)
    ensures AfterSign(wk).pod == wk.pod
    ensures forall names :: Scan(wk, names).pod == wk.pod
    ensures forall names :: AfterImages(wk, names).pod == wk.pod
    ensures forall k :: AfterFound(wk, k).pod == wk.pod
  {
  }

  lemma CommandKeepsPod(wk: Worker, text: string)
    requires NextCommand(wk).Some?
    ensures AfterCommand(wk, true, text).pod == wk.pod
  {
    hide LoadCmd, ImageRef, Fields, KeyPath, RoleLine, Contains, AfterSign, Scan, AfterImages, AfterFound, PassOf, Worker.Fail;
    NextKeepsPod(wk);
  }

  lemma CommandRuns(base: State, w: nat, wk: Worker, p: NamespacedName, pod: Pod, a: Answer)
    requires wk.pod == Some(p) && MayRun(wk, pod, a)
    ensures Leads(Scene(base, w, wk, p, pod),
                  Scene(base, w, AfterCommand(wk, true, a.text), p, AfterRun(pod, NextCommand(wk).value, a)))
  {
    hide Act, AfterCommand, NextCommand, Plausible, PlainCommand, Astray, AfterRun, Leads;
    var s, next, pod' := Scene(base, w, wk, p, pod), AfterCommand(wk, true, a.text), AfterRun(pod, NextCommand(wk).value, a);
    CommandActs(s, w, wk, a);
    CommandKeepsPod(wk, a.text);
    StepScene(base, w, wk, p, pod, Do(w, a), next, pod');
  }

  /** A command that changes no files. */
  lemma IdleRun(base: State, w: nat, wk: Worker, p: NamespacedName, pod: Pod, a: Answer) returns (pod': Pod)
    requires wk.pod == Some(p) && CanRun(wk, pod, a) && a.generated == map[]
    ensures Leads(Scene(base, w, wk, p, pod), Scene(base, w, AfterCommand(wk, true, a.text), p, pod'))
    ensures Sound(pod') && pod'.files == pod.files && pod'.opt == pod.opt
  {
    hide Leads, Scene, AfterCommand, NextCommand, Plausible, PlainCommand, Sound, AfterRun;
    pod' := AfterRun(pod, NextCommand(wk).value, a);
    SoundAfter(pod, NextCommand(wk).value, a);
    CanMay(wk, pod, a);
    CommandRuns(base, w, wk, p, pod, a);
    assert pod.files + a.generated == pod.files;
  }

  /** In a pod that goes astray, or has, anything can be answered. */
  lemma AstrayRun(base: State, w: nat, wk: Worker, p: NamespacedName, pod: Pod, text: string) returns (pod': Pod)
    requires wk.pod == Some(p) && pod.live && pod.running && NextCommand(wk).Some?
    requires Astray(pod.opt, pod.trace) || !ReadAsMeant(NextCommand(wk).value)
    ensures Leads(Scene(base, w, wk, p, pod), Scene(base, w, AfterCommand(wk, true, text), p, pod'))
    ensures pod'.live && pod'.running && Astray(pod'.opt, pod'.trace)
  {
    hide Leads, Scene, AfterCommand, NextCommand, Plausible, Astray, ReadAsMeant;
    var a := Ran(true, text, map[]);
    var command := NextCommand(wk).value;
    AstrayMore(pod.opt, pod.trace, Executed(command, true, text));
    pod' := AfterRun(pod, command, a);
    CommandRuns(base, w, wk, p, pod, a);
  }

  // ---------------------------------------------------------------- the pieces of a run

  /** A key file's name that comes back from a listing as it is. */
  predicate Listable(file: string) { Fields(file) == [file] && SafeName(file) && Normal(file) }

  lemma PodCreated(base: State, w: nat, wk: Worker, p: NamespacedName)
    requires wk.pc.CreatePod? && wk.pod == Some(p) && p !in base.pods && p !in base.foreign && PodNamed(p)
    ensures Leads(base.(workers := base.workers[w := wk]), Scene(base, w, wk.(pc := WaitPod(0)), p, NewPod(w, wk)))
  {
    hide Leads, NewPod, PodNamed;
    var waiting := wk.(pc := WaitPod(0));
    assert base.workers[w := wk][w := waiting] == base.workers[w := waiting];
    LeadsByStep(base.(workers := base.workers[w := wk]), Do(w, Accepted));
  }

  lemma PodComesUp(base: State, w: nat, wk: Worker, p: NamespacedName, pod: Pod)
    requires wk.pc == WaitPod(0) && wk.pod == Some(p) && Mountable(pod.opt)
    ensures Leads(Scene(base, w, wk, p, pod), Scene(base, w, wk, p, pod.(running := true)))
  {
    hide Leads, Mountable;
    assert base.workers[w := wk][w := wk] == base.workers[w := wk];
    StepScene(base, w, wk, p, pod, PodRuns(p), wk, pod.(running := true));
  }

  lemma PodIsSeen(base: State, w: nat, wk: Worker, p: NamespacedName, pod: Pod)
    requires wk.pc == WaitPod(0) && wk.pod == Some(p) && pod.running
    ensures Leads(Scene(base, w, wk, p, pod), Scene(base, w, wk.(pc := if wk.job.SignJob? then LoadImage else MakeDir), p, pod))
  {
    hide Leads, NewPod, Mountable, Changed, NextCommand;
    assert base.pods[p := pod][p := pod] == base.pods[p := pod];
    StepScene(base, w, wk, p, pod, Do(w, Phase(true)), wk.(pc := if wk.job.SignJob? then LoadImage else MakeDir), pod);
  }

  lemma PodStarts(base: State, w: nat, wk: Worker, p: NamespacedName)
    requires wk.pc.CreatePod? && wk.pod == Some(p) && p !in base.pods && p !in base.foreign && PodNamed(p)
    requires Mountable(wk.opt)
    ensures Leads(base.(workers := base.workers[w := wk]),
                  Scene(base, w, wk.(pc := if wk.job.SignJob? then LoadImage else MakeDir), p, NewPod(w, wk).(running := true)))
  {
    hide Leads, Scene, PodNamed, Mountable;
    var s0, waiting := base.(workers := base.workers[w := wk]), wk.(pc := WaitPod(0));
    var pod, up := NewPod(w, wk), NewPod(w, wk).(running := true);
    PodCreated(base, w, wk, p);
    PodComesUp(base, w, waiting, p, pod);
    PodIsSeen(base, w, waiting, p, up);
    var next := wk.(pc := if wk.job.SignJob? then LoadImage else MakeDir);
    LeadsOn(s0, Scene(base, w, waiting, p, pod), Scene(base, w, waiting, p, up));
    LeadsOn(s0, Scene(base, w, waiting, p, up), Scene(base, w, next, p, up));
  }

  /** Listing one key file and reading it. */
  lemma KeyIsFound(base: State, w: nat, wk: Worker, p: NamespacedName, pod: Pod, file: string, text: string) returns (pod': Pod)
    requires wk.pc.ListKeys? && wk.pod == Some(p) && Sound(pod) && Listable(file)
    requires KeyPath(file) in pod.files && OnTerminal(pod.files[KeyPath(file)].text) == text
    requires Contains(text, RoleLine(wk.job.Role()))
    ensures Leads(Scene(base, w, wk, p, pod), Scene(base, w, AfterFound(wk, TrustKey(file, text, PassOf(wk))), p, pod'))
  {
    hide Leads, Scene, Fields, SafeName, KeyPath, Contains, RoleLine, Normal, MayGenerate, AfterFound, GeneratedFile,
         LoadCmd, ImageRef, AfterImages, AfterSign, Worker.Fail, PassOf, OnTerminal, Sound, PlainWord;
    var none: map<string, KeyFile> := map[];
    var reading := wk.(pc := ReadKeys([file]));
    NothingNew(pod);
    KeyPathPlain(file);
    var pod1 := IdleRun(base, w, wk, p, pod, Ran(true, file, none));
    NothingNew(pod1);
    SameFinding(wk, reading, file, text);
    pod' := IdleRun(base, w, reading, p, pod1, Ran(true, text, none));
    LeadsOn(Scene(base, w, wk, p, pod), Scene(base, w, reading, p, pod1),
            Scene(base, w, AfterFound(wk, TrustKey(file, text, PassOf(wk))), p, pod'));
  }

  lemma NothingNew(pod: Pod)
    ensures MayGenerate(pod, map[])
  {
  }

  lemma SameFinding(wk: Worker, reading: Worker, file: string, text: string)
    requires reading == wk.(pc := ReadKeys([file])) && Contains(text, RoleLine(wk.job.Role()))
    ensures AfterCommand(reading, true, text) == AfterFound(wk, TrustKey(file, text, PassOf(wk)))
  {
    hide Contains, RoleLine;
  }

  /** A new file in a pod that has none of that name. */
  lemma MayAdd(pod: Pod, file: string, f: KeyFile)
    requires KeyPath(file) !in pod.files && GeneratedFile(f, Environment(pod.opt))
    ensures MayGenerate(pod, map[KeyPath(file) := f]) && MayGenerate(pod, map[])
  {
    hide GeneratedFile;
  }

  /** What the root key's run draws and finds. */
  datatype Props = Props(pass: string, suffix: string, rootFile: string, rootText: string)

  predicate PropsOK(x: Props) {
    && RandomString(x.pass, PassLength) && RandomString(x.suffix, 10)
    && Listable(x.rootFile) && KeyText(x.rootText, Root)
  }

  /** With a name that is not too long the signer's pods have proper names. */
  lemma PodIsNamed(job: Job, suffix: string)
    requires ObjectName(job.Signer()) && |job.Signer()| <= MaxSigner && RandomString(suffix, 10) && NamespaceName(job.Namespace())
    ensures PodNamed(PodName(job, suffix))
  {
    PodNameLength(job, suffix);
    var head, tail := "image-signing-by-", "-" + suffix;
    assert head[0] == 'i';
    HeadText();
    assert tail[|tail| - 1] == suffix[9] && suffix[9] in suffix;
    forall c | c in tail ensures LowerOrDigit(c) || c == '-' {
      assert c == '-' || c in suffix;
    }
    hide Labels, NamespaceName;
    LabelsPrefixed(head, job.Signer());
    LabelsSuffixed(head + job.Signer(), tail);
    assert head + job.Signer() + tail == "image-signing-by-" + job.Signer() + "-" + suffix;
  }

  lemma HeadText()
    ensures forall c :: c in "image-signing-by-" ==> LowerOrDigit(c) || c == '-'
  {
  }

  lemma NamespaceOfOperator()
    ensures NamespaceName(OperatorNamespace)
  {
  }

  // ---------------------------------------------------------------- storing a root key

  function Signers(n: string): State { Empty.(signers := map[n := [None]]) }

  function RootRun(n: string, x: Props): Worker {
    Choose(RootWorker(n, 0, None).(pc := NewController), x.pass, x.suffix, None)
  }

  function RootKeyOf(x: Props): TrustKey { TrustKey(x.rootFile, OnTerminal(x.rootText), x.pass) }

  lemma RootKeyGood(x: Props)
    requires PropsOK(x)
    ensures GoodKey(RootKeyOf(x), Root)
  {
    hide KeyText, Contains, OnTerminal;
    TerminalKeyText(x.rootText, Root);
  }

  lemma RootRunBegins(n: string, x: Props)
    requires PropsOK(x) && ObjectName(n)
    ensures Leads(Empty, Signers(n).(workers := map[0 := RootRun(n, x)]))
  {
    hide Leads, PropsOK, Choose, PodName, ObjectName;
    var s0, wk := Signers(n), RootWorker(n, 0, None);
    assert Step(Empty, CreateSigner(n)) == s0;
    LeadsByStep(Empty, CreateSigner(n));
    var s1 := s0.(workers := map[0 := wk]);
    assert Step(s0, StartRoot(0, n, 0)) == s1;
    LeadsByStep(s0, StartRoot(0, n, 0));
    var s2 := s0.(workers := map[0 := wk.(pc := NewController)]);
    assert Step(s1, Do(0, Missing(""))) == s2 by {
      assert map[0 := wk][0 := wk.(pc := NewController)] == map[0 := wk.(pc := NewController)];
    }
    LeadsByStep(s1, Do(0, Missing("")));
    var s3 := s0.(workers := map[0 := RootRun(n, x)]);
    RootChooses(n, x);
    LeadsByStep(s2, Do(0, Chosen(x.pass, x.suffix, None)));
    LeadsOn(Empty, s0, s1);
    LeadsOn(Empty, s1, s2);
    LeadsOn(Empty, s2, s3);
  }

  lemma RootChooses(n: string, x: Props)
    requires PropsOK(x)
    ensures Step(Signers(n).(workers := map[0 := RootWorker(n, 0, None).(pc := NewController)]),
                 Do(0, Chosen(x.pass, x.suffix, None)))
            == Signers(n).(workers := map[0 := RootRun(n, x)])
  {
    hide Choose, PodName, RandomString, Listable, KeyText;
    var wk := RootWorker(n, 0, None).(pc := NewController);
    var s := Signers(n).(workers := map[0 := wk]);
    assert wk.pod == None;
    assert Act(s, 0, wk, Chosen(x.pass, x.suffix, None)) == Some((RootRun(n, x), NoEffect));
    assert map[0 := wk][0 := RootRun(n, x)] == map[0 := RootRun(n, x)];
  }

  /** The state in which the root key is stored and its run is leaving. */
  ghost predicate RootStored(s: State, n: string, x: Props) {
    && s.requests == map[] && n in s.signers && s.signers[n] == [None]
    && s.keys == map[n := [SignerKeySpec(RootKeyOf(x), None)]]
    && s.foreign == {} && s.workers.Keys == {0} && s.workers[0].pod.Some? && s.workers[0].job.RootJob?
    && s.pods.Keys == {s.workers[0].pod.value}
    && exists job :: s.workers[0].pod.value == PodName(job, x.suffix) && job.RootJob? && job.signer == n
  }

  lemma RootIsStored(n: string, x: Props) returns (s: State)
    requires PropsOK(x) && ObjectName(n) && |n| <= MaxSigner
    ensures Leads(Empty, s) && RootStored(s, n, x)
  {
    hide Leads, PropsOK, PodName, PodNamed, ObjectName, NamespaceName, Mountable, Listable, KeyText, Contains, RoleLine, RoleEnv,
         KeyPath, Scene, RootStored, InitialFiles;
    var base, wk := Signers(n), RootRun(n, x);
    var p := PodName(wk.job, x.suffix);
    RootRunBegins(n, x);
    SuffixRandom(x);
    NamespaceOfOperator();
    PodIsNamed(wk.job, x.suffix);
    NothingToMount(wk.opt);
    assert base.workers[0 := wk] == map[0 := wk];
    PodStarts(base, 0, wk, p);
    var pod := NewPod(0, wk).(running := true);
    var pod1 := RootIsGenerated(base, n, x, p, pod);
    var k := RootKeyOf(x);
    var made := wk.(pc := CreateKey(k));
    LeadsOn(Empty, base.(workers := map[0 := wk]), Scene(base, 0, wk.(pc := MakeDir), p, pod));
    LeadsOn(Empty, Scene(base, 0, wk.(pc := MakeDir), p, pod), Scene(base, 0, made, p, pod1));
    s := KeyIsCreated(base, n, x, p, pod1);
    LeadsOn(Empty, Scene(base, 0, made, p, pod1), s);
  }

  lemma KeyIsCreated(base: State, n: string, x: Props, p: NamespacedName, pod: Pod) returns (s: State)
    requires base == Signers(n) && p == PodName(RootRun(n, x).job, x.suffix)
    ensures Leads(Scene(base, 0, RootRun(n, x).(pc := CreateKey(RootKeyOf(x))), p, pod), s) && RootStored(s, n, x)
  {
    hide Leads, PodName, StepOutside;
    var wk, k := RootRun(n, x), RootKeyOf(x);
    var s1 := Scene(base, 0, wk.(pc := CreateKey(k)), p, pod);
    s := Step(s1, Do(0, Accepted));
    LeadsByStep(s1, Do(0, Accepted));
    assert base.keys[n := [SignerKeySpec(k, None)]] == map[n := [SignerKeySpec(k, None)]];
    assert PodName(wk.job, x.suffix) == p && wk.job.RootJob? && wk.job.signer == n;
  }

  lemma RootIsGenerated(base: State, n: string, x: Props, p: NamespacedName, pod: Pod) returns (pod': Pod)
    requires PropsOK(x) && p == PodName(RootRun(n, x).job, x.suffix) && pod == NewPod(0, RootRun(n, x)).(running := true)
    ensures var wk := RootRun(n, x);
            Leads(Scene(base, 0, wk.(pc := MakeDir), p, pod), Scene(base, 0, wk.(pc := CreateKey(RootKeyOf(x))), p, pod'))
  {
    hide Leads, Scene, PodName, Listable, KeyText, RandomString, Contains, RoleLine, RoleEnv, KeyPath, InitialFiles,
         MayGenerate, CanRun, OnTerminal, Astray, Sound;
    var wk := RootRun(n, x);
    NoFilesYet(pod.opt, x.pass);
    SoundAtFirst(pod);
    var made := wk.(pc := MakeDir);
    var pod1 := GenerateRoot(base, 0, made, p, pod, x);
    RootKeyGood(x);
    CarriesRole(OnTerminal(x.rootText), Root);
    pod' := KeyIsFound(base, 0, wk.(pc := ListKeys), p, pod1, x.rootFile, OnTerminal(x.rootText));
    LeadsOn(Scene(base, 0, made, p, pod), Scene(base, 0, wk.(pc := ListKeys), p, pod1),
            Scene(base, 0, wk.(pc := CreateKey(RootKeyOf(x))), p, pod'));
  }

  lemma SoundAtFirst(pod: Pod)
    requires pod.live && pod.running && pod.trace == [] && AllSafe(RestoredKeys(pod.opt))
    ensures Sound(pod)
  {
  }

  lemma SuffixRandom(x: Props)
    requires PropsOK(x)
    ensures RandomString(x.suffix, 10)
  {
  }

  lemma NothingToMount(opt: CommandOpt)
    requires opt.imagePvc == opt.registryLoginSecret == opt.registryLoginCertSecret == ""
    ensures Mountable(opt)
  {
  }

  lemma CarriesRole(text: string, r: Role)
    requires KeyText(text, r)
    ensures Contains(text, RoleLine(r))
  {
  }

  /** Making the directory and generating the key. */
  lemma GenerateRoot(base: State, w: nat, wk: Worker, p: NamespacedName, pod: Pod, x: Props) returns (pod': Pod)
    requires PropsOK(x) && wk.pc.MakeDir? && wk.pod == Some(p) && Sound(pod) && pod.files == map[]
    requires RoleEnv(Root) in Environment(pod.opt) && Environment(pod.opt)[RoleEnv(Root)] == x.pass
    ensures Leads(Scene(base, w, wk, p, pod), Scene(base, w, wk.(pc := ListKeys), p, pod'))
    ensures Sound(pod') && KeyPath(x.rootFile) in pod'.files && pod'.files[KeyPath(x.rootFile)].text == x.rootText
  {
    hide Leads, Scene, Listable, KeyText, RandomString, Environment, RoleEnv, KeyPath, MayGenerate, Sound, AfterRun;
    var none: map<string, KeyFile> := map[];
    var f := KeyFile(x.rootText, Some(Root), x.pass);
    var a1, a2 := Ran(true, "", none), Ran(true, "", map[KeyPath(x.rootFile) := f]);
    MayAdd(pod, x.rootFile, f);
    var pod1 := IdleRun(base, w, wk, p, pod, a1);
    MayAdd(pod1, x.rootFile, f);
    pod' := AfterRun(pod1, GenerateKey(Root), a2);
    SoundAfter(pod1, GenerateKey(Root), a2);
    CanMay(wk.(pc := Generate), pod1, a2);
    CommandRuns(base, w, wk.(pc := Generate), p, pod1, a2);
    LeadsOn(Scene(base, w, wk, p, pod), Scene(base, w, wk.(pc := Generate), p, pod1),
            Scene(base, w, wk.(pc := ListKeys), p, pod'));
  }

  lemma NoFilesYet(opt: CommandOpt, pass: string)
    requires opt == NoOptions.(rootKey := Some(TrustKey("", "", pass))) && RandomString(pass, PassLength)
    ensures InitialFiles(opt) == map[] && AllSafe(RestoredKeys(opt))
    ensures RoleEnv(Root) in Environment(opt) && Environment(opt)[RoleEnv(Root)] == pass
  {
    hide RoleEnv;
    assert RestoredKeys(opt) == [];
  }
}
