/** The steps where keys are found, stored and answered for. */
module ProtocolKeys {
  import opened Wrappers
  import opened Strings
  import opened ApiTypes
  import opened Naming
  import opened Shell
  import opened CommandOptions
  import opened Commands
  import opened Protocol
  import opened ProtocolInvariant
  import opened ProtocolSteps
  import opened ProtocolActs

  // ---------------------------------------------------------------- environment and role lines

  /** A key with a passphrase puts it into the pod's environment, and the other key does not overwrite it. */
  lemma EnvironmentOf(opt: CommandOpt, r: Role)
    requires opt.Key(r).Some? && opt.Key(r).value.passPhrase != ""
    ensures RoleEnv(r) in Environment(opt) && Environment(opt)[RoleEnv(r)] == opt.Key(r).value.passPhrase
  {
    RoleEnvsDiffer();
  }

  lemma {:induction false} ContainsChars(s: string, sub: string, c: char)
    requires Contains(s, sub) && c in sub
    ensures c in s
  {
    if !(sub <= s) {
      ContainsChars(s[1..], sub, c);
    } else {
      var i :| 0 <= i < |sub| && sub[i] == c;
      assert s[i] == c;
    }
  }

  lemma RoleLineBlank(r: Role)
    ensures RoleLine(r) != [] && ' ' in RoleLine(r) && RoleLine(r)[|RoleLine(r)| - 1] != '\n'
    ensures '\n' !in RoleLine(r) && '\r' !in RoleLine(r)
  {
    assert RoleLine(r)[5] == ' ';
    assert RoleLine(r)[|RoleLine(r)| - 1] == 't';
  }

  /** A good key passes the guards of Start and goes through the shell unchanged. */
  lemma GoodKeyRestores(k: TrustKey, r: Role)
    requires GoodKey(k, r)
    ensures Restorable(Some(k)) == [k] && ShellSafe(k) && k.passPhrase != ""
  {
    RoleLineBlank(r);
    ContainsChars(k.key, RoleLine(r), ' ');
    BlankIsNoOption(k.key);
  }

  lemma BlankIsNoOption(s: string)
    requires ' ' in s
    ensures !EchoOption(s)
  {
    var i :| 0 <= i < |s| && s[i] == ' ';
  }

  /** What a sign run's pod was started with. */
  lemma RootChosen(s: State, wk: Worker)
    requires HistoriesOK(s) && KeysOK(s) && wk.job.SignJob? && ChoiceOK(s, wk)
    ensures var n := wk.job.spec.signer;
            var root := s.keys[n][0].root;
            && wk.opt.rootKey == Some(root) && GoodKey(root, Root) && root in RestoredKeys(wk.opt)
            && RoleEnv(Root) in Environment(wk.opt) && Environment(wk.opt)[RoleEnv(Root)] == root.passPhrase
  {
    var versions := s.keys[wk.job.spec.signer];
    var i :| 0 <= i < |versions| && versions[i] == wk.key.value;
    assert KeyGrows(versions[0], versions[i]);
    assert SpecOK(s, versions[i]);
    GoodKeyRestores(wk.key.value.root, Root);
    EnvironmentOf(wk.opt, Root);
  }

  /** A target the run found is still there. */
  lemma TargetStays(s: State, wk: Worker)
    requires HistoriesOK(s) && wk.job.SignJob? && ChoiceOK(s, wk) && !wk.added
    ensures TargetName(wk.job.spec) in Last(s.keys[wk.job.spec.signer]).Entries()
  {
    var versions := s.keys[wk.job.spec.signer];
    var i :| 0 <= i < |versions| && versions[i] == wk.key.value;
    assert KeyGrows(versions[i], Last(versions));
  }

  // ---------------------------------------------------------------- signing

  lemma ImagesPoint(wk: Worker, pod: Pod, a: Answer)
    requires PointOK(wk, pod) && wk.pc.ListImages? && wk.job.SignJob? && a.Ran? && a.ok
    requires Astray(pod.opt, AfterRun(pod, Images, a).trace) || Prints(pod, Images, a.text)
    requires AfterImages(wk, Fields(a.text)).pc.TagImage?
    ensures PointOK(AfterImages(wk, Fields(a.text)), AfterRun(pod, Images, a))
  {
    hide HistoriesOK, KeysOK, ArchivePath, ImageRef, TargetName, KeyPath, Fields, RoleLine, Astray, PlainWord;
  }

  lemma ImagesRun(wk: Worker, ids: seq<string>)
    ensures var next := AfterImages(wk, ids);
            SameRun(wk, next) && next.deleted == wk.deleted
            && (if next.pc.TagImage? then next.job == wk.job
                else next.pc.Close? && (next.job == wk.job || !Successful(next.job)))
  {
  }

  lemma ListImagesNext(s: State, w: nat, wk: Worker, a: Answer)
    requires Local(s, w, wk) && InPodOK(s, w, wk) && wk.pc.ListImages? && wk.job.SignJob? && RanHere(s, w, wk, a)
    ensures NextOK(s, w, wk, AfterImages(wk, Fields(a.text)), AfterRun(s.pods[wk.pod.value], Images, a))
  {
    hide HistoriesOK, KeysOK, JobOK, ChoiceOK, PodOK, PodGrows, Straight, AfterImages, Fields, Astray, PointOK,
         AfterRun, PlainWord;
    var next := AfterImages(wk, Fields(a.text));
    LocalOK(s, w, wk);
    ImagesRun(wk, Fields(a.text));
    if next.pc.Close? {
      SilentExit(s, w, wk, next, AfterRun(s.pods[wk.pod.value], Images, a));
    } else {
      ImagesPoint(wk, s.pods[wk.pod.value], a);
    }
  }

  lemma SignTrace(wk: Worker, pod: Pod, a: Answer)
    requires wk.pc.Sign? && wk.job.SignJob? && TraceOK(wk, pod.trace) && a.Ran? && a.ok
    ensures Signed(AfterRun(pod, TrustSign(ImageRef(wk.job.spec, wk.regctl.value)), a).trace, wk.job.spec, wk.regctl.value)
  {
    hide ArchivePath, ImageRef, Fields, Astray;
  }

  /** Success is justified: the pod has signed, and the target is in the store. */
  lemma SuccessNow(s: State, t: State, w: nat, wk: Worker)
    requires HistoriesOK(s) && KeysOK(s) && Extends(s, t) && HistoriesOK(t) && wk.job.SignJob? && ChoiceOK(s, wk)
    requires wk.pod.Some? && wk.pod.value in t.pods
    requires t.pods[wk.pod.value].running && PodOf(t.pods[wk.pod.value], wk)
    requires wk.regctl.Some? && Signed(t.pods[wk.pod.value].trace, wk.job.spec, wk.regctl.value)
    requires TargetName(wk.job.spec) in Last(t.keys[wk.job.spec.signer]).Entries()
    requires t.pods[wk.pod.value].owner == w && w in t.workers && Answers(t.workers[w], wk.job.request, wk.job.spec)
    requires TargetStored(t.keys[wk.job.spec.signer], TargetName(wk.job.spec), t.pods[wk.pod.value])
    ensures SuccessOK(t, wk.job.request, wk.job.spec)
  {
    hide TargetStored, Signed, TargetName, KeysOK;
    RootChosen(s, wk);
    assert s.keys[wk.job.spec.signer] <= t.keys[wk.job.spec.signer];
    var root := s.keys[wk.job.spec.signer][0].root;
    assert t.keys[wk.job.spec.signer][0].root == root;
    assert SignedWith(t.pods[wk.pod.value], wk.job.spec, root);
    assert SignedFor(t, wk.pod.value, wk.job.request, wk.job.spec, root);
  }

  /** A run that has a stored target key signs with it. */
  lemma ChosenStored(s: State, t: State, wk: Worker, pod: Pod)
    requires wk.job.SignJob? && ChoiceOK(s, wk) && !wk.added && Extends(s, t) && pod.opt == wk.opt
    ensures TargetStored(t.keys[wk.job.spec.signer], TargetName(wk.job.spec), pod)
  {
    hide TargetName, Astray;
    var versions := s.keys[wk.job.spec.signer];
    var i :| 0 <= i < |versions| && versions[i] == wk.key.value;
    assert t.keys[wk.job.spec.signer][i] == wk.key.value;
  }

  lemma SignPoint(wk: Worker, pod: Pod, a: Answer)
    requires PointOK(wk, pod) && wk.pc.Sign? && wk.job.SignJob? && a.Ran? && a.ok && wk.added
    ensures PointOK(wk.(pc := ListKeys), AfterRun(pod, TrustSign(ImageRef(wk.job.spec, wk.regctl.value)), a))
  {
    hide ArchivePath, ImageRef, Fields, Astray, Signed, TaggedAs, Listed, Loaded, GoodKey, Holds, SafeName;
    SignTrace(wk, pod, a);
  }

  lemma SignSuccess(s: State, w: nat, wk: Worker, pod: Pod)
    requires Local(s, w, wk) && InPod(wk.pc) && wk.job.SignJob? && !wk.added
    requires PodOK(pod) && PodGrows(s.pods[wk.pod.value], pod) && pod.running && pod.owner == w
    requires wk.regctl.Some? && Signed(pod.trace, wk.job.spec, wk.regctl.value)
    requires EffectOK(s, w, Succeed(wk), PutPod(pod))
    ensures JobOK(ApplyAct(s, w, Succeed(wk), PutPod(pod)), Succeed(wk).job)
  {
    hide HistoriesOK, KeysOK, Signed, TargetName, Astray, TargetStored, PodOK, Straight, JobOK, SuccessOK, PointOK;
    var next := Succeed(wk);
    var t := ApplyAct(s, w, next, PutPod(pod));
    LocalOK(s, w, wk);
    EffectExtends(s, w, next, PutPod(pod));
    TargetStays(s, wk);
    ChosenStored(s, t, wk, pod);
    SuccessNow(s, t, w, wk);
    JobAfter(s, w, wk, next, PutPod(pod));
  }

  // ---------------------------------------------------------------- finding a key

  lemma ScanNext(s: State, w: nat, wk: Worker, names: seq<string>, pod: Pod)
    requires Local(s, w, wk) && (wk.pc.ListKeys? || wk.pc.ReadKeys?) && InPodOK(s, w, wk)
    requires pod.owner == w && PodOK(pod) && PodGrows(s.pods[wk.pod.value], pod) && Straight(wk.job, pod)
    requires Astray(pod.opt, pod.trace) || forall n :: n in names ==> SafeName(n)
    ensures NextOK(s, w, wk, Scan(wk, names), pod)
  {
    hide HistoriesOK, KeysOK, PodOK, Straight, JobOK, ChoiceOK, SafeName, Signed, ArchivePath, ImageRef, GoodKey, Holds, Astray;
    LocalOK(s, w, wk);
    if names == [] {
      SilentExit(s, w, wk, Scan(wk, names), pod);
    } else if wk.job.SignJob? {
      TracesGrow(s.pods[wk.pod.value].trace, pod.trace, wk.job.spec, wk.regctl.value);
    }
  }

  /** A file with the line of the run's role is a key generated in this pod, under the run's passphrase. */
  lemma FoundFile(s: State, wk: Worker, pod: Pod, path: string)
    requires HistoriesOK(s) && KeysOK(s) && ChoiceOK(s, wk) && (wk.job.SignJob? ==> wk.added)
    requires PodOK(pod) && pod.opt == wk.opt && path in pod.files
    requires Contains(pod.files[path].text, RoleLine(wk.job.Role()))
    ensures FoundBy(wk, pod.files[path])
  {
    if path in InitialFiles(wk.opt) {
      OnlyRootRestored(s, wk, path);
    } else {
      PhraseChosen(s, wk);
      GeneratedFor(wk, pod.files[path]);
    }
  }

  /** What a run may take from a key file. */
  predicate FoundBy(wk: Worker, f: KeyFile) {
    var r := wk.job.Role();
    && f == KeyFile(f.text, Some(r), PassOf(wk))
    && KeyText(f.text, r) && RandomString(PassOf(wk), PassLength)
    && RoleEnv(r) in Environment(wk.opt) && Environment(wk.opt)[RoleEnv(r)] == PassOf(wk)
  }

  lemma PhraseChosen(s: State, wk: Worker)
    requires ChoiceOK(s, wk) && (wk.job.SignJob? ==> wk.added)
    ensures RandomString(PassOf(wk), PassLength)
    ensures RoleEnv(wk.job.Role()) in Environment(wk.opt) && Environment(wk.opt)[RoleEnv(wk.job.Role())] == PassOf(wk)
  {
    EnvironmentOf(wk.opt, wk.job.Role());
  }

  lemma GeneratedFor(wk: Worker, f: KeyFile)
    requires GeneratedFile(f, Environment(wk.opt)) && Contains(f.text, RoleLine(wk.job.Role()))
    requires RandomString(PassOf(wk), PassLength)
    requires RoleEnv(wk.job.Role()) in Environment(wk.opt) && Environment(wk.opt)[RoleEnv(wk.job.Role())] == PassOf(wk)
    ensures FoundBy(wk, f)
  {
    assert f.role.value != wk.job.Role() ==> OtherRole(f.role.value) == wk.job.Role();
  }

  /** The only file such a pod starts with is the root key's, which has no target line. */
  lemma OnlyRootRestored(s: State, wk: Worker, path: string)
    requires HistoriesOK(s) && KeysOK(s) && ChoiceOK(s, wk) && (wk.job.SignJob? ==> wk.added)
    requires path in InitialFiles(wk.opt)
    ensures wk.job.SignJob? && !Contains(InitialFiles(wk.opt)[path].text, RoleLine(Target))
  {
    hide HistoriesOK, KeysOK, RoleLine, Contains, KeyPath, TargetName, PodName;
    KeyFileFrom(RestoredKeys(wk.opt), path);
    var k :| k in RestoredKeys(wk.opt) && KeyPath(k.id) == path && KeyFiles(RestoredKeys(wk.opt))[path] == k.key + "\n";
    if wk.job.SignJob? {
      RootChosen(s, wk);
      RoleLineBlank(Target);
      ContainsLine(k.key, RoleLine(Target));
    }
  }

  lemma TerminalKeyText(text: string, r: Role)
    requires KeyText(text, r)
    ensures KeyText(OnTerminal(text), r)
  {
    hide Contains, RoleLine, OnTerminal;
    RoleLineBlank(r);
    RoleLineBlank(OtherRole(r));
    TerminalContains(text, RoleLine(r));
    TerminalContains(text, RoleLine(OtherRole(r)));
    TerminalChars(text, '"');
    TerminalChars(text, '$');
    TerminalChars(text, '`');
    TerminalChars(text, '\\');
  }

  /** What is read of such a file is a good key, held by the pod. */
  lemma FoundGood(wk: Worker, pod: Pod, name: string, text: string)
    requires SafeName(name) && KeyPath(name) in pod.files && FoundBy(wk, pod.files[KeyPath(name)]) && pod.opt == wk.opt
    requires text == OnTerminal(pod.files[KeyPath(name)].text)
    ensures var k := TrustKey(name, text, PassOf(wk)); GoodKey(k, wk.job.Role()) && Holds(pod, k, wk.job.Role())
  {
    hide KeyText, OnTerminal, KeyPath, RoleEnv, Environment;
    TerminalKeyText(pod.files[KeyPath(name)].text, wk.job.Role());
  }

  lemma FoundPoint(wk: Worker, pod: Pod, after: Pod, found: TrustKey)
    requires PointOK(wk, pod) && wk.pc.ReadKeys? && PodGrows(pod, after)
    requires Astray(after.opt, after.trace) || (GoodKey(found, wk.job.Role()) && Holds(pod, found, wk.job.Role()))
    requires wk.job.RootJob? ==> !Astray(after.opt, after.trace)
    requires wk.job.SignJob? ==> wk.key.Some? && wk.key.value.targets.Some?
    ensures PointOK(AfterFound(wk, found), after)
  {
    hide ArchivePath, ImageRef, TargetName, KeyPath, Fields, RoleLine, Signed, KeyText, SafeName, Environment, RoleEnv, Astray,
         OnTerminal;
    if wk.job.SignJob? {
      TracesGrow(pod.trace, after.trace, wk.job.spec, wk.regctl.value);
    }
  }

  lemma FoundRun(wk: Worker, found: TrustKey)
    requires wk.job.SignJob? ==> wk.key.Some?
    ensures var next := AfterFound(wk, found);
            SameRun(wk, next) && next.deleted == wk.deleted && next.job == wk.job
            && (next.pc.Close? || (InPod(next.pc) && (wk.job.SignJob? ==> wk.key.value.targets.Some?)))
  {
  }

  lemma KeyChosen(s: State, wk: Worker)
    requires ChoiceOK(s, wk) && wk.job.SignJob?
    ensures wk.key.Some?
  {
    hide TargetName;
  }

  lemma StayNext(s: State, w: nat, wk: Worker, next: Worker, pod: Pod)
    requires SameRun(wk, next) && next.deleted == wk.deleted && next.job == wk.job && wk.pod.Some?
    requires InPod(next.pc) && PointOK(next, pod)
    ensures NextOK(s, w, wk, next, pod)
  {
    hide PointOK;
  }

  /** A text with the role's line, read where nothing has gone astray, is that of a good key. */
  lemma ReadGood(s: State, w: nat, wk: Worker, a: Answer)
    requires Local(s, w, wk) && InPodOK(s, w, wk) && wk.pc.ReadKeys? && wk.pc.names != [] && RanHere(s, w, wk, a)
    requires Contains(a.text, RoleLine(wk.job.Role()))
    requires !Astray(wk.opt, AfterRun(s.pods[wk.pod.value], Cat(wk.pc.names[0]), a).trace)
    ensures var k := TrustKey(wk.pc.names[0], a.text, PassOf(wk));
            GoodKey(k, wk.job.Role()) && Holds(s.pods[wk.pod.value], k, wk.job.Role())
  {
    hide HistoriesOK, KeysOK, PodOK, PodGrows, Straight, JobOK, ChoiceOK, Contains, RoleLine, KeyPath, OnTerminal,
         Astray, TraceOK,
         SafeName, PassOf, GoodKey, Holds, FoundBy, MayGenerate, AllSafe, ReadAsMeant;
    LocalOK(s, w, wk);
    var pod, name := s.pods[wk.pod.value], wk.pc.names[0];
    NotYetAstray(pod, Cat(name), a);
    AddedHere(wk, pod);
    RoleLineBlank(wk.job.Role());
    TerminalContains(pod.files[KeyPath(name)].text, RoleLine(wk.job.Role()));
    FoundFile(s, wk, pod, KeyPath(name));
    FoundGood(wk, pod, name, a.text);
  }

  lemma NotYetAstray(pod: Pod, command: Command, a: Answer)
    requires a.Ran? && !Astray(pod.opt, AfterRun(pod, command, a).trace)
    ensures !Astray(pod.opt, pod.trace)
  {
    hide AllSafe, ReadAsMeant;
    if Astray(pod.opt, pod.trace) {
      AstrayStays(pod.opt, pod.trace, AfterRun(pod, command, a).trace);
    }
  }

  lemma FoundNext(s: State, w: nat, wk: Worker, a: Answer)
    requires Local(s, w, wk) && InPodOK(s, w, wk) && wk.pc.ReadKeys? && wk.pc.names != [] && RanHere(s, w, wk, a)
    requires Contains(a.text, RoleLine(wk.job.Role()))
    ensures NextOK(s, w, wk, AfterFound(wk, TrustKey(wk.pc.names[0], a.text, PassOf(wk))),
                   AfterRun(s.pods[wk.pod.value], Cat(wk.pc.names[0]), a))
  {
    hide NextOK, PodOK, PodGrows, HistoriesOK, KeysOK, JobOK, ChoiceOK, PointOK, Astray, AfterRun, Plausible,
         GoodKey, Holds, Contains,
         RoleLine, PassOf;
    LocalOK(s, w, wk);
    var pod, after := s.pods[wk.pod.value], AfterRun(s.pods[wk.pod.value], Cat(wk.pc.names[0]), a);
    var found := TrustKey(wk.pc.names[0], a.text, PassOf(wk));
    if wk.job.SignJob? {
      KeyChosen(s, wk);
    }
    FoundRun(wk, found);
    if AfterFound(wk, found).pc.Close? {
      SilentExit(s, w, wk, AfterFound(wk, found), after);
    } else {
      if !Astray(wk.opt, after.trace) {
        ReadGood(s, w, wk, a);
      }
      FoundPoint(wk, pod, after, found);
      StayNext(s, w, wk, AfterFound(wk, found), after);
    }
  }

  lemma AddedHere(wk: Worker, pod: Pod)
    requires PointOK(wk, pod) && wk.pc.ReadKeys?
    ensures wk.job.SignJob? ==> wk.added
  {
    hide ArchivePath, ImageRef, Astray;
  }

  // ---------------------------------------------------------------- storing a key

  lemma OwnSpec(s: State, w: nat, wk: Worker, k: TrustKey, r: Role)
    requires InPodOK(s, w, wk) && GoodKey(k, r) && Holds(s.pods[wk.pod.value], k, r)
    ensures OwnKey(s, k, r)
  {
  }

  lemma WithTargetGrows(spec: SignerKeySpec, name: string, key: TrustKey)
    ensures KeyGrows(spec, spec.WithTarget(name, key)) && name in spec.WithTarget(name, key).Entries()
            && spec.WithTarget(name, key).Entries()[name] == key
  {
  }

  lemma WithTargetOK(s: State, spec: SignerKeySpec, name: string, key: TrustKey)
    requires SpecOK(s, spec) && (key in s.outside || OwnTarget(s, spec.root, key))
    ensures SpecOK(s, spec.WithTarget(name, key))
  {
    hide OwnKey, OwnTarget;
  }

  lemma MoreOutside(s: State, strange: set<TrustKey>, spec: SignerKeySpec)
    requires SpecOK(s, spec)
    ensures SpecOK(s.(outside := s.outside + strange), spec)
  {
  }

  lemma LastSpecOK(s: State, n: string)
    requires HistoriesOK(s) && KeysOK(s) && n in s.keys
    ensures s.keys[n] != [] && SpecOK(s, Last(s.keys[n]))
  {
    hide SpecOK;
    assert KeyHistory(s.keys[n]);
  }

  /** What the patch of a run comes to. */
  function PatchedSpec(s: State, wk: Worker): SignerKeySpec
    requires wk.job.SignJob? && wk.pc.PatchKey? && wk.job.spec.signer in s.keys && s.keys[wk.job.spec.signer] != []
  {
    Last(s.keys[wk.job.spec.signer]).WithTarget(TargetName(wk.job.spec), wk.pc.found)
  }

  lemma PatchPoint(s: State, w: nat, wk: Worker)
    requires InPodOK(s, w, wk) && ChoiceOK(s, wk) && wk.pc.PatchKey?
    ensures wk.job.SignJob? && wk.key.Some? && wk.job.spec.signer in s.keys && wk.pod.Some? && wk.pod.value in s.pods
    ensures TargetName(wk.job.spec) !in wk.key.value.Entries()
    ensures var pod := s.pods[wk.pod.value];
            && pod.running && wk.regctl.Some? && Signed(pod.trace, wk.job.spec, wk.regctl.value)
            && (Astray(pod.opt, pod.trace) || (OwnKey(s, wk.pc.found, Target) && Holds(pod, wk.pc.found, Target)))
  {
    hide ArchivePath, ImageRef, TargetName, KeyPath, RoleLine, Signed, GoodKey, Astray, Holds;
    if !Astray(s.pods[wk.pod.value].opt, s.pods[wk.pod.value].trace) {
      OwnSpec(s, w, wk, wk.pc.found, Target);
    }
  }

  /** The pod restored the root key's file and generated the target key's, so these are two files. */
  lemma FoundElsewhere(s: State, w: nat, wk: Worker)
    requires HistoriesOK(s) && KeysOK(s) && InPodOK(s, w, wk) && ChoiceOK(s, wk) && wk.pc.PatchKey?
    requires PodOK(s.pods[wk.pod.value]) && PodOf(s.pods[wk.pod.value], wk)
    requires !Astray(wk.opt, s.pods[wk.pod.value].trace)
    ensures OwnTarget(s, Last(s.keys[wk.job.spec.signer]).root, wk.pc.found)
  {
    hide HistoriesOK, KeysOK, ChoiceOK, OwnKey, GoodKey, KeyPath, Environment, TraceOK, Astray, OnTerminal, Signed, TargetName;
    PatchPoint(s, w, wk);
    RootChosen(s, wk);
    NothingToRestore(s, wk);
    LastHasRoot(s, wk.job.spec.signer);
    var root := s.keys[wk.job.spec.signer][0].root;
    RootIsRestored(wk.opt, root);
    assert KeyPath(root.id) in s.pods[wk.pod.value].files && s.pods[wk.pod.value].files[KeyPath(root.id)].role == None;
  }

  lemma NothingToRestore(s: State, wk: Worker)
    requires ChoiceOK(s, wk) && wk.job.SignJob? && TargetName(wk.job.spec) !in wk.key.value.Entries()
    ensures Restorable(wk.opt.targetKey) == []
  {
    hide TargetName;
  }

  lemma LastHasRoot(s: State, n: string)
    requires HistoriesOK(s) && n in s.keys
    ensures s.keys[n] != [] && Last(s.keys[n]).root == s.keys[n][0].root
  {
    assert KeyHistory(s.keys[n]);
    assert KeyGrows(s.keys[n][0], Last(s.keys[n]));
  }

  lemma RootIsRestored(opt: CommandOpt, root: TrustKey)
    requires opt.rootKey == Some(root) && root in RestoredKeys(opt) && Restorable(opt.targetKey) == []
    ensures KeyPath(root.id) in InitialFiles(opt) && InitialFiles(opt)[KeyPath(root.id)].role == None
  {
    hide KeyPath;
    assert RestoredKeys(opt) == [root];
    KeyFileOf([root], 0);
  }

  lemma PatchEffect(s: State, w: nat, wk: Worker)
    requires HistoriesOK(s) && KeysOK(s) && InPodOK(s, w, wk) && ChoiceOK(s, wk) && wk.pc.PatchKey?
    requires PodOK(s.pods[wk.pod.value]) && PodOf(s.pods[wk.pod.value], wk)
    ensures wk.job.SignJob? && wk.key.Some? && wk.job.spec.signer in s.keys && s.keys[wk.job.spec.signer] != []
    ensures SignerKeyJson.Patched(wk.key.value, TargetName(wk.job.spec), wk.pc.found, Last(s.keys[wk.job.spec.signer]))
         == Some(PatchedSpec(s, wk))
    ensures KeyGrows(Last(s.keys[wk.job.spec.signer]), PatchedSpec(s, wk))
    ensures SpecOK(s.(outside := s.outside + Strange(s, wk, wk.pc.found)), PatchedSpec(s, wk))
    ensures TargetName(wk.job.spec) in PatchedSpec(s, wk).Entries()
            && PatchedSpec(s, wk).Entries()[TargetName(wk.job.spec)] == wk.pc.found
  {
    hide HistoriesOK, KeysOK, InPodOK, ChoiceOK, SpecOK, OwnKey, OwnTarget, PodOK, TargetName, Astray, Signed, Holds;
    PatchPoint(s, w, wk);
    LastSpecOK(s, wk.job.spec.signer);
    var strange := Strange(s, wk, wk.pc.found);
    var s' := s.(outside := s.outside + strange);
    if !Astray(wk.opt, s.pods[wk.pod.value].trace) {
      FoundElsewhere(s, w, wk);
      SameTarget(s, s', Last(s.keys[wk.job.spec.signer]).root, wk.pc.found);
    }
    var last := Last(s.keys[wk.job.spec.signer]);
    SignerKeyJson.PatchedIs(wk.key.value, TargetName(wk.job.spec), wk.pc.found, last);
    WithTargetGrows(last, TargetName(wk.job.spec), wk.pc.found);
    MoreOutside(s, strange, last);
    WithTargetOK(s', last, TargetName(wk.job.spec), wk.pc.found);
  }

  lemma SameTarget(s: State, t: State, root: TrustKey, k: TrustKey)
    requires OwnTarget(s, root, k) && t.pods == s.pods
    ensures OwnTarget(t, root, k)
  {
  }

  lemma PatchCases(s: State, wk: Worker, a: Answer)
    requires wk.pc.PatchKey? && wk.job.SignJob? && wk.key.Some? && wk.job.spec.signer in s.keys
             && s.keys[wk.job.spec.signer] != []
    requires SignerKeyJson.Patched(wk.key.value, TargetName(wk.job.spec), wk.pc.found, Last(s.keys[wk.job.spec.signer]))
          == Some(PatchedSpec(s, wk))
    requires ActPatchKey(s, wk, wk.pc.found, a).Some?
    ensures var r := ActPatchKey(s, wk, wk.pc.found, a).value;
            match a
            case Refused(msg) => r == (wk.Fail(msg, Close), NoEffect)
            case Lost(msg) => r == (wk.Fail(msg, Close), AddKeyVersion(PatchedSpec(s, wk), Strange(s, wk, wk.pc.found)))
            case _ => r == (Succeed(wk), AddKeyVersion(PatchedSpec(s, wk), Strange(s, wk, wk.pc.found)))
  {
    hide SignerKeyJson.Patched, TargetName, PatchedSpec, Strange;
  }

  lemma PatchKeyOK(s: State, w: nat, wk: Worker, a: Answer)
    requires Local(s, w, wk) && wk.pc.PatchKey? && ActPatchKey(s, wk, wk.pc.found, a).Some?
    ensures var r := ActPatchKey(s, wk, wk.pc.found, a).value; ActOK(s, w, wk, r.0, r.1)
  {
    hide ActPatchKey, ActOK, EffectOK, HistoriesOK, KeysOK, WorkerOK, InPodOK, ChoiceOK, SpecOK, JobOK, PodOK,
         TargetName, KeyGrows, PatchedSpec, SuccessOK, Strange, Straight;
    LocalOK(s, w, wk);
    PatchEffect(s, w, wk);
    PatchCases(s, wk, a);
    var e := AddKeyVersion(PatchedSpec(s, wk), Strange(s, wk, wk.pc.found));
    match a
    case Refused(msg) =>
      NoEffectOK(s, w, wk.Fail(msg, Close));
      FailOK(s, w, wk, msg, NoEffect);
    case Lost(msg) =>
      PatchFits(s, w, wk, wk.Fail(msg, Close));
      FailOK(s, w, wk, msg, e);
    case _ =>
      PatchFits(s, w, wk, Succeed(wk));
      PatchSuccess(s, w, wk, e);
      LeaveOK(s, w, wk, Succeed(wk), e);
  }

  lemma PatchFits(s: State, w: nat, wk: Worker, after: Worker)
    requires wk.job.SignJob? && wk.pc.PatchKey? && SameJob(wk.job, after.job)
    requires wk.job.spec.signer in s.keys && s.keys[wk.job.spec.signer] != []
    requires KeyGrows(Last(s.keys[wk.job.spec.signer]), PatchedSpec(s, wk))
    requires SpecOK(s.(outside := s.outside + Strange(s, wk, wk.pc.found)), PatchedSpec(s, wk))
    ensures EffectOK(s, w, after, AddKeyVersion(PatchedSpec(s, wk), Strange(s, wk, wk.pc.found)))
  {
    hide KeyGrows, SpecOK, PatchedSpec, Strange;
  }

  lemma PatchSuccess(s: State, w: nat, wk: Worker, e: Effect)
    requires Local(s, w, wk) && wk.pc.PatchKey? && wk.job.SignJob? && EffectOK(s, w, Succeed(wk), e)
    requires e.AddKeyVersion? && TargetName(wk.job.spec) in e.spec.Entries()
             && e.spec.Entries()[TargetName(wk.job.spec)] == wk.pc.found
    ensures JobOK(ApplyAct(s, w, Succeed(wk), e), Succeed(wk).job)
  {
    hide HistoriesOK, KeysOK, PodOK, InPodOK, ChoiceOK, JobOK, SuccessOK, TargetName, SpecOK, Signed, Straight,
         Astray, TargetStored,
         Holds;
    var t := ApplyAct(s, w, Succeed(wk), e);
    LocalOK(s, w, wk);
    PatchPoint(s, w, wk);
    EffectExtends(s, w, Succeed(wk), e);
    HistoryAt(s, wk.job.Signer());
    AddKeySpec(s.keys[wk.job.Signer()], e.spec);
    PatchStored(t.keys[wk.job.spec.signer], TargetName(wk.job.spec), s.pods[wk.pod.value], wk.pc.found);
    SuccessNow(s, t, w, wk);
    JobAfter(s, w, wk, Succeed(wk), e);
  }

  lemma PatchStored(versions: seq<SignerKeySpec>, name: string, pod: Pod, found: TrustKey)
    requires versions != [] && name in Last(versions).Entries() && Last(versions).Entries()[name] == found
    requires Holds(pod, found, Target) || Astray(pod.opt, pod.trace)
    ensures TargetStored(versions, name, pod)
  {
    hide Holds, Astray;
    assert TargetFrom(pod, versions[|versions| - 1].Entries()[name]);
  }

  lemma HistoryAt(s: State, n: string)
    requires HistoriesOK(s) && n in s.keys
    ensures KeyHistory(s.keys[n])
  {
  }

  lemma CreateKeyOK(s: State, w: nat, wk: Worker, a: Answer)
    requires Local(s, w, wk) && wk.pc.CreateKey? && ActCreateKey(s, wk, wk.pc.found, a).Some?
    ensures var r := ActCreateKey(s, wk, wk.pc.found, a).value; ActOK(s, w, wk, r.0, r.1)
  {
    hide ActOK, HistoriesOK, KeysOK, WorkerOK, InPodOK, ChoiceOK, PodOK, JobOK, OwnKey, GoodKey, Holds, EffectOK, ApplyEffect;
    var r := ActCreateKey(s, wk, wk.pc.found, a).value;
    LocalOK(s, w, wk);
    CreatePoint(s, w, wk);
    OwnSpec(s, w, wk, wk.pc.found, Root);
    NoEffectOK(s, w, r.0);
    NewKeyFits(s, w, r.0, wk.pc.found);
    match a
    case Accepted =>
      NewRootMatches(s, w, r.0, wk.pc.found);
      JobAfter(s, w, wk, r.0, r.1);
      LeaveOK(s, w, wk, r.0, r.1);
    case Lost(msg) => FailOK(s, w, wk, msg, r.1);
    case Refused(msg) => FailOK(s, w, wk, msg, r.1);
  }

  lemma CreatePoint(s: State, w: nat, wk: Worker)
    requires InPodOK(s, w, wk) && wk.pc.CreateKey?
    ensures wk.job.RootJob? && GoodKey(wk.pc.found, Root) && Holds(s.pods[wk.pod.value], wk.pc.found, Root)
  {
    hide GoodKey, Holds, TraceOK, Astray;
  }

  lemma NewKeyFits(s: State, w: nat, wk: Worker, found: TrustKey)
    requires OwnKey(s, found, Root)
    ensures wk.job.Signer() !in s.keys ==> EffectOK(s, w, wk, NewKey(SignerKeySpec(found, None)))
  {
    hide OwnKey;
  }

  lemma NewRootMatches(s: State, w: nat, wk: Worker, found: TrustKey)
    requires wk.job.RootJob? && wk.job.state == Some(MakeSignerState(true, "", "", found.id))
    ensures RootMatches(ApplyAct(s, w, wk, NewKey(SignerKeySpec(found, None))), wk.job.signer, wk.job.state)
  {
  }

  // ---------------------------------------------------------------- leaving

  /** The last two steps change the program counter, the answer to Delete, and nothing else in the run. */
  lemma LastSteps(s: State, w: nat, wk: Worker, after: Worker, e: Effect)
    requires Local(s, w, wk) && (wk.pc.Close? || wk.pc.Respond?)
    requires after == wk.(pc := after.pc, deleted := after.deleted)
    requires if wk.pc.Close? then after.pc.Respond? && after.deleted.Some? else after.pc.Done? && after.deleted == wk.deleted
    requires EffectOK(s, w, after, e) && (e.PutPod? ==> PodOf(e.pod, wk))
    requires DutyOK(ApplyAct(s, w, after, e), after)
    ensures ActOK(s, w, wk, after, e)
  {
    hide HistoriesOK, KeysOK, PodOK, Straight, ChoiceOK, InPodOK, JobOK, Extends, RunsGrow;
    LocalOK(s, w, wk);
    EffectExtends(s, w, after, e);
    EffectRuns(s, w, after, e);
    JobKept(s, ApplyAct(s, w, after, e), wk.job);
    OwnPod(s, w, wk, after, e);
    LastParts(s, ApplyAct(s, w, after, e), w, wk, after, e);
  }

  lemma LastParts(s: State, t: State, w: nat, wk: Worker, after: Worker, e: Effect)
    requires WorkerOK(s, w, wk) && (wk.pc.Close? || wk.pc.Respond?)
    requires after == wk.(pc := after.pc, deleted := after.deleted)
    requires if wk.pc.Close? then after.pc.Respond? && after.deleted.Some? else after.pc.Done? && after.deleted == wk.deleted
    requires EffectOK(s, w, after, e) && t == ApplyAct(s, w, after, e) && JobOK(t, after.job) && DutyOK(t, after)
    requires wk.pod.Some? && wk.pod.value in t.pods ==>
               t.pods[wk.pod.value].owner == w && PodOf(t.pods[wk.pod.value], wk)
    ensures ActOK(s, w, wk, after, e)
  {
    hide JobOK, EffectOK, DutyOK, ChoiceOK, InPodOK, ApplyAct;
  }

  lemma CloseOK(s: State, w: nat, wk: Worker, a: Answer)
    requires Local(s, w, wk) && wk.pc.Close? && ActClose(s, wk, a).Some?
    ensures var r := ActClose(s, wk, a).value; ActOK(s, w, wk, r.0, r.1)
  {
    hide HistoriesOK, KeysOK;
    var r := ActClose(s, wk, a).value;
    LocalOK(s, w, wk);
    CloseEffect(s, w, wk, a);
    LastSteps(s, w, wk, r.0, r.1);
  }

  lemma CloseEffect(s: State, w: nat, wk: Worker, a: Answer)
    requires WorkerOK(s, w, wk) && wk.pc.Close? && ActClose(s, wk, a).Some?
    requires wk.pod.Some? && wk.pod.value in s.pods ==>
               PodOK(s.pods[wk.pod.value]) && s.pods[wk.pod.value].owner == w && Straight(wk.job, s.pods[wk.pod.value])
    ensures var r := ActClose(s, wk, a).value;
            && EffectOK(s, w, r.0, r.1) && (r.1.PutPod? ==> PodOf(r.1.pod, wk))
            && DutyOK(ApplyAct(s, w, r.0, r.1), r.0)
  {
    hide PodOK, Straight, PodGrows;
    if wk.pod.Some? && wk.pod.value in s.pods {
      DeadPodOK(s.pods[wk.pod.value]);
      DeadPodStraight(wk.job, s.pods[wk.pod.value]);
    }
  }

  lemma DeadPodOK(pod: Pod)
    requires PodOK(pod)
    ensures PodOK(pod.(live := false)) && PodGrows(pod, pod.(live := false))
  {
    hide Astray;
  }

  lemma DeadPodStraight(job: Job, pod: Pod)
    requires Straight(job, pod)
    ensures Straight(job, pod.(live := false))
  {
    hide Astray;
  }

  lemma RespondOK(s: State, w: nat, wk: Worker, a: Answer)
    requires Local(s, w, wk) && wk.pc.Respond? && ActRespond(s, wk, a).Some?
    ensures var r := ActRespond(s, wk, a).value; ActOK(s, w, wk, r.0, r.1)
  {
    hide HistoriesOK, KeysOK;
    var r := ActRespond(s, wk, a).value;
    LocalOK(s, w, wk);
    LastSteps(s, w, wk, r.0, r.1);
  }
}
