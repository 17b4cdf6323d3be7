/** What every step of the protocol keeps. */
module ProtocolInvariant {
  import opened Wrappers
  import opened Strings
  import opened ApiTypes
  import opened Naming
  import opened Shell
  import opened CommandOptions
  import opened Commands
  import opened Protocol

  // ---------------------------------------------------------------- histories

  /** A later version of a request: same spec, and a response that is there stays as it is. */
  predicate RequestGrows(a: Request, b: Request) {
    a.spec == b.spec && (a.status.Some? ==> b.status == a.status)
  }

  predicate StateGrows(a: Option<SignerKeyState>, b: Option<SignerKeyState>) { Created(a) ==> b == a }

  /** A later version of a signer's keys: same root, and no target name is lost. */
  predicate KeyGrows(a: SignerKeySpec, b: SignerKeySpec) {
    a.root == b.root && (a.targets.Some? ==> b.targets.Some?) && a.Entries().Keys <= b.Entries().Keys
  }

  ghost predicate RequestHistory(versions: seq<Request>) {
    versions != [] && forall i, j :: 0 <= i <= j < |versions| ==> RequestGrows(versions[i], versions[j])
  }

  ghost predicate StateHistory(versions: seq<Option<SignerKeyState>>) {
    versions != [] && forall i, j :: 0 <= i <= j < |versions| ==> StateGrows(versions[i], versions[j])
  }

  ghost predicate KeyHistory(versions: seq<SignerKeySpec>) {
    versions != [] && forall i, j :: 0 <= i <= j < |versions| ==> KeyGrows(versions[i], versions[j])
  }

  ghost predicate HistoriesOK(s: State) {
    && (forall id :: id in s.requests ==> RequestHistory(s.requests[id].versions))
    && (forall n :: n in s.signers ==> StateHistory(s.signers[n]))
    && (forall n :: n in s.keys ==> KeyHistory(s.keys[n]))
  }

  // ---------------------------------------------------------------- pods and keys

  /** The pod's directory holds what it was started with and otherwise only keys generated in it. */
  ghost predicate PodOK(pod: Pod) {
    var initial := InitialFiles(pod.opt);
    && (forall p :: p in initial ==> p in pod.files && pod.files[p] == initial[p])
    && (forall p :: p in pod.files && p !in initial ==> GeneratedFile(pod.files[p], Environment(pod.opt)))
    && (pod.running ==> Mountable(pod.opt))
    && Believed(pod.opt, pod.trace)
  }

  /** As long as the shell has done what was meant, a command that succeeded was one that docker takes. */
  predicate Believed(opt: CommandOpt, trace: seq<Executed>) {
    forall i :: 0 <= i < |trace| && trace[i].ok && !Astray(opt, trace[..i + 1]) ==> Takes(opt, trace[i].command)
  }

  /** What a request puts into the texts for the shell are plain words. */
  predicate Legible(spec: ImageSignRequestSpec, registry: Option<map<string, string>>) {
    PlainWord(ArchivePath(spec)) && (registry.Some? ==> PlainWord(ImageRef(spec, registry.value)))
  }

  /** With such a request, and keys that are as safe, the pod never goes astray; a root run's pod never does. */
  predicate Straight(job: Job, pod: Pod) {
    match job
    case SignJob(_, _, spec, _) =>
      AllSafe(RestoredKeys(pod.opt)) && Legible(spec, pod.registry) ==> !Astray(pod.opt, pod.trace)
    case RootJob(_, _, _) => !Astray(pod.opt, pod.trace)
  }

  /** The pod's later self: nothing that was there is lost, but it may die. */
  ghost predicate PodGrows(a: Pod, b: Pod) {
    && a.owner == b.owner && a.opt == b.opt && a.registry == b.registry
    && (forall p :: p in a.files ==> p in b.files && b.files[p] == a.files[p])
    && a.trace <= b.trace
    && (a.running ==> b.running) && (b.live ==> a.live)
  }

  /**
   The key came whole from one file generated in the pod, as a terminal prints it, encrypted under the passphrase stored
   with it.
   */
  predicate Holds(pod: Pod, k: TrustKey, r: Role) {
    && KeyPath(k.id) in pod.files && k.key == OnTerminal(pod.files[KeyPath(k.id)].text)
    && pod.files[KeyPath(k.id)].role == Some(r) && pod.files[KeyPath(k.id)].sealed == k.passPhrase
    && RoleEnv(r) in Environment(pod.opt) && Environment(pod.opt)[RoleEnv(r)] == k.passPhrase
  }

  ghost predicate FromPod(pods: map<NamespacedName, Pod>, k: TrustKey, r: Role) {
    exists p :: p in pods && Holds(pods[p], k, r)
  }

  /** A key that the guards of `Start` and the shell let through unchanged. */
  predicate GoodKey(k: TrustKey, r: Role) {
    k.id != "" && SafeName(k.id) && KeyText(k.key, r) && RandomString(k.passPhrase, PassLength)
  }

  ghost predicate OwnKey(s: State, k: TrustKey, r: Role) { GoodKey(k, r) && FromPod(s.pods, k, r) }

  /** A target key of this root: in a pod, its file has another place than the root's. */
  ghost predicate OwnTarget(s: State, root: TrustKey, k: TrustKey) {
    OwnKey(s, k, Target) && KeyPath(k.id) != KeyPath(root.id)
  }

  /** Every stored root was generated by the operator, and so was every target key nobody else wrote. */
  ghost predicate SpecOK(s: State, spec: SignerKeySpec) {
    && OwnKey(s, spec.root, Root)
    && forall t :: t in spec.Entries() ==> spec.Entries()[t] in s.outside || OwnTarget(s, spec.root, spec.Entries()[t])
  }

  ghost predicate KeysOK(s: State) {
    forall n, i :: n in s.keys && 0 <= i < |s.keys[n]| ==> SpecOK(s, s.keys[n][i])
  }

  // ---------------------------------------------------------------- success

  predicate Did(e: Executed, command: Command) { e.command == command && e.ok }

  predicate Loaded(trace: seq<Executed>, spec: ImageSignRequestSpec) { |trace| >= 1 && Did(trace[0], LoadCmd(spec)) }

  /** The images were listed, and this is the first one. */
  predicate Listed(trace: seq<Executed>, spec: ImageSignRequestSpec, imageId: string) {
    && Loaded(trace, spec) && |trace| >= 2 && Did(trace[1], Images)
    && Fields(trace[1].output) != [] && Fields(trace[1].output)[0] == imageId
  }

  predicate TaggedAs(trace: seq<Executed>, spec: ImageSignRequestSpec, annotations: map<string, string>, imageId: string) {
    Listed(trace, spec, imageId) && |trace| >= 3 && Did(trace[2], Tag(imageId, ImageRef(spec, annotations)))
  }

  /**
   The four commands of SignImage, all successful, in order: the image tagged and signed is the first one listed, under
   the name its registry's annotations give it.
   */
  predicate Signed(trace: seq<Executed>, spec: ImageSignRequestSpec, annotations: map<string, string>) {
    && |trace| >= 4 && Fields(trace[1].output) != []
    && TaggedAs(trace, spec, annotations, Fields(trace[1].output)[0])
    && Did(trace[3], TrustSign(ImageRef(spec, annotations)))
  }

  /** The pod ran, signed the image, and was started with this root key and its passphrase. */
  ghost predicate SignedWith(pod: Pod, spec: ImageSignRequestSpec, root: TrustKey) {
    && pod.running && pod.registry.Some? && Signed(pod.trace, spec, pod.registry.value)
    && pod.opt.rootKey == Some(root) && root in RestoredKeys(pod.opt)
    && RoleEnv(Root) in Environment(pod.opt) && Environment(pod.opt)[RoleEnv(Root)] == root.passPhrase
  }

  predicate IsSuccess(response: Option<ImageSignResponse>) { response.Some? && response.value.result.Success? }

  /** This run answered the request with Success, or is about to. */
  predicate Answers(wk: Worker, id: RequestId, spec: ImageSignRequestSpec) {
    wk.job.SignJob? && wk.job.request == id && wk.job.spec == spec && IsSuccess(wk.job.response)
  }

  /** The key the pod signed with: it was given it, or it made it; of a pod gone astray nothing is known. */
  predicate TargetFrom(pod: Pod, k: TrustKey) {
    pod.opt.targetKey == Some(k) || Holds(pod, k, Target) || Astray(pod.opt, pod.trace)
  }

  /** The signer's key has had such a key under this name. */
  ghost predicate TargetStored(versions: seq<SignerKeySpec>, name: string, pod: Pod) {
    exists i :: 0 <= i < |versions| && name in versions[i].Entries() && TargetFrom(pod, versions[i].Entries()[name])
  }

  /** This pod signed the image, for a run that answers the request, with a key that was stored. */
  ghost predicate SignedFor(s: State, p: NamespacedName, id: RequestId, spec: ImageSignRequestSpec, root: TrustKey) {
    && p in s.pods && SignedWith(s.pods[p], spec, root)
    && s.pods[p].owner in s.workers && Answers(s.workers[s.pods[p].owner], id, spec)
    && spec.signer in s.keys && TargetStored(s.keys[spec.signer], TargetName(spec), s.pods[p])
  }

  /** What a Success response promises. */
  ghost predicate SuccessOK(s: State, id: RequestId, spec: ImageSignRequestSpec) {
    && spec.signer in s.keys && s.keys[spec.signer] != []
    && TargetName(spec) in Last(s.keys[spec.signer]).Entries()
    && exists p :: SignedFor(s, p, id, spec, s.keys[spec.signer][0].root)
  }

  ghost predicate ResponsesOK(s: State) {
    forall id, i :: id in s.requests && 0 <= i < |s.requests[id].versions| && IsSuccess(s.requests[id].versions[i].status) ==>
      SuccessOK(s, id, s.requests[id].versions[i].spec)
  }

  /** A signer said to have a key has this one. */
  ghost predicate RootMatches(s: State, n: string, state: Option<SignerKeyState>) {
    Created(state) ==> n in s.keys && s.keys[n] != [] && s.keys[n][0].root.id == state.value.rootKeyID
  }

  ghost predicate StatesOK(s: State) {
    forall n, i :: n in s.signers && 0 <= i < |s.signers[n]| ==> RootMatches(s, n, s.signers[n][i])
  }

  // ---------------------------------------------------------------- runs

  /** The version a run works on was, and stays, one without a response or without a created key. */
  ghost predicate JobOK(s: State, job: Job) {
    match job
    case SignJob(id, v, spec, response) =>
      && id in s.requests && v < |s.requests[id].versions|
      && s.requests[id].versions[v] == Request(spec, None)
      && (IsSuccess(response) ==> SuccessOK(s, id, spec))
    case RootJob(n, v, state) =>
      && n in s.signers && v < |s.signers[n]| && !Created(s.signers[n][v])
      && RootMatches(s, n, state)
  }

  /** Program points with a pod that is not given up. */
  predicate InPod(pc: Pc) {
    pc.WaitPod? || pc.LoadImage? || pc.ListImages? || pc.TagImage? || pc.Sign? || pc.MakeDir? || pc.Generate?
    || pc.ListKeys? || pc.ReadKeys? || pc.PatchKey? || pc.CreateKey?
  }

  predicate PodStarted(pc: Pc) { InPod(pc) && !pc.WaitPod? }

  predicate BeforePod(pc: Pc) { pc.GetSigner? || pc.GetKey? || pc.CheckKey? || pc.NewController? }

  /** No status has been decided on. */
  predicate Unanswered(job: Job) { if job.SignJob? then job.response == None else !Created(job.state) }

  /** What the run chose before it asked for a pod. */
  ghost predicate ChoiceOK(s: State, wk: Worker) {
    match wk.job
    case SignJob(_, _, spec, _) =>
      && wk.key.Some? && spec.signer in s.keys && wk.key.value in s.keys[spec.signer]
      && wk.opt.rootKey == Some(wk.key.value.root) && wk.opt.targetKey.Some?
      && wk.added == (TargetName(spec) !in wk.key.value.Entries())
      && (if wk.added then NewPhrase(wk.opt.targetKey.value)
          else wk.opt.targetKey.value == wk.key.value.Entries()[TargetName(spec)])
    case RootJob(_, _, _) =>
      wk.opt.rootKey.Some? && NewPhrase(wk.opt.rootKey.value) && wk.opt.targetKey == None
  }

  predicate NewPhrase(k: TrustKey) { k.id == "" && k.key == "" && RandomString(k.passPhrase, PassLength) }

  /** How far the pod's trace has come. */
  ghost predicate TraceOK(wk: Worker, trace: seq<Executed>) {
    wk.job.SignJob? ==>
      var spec := wk.job.spec;
      match wk.pc
      case WaitPod(_) => trace == []
      case LoadImage => trace == []
      case ListImages => |trace| == 1 && Loaded(trace, spec)
      case TagImage(id) => |trace| == 2 && Listed(trace, spec, id)
      case Sign =>
        wk.regctl.Some? && |trace| == 3 && Fields(trace[1].output) != []
        && TaggedAs(trace, spec, wk.regctl.value, Fields(trace[1].output)[0])
      case ListKeys => wk.regctl.Some? && Signed(trace, spec, wk.regctl.value)
      case ReadKeys(_) => wk.regctl.Some? && Signed(trace, spec, wk.regctl.value)
      case PatchKey(_) => wk.regctl.Some? && Signed(trace, spec, wk.regctl.value)
      case _ => true
  }

  /** The run and its pod agree on how far things are. */
  ghost predicate PointOK(wk: Worker, pod: Pod) {
    && TraceOK(wk, pod.trace)
    && (PodStarted(wk.pc) ==> pod.running)
    && (wk.pc.PatchKey? ==> wk.job.SignJob? && wk.key.Some? && wk.key.value.targets.Some?)
    && (wk.pc.PatchKey? ==>
          Astray(pod.opt, pod.trace) || (GoodKey(wk.pc.found, Target) && Holds(pod, wk.pc.found, Target)))
    && (wk.pc.TagImage? ==> Astray(pod.opt, pod.trace) || PlainWord(wk.pc.imageId))
    && (wk.pc.CreateKey? ==> wk.job.RootJob? && GoodKey(wk.pc.found, Root) && Holds(pod, wk.pc.found, Root))
    && (wk.job.SignJob? ==> !wk.pc.MakeDir? && !wk.pc.Generate?)
    && (wk.job.SignJob? && (wk.pc.ListKeys? || wk.pc.ReadKeys? || wk.pc.PatchKey?) ==> wk.added)
    && (wk.job.RootJob? ==> !wk.pc.LoadImage? && !wk.pc.ListImages? && !wk.pc.TagImage? && !wk.pc.Sign?)
    && (wk.pc.ReadKeys? ==> Astray(pod.opt, pod.trace) || forall n :: n in wk.pc.names ==> SafeName(n))
  }

  ghost predicate InPodOK(s: State, w: nat, wk: Worker) {
    wk.pod.Some? && wk.pod.value in s.pods && PointOK(wk, s.pods[wk.pod.value])
  }

  /** Made from what this run had chosen. */
  predicate PodOf(pod: Pod, wk: Worker) { pod.opt == wk.opt && pod.registry == wk.regctl }

  ghost predicate WorkerOK(s: State, w: nat, wk: Worker) {
    && JobOK(s, wk.job)
    && (BeforePod(wk.pc) ==> wk.pod == None)
    && (BeforePod(wk.pc) || wk.pc.CreatePod? || InPod(wk.pc) ==> Unanswered(wk.job))
    && (wk.pc.GetSigner? || wk.pc.GetKey? ==> wk.job.SignJob?)
    && (wk.pc.CheckKey? ==> wk.job.RootJob?)
    && (wk.pc.NewController? && wk.job.SignJob? ==>
          wk.key.Some? && wk.job.spec.signer in s.keys && wk.key.value in s.keys[wk.job.spec.signer])
    && (wk.pc.CreatePod? || InPod(wk.pc) ==> ChoiceOK(s, wk))
    && (wk.pc.CreatePod? ==> wk.pod.Some? && wk.pod.value !in s.pods)
    && (wk.pod.Some? && wk.pod.value in s.pods ==> s.pods[wk.pod.value].owner == w && PodOf(s.pods[wk.pod.value], wk))
    && (InPod(wk.pc) ==> InPodOK(s, w, wk))
    && (InPod(wk.pc) || wk.pc.CreatePod? || wk.pc.Close? || BeforePod(wk.pc) ==> wk.deleted == None)
    && (wk.pc.Respond? || wk.pc.Done? ==> wk.pod.Some? ==> wk.deleted.Some?)
  }

  /** The run still has its pod to delete, failed to delete it, or died. */
  predicate Responsible(wk: Worker) { InPod(wk.pc) || wk.pc.Close? || wk.deleted == Some(false) || wk.pc.Crashed? }

  ghost predicate PodsOK(s: State) {
    forall p :: p in s.pods ==>
      && PodOK(s.pods[p])
      && s.pods[p].owner in s.workers && s.workers[s.pods[p].owner].pod == Some(p)
      && (s.pods[p].live ==> Responsible(s.workers[s.pods[p].owner]))
      && Straight(s.workers[s.pods[p].owner].job, s.pods[p])
  }

  ghost predicate NamesOK(s: State) {
    forall x, y :: x in s.workers && y in s.workers && x != y && s.workers[x].pod.Some? ==> s.workers[x].pod != s.workers[y].pod
  }

  ghost predicate WorkersOK(s: State) { forall w :: w in s.workers ==> WorkerOK(s, w, s.workers[w]) }

  ghost predicate Inv(s: State) {
    HistoriesOK(s) && KeysOK(s) && ResponsesOK(s) && StatesOK(s) && PodsOK(s) && NamesOK(s) && WorkersOK(s)
  }

  // ---------------------------------------------------------------- growth of the whole state

  ghost predicate Longer<K, V>(a: map<K, seq<V>>, b: map<K, seq<V>>) {
    forall n :: n in a ==> n in b && a[n] <= b[n]
  }

  ghost predicate RequestsLonger(a: map<RequestId, RequestRecord>, b: map<RequestId, RequestRecord>) {
    forall id :: id in a ==> id in b && a[id].versions <= b[id].versions
  }

  ghost predicate PodsGrow(a: map<NamespacedName, Pod>, b: map<NamespacedName, Pod>) {
    forall p :: p in a ==> p in b && PodGrows(a[p], b[p])
  }

  /** Nothing in the store is ever rewritten: histories are extended, pods are kept. */
  ghost predicate Extends(s: State, t: State) {
    && RequestsLonger(s.requests, t.requests)
    && Longer(s.signers, t.signers)
    && Longer(s.keys, t.keys)
    && PodsGrow(s.pods, t.pods)
    && s.outside <= t.outside
    && s.workers.Keys <= t.workers.Keys
  }

  predicate SameJob(a: Job, b: Job) {
    match a
    case SignJob(id, v, spec, _) => b.SignJob? && b.request == id && b.version == v && b.spec == spec
    case RootJob(n, v, _) => b.RootJob? && b.signer == n && b.version == v
  }

  /** A run keeps to its job, and never takes a Success back. */
  predicate JobGrows(a: Job, b: Job) { SameJob(a, b) && (a.SignJob? && IsSuccess(a.response) ==> b == a) }

  ghost predicate RunsGrow(s: State, t: State) {
    forall w :: w in s.workers ==> w in t.workers && JobGrows(s.workers[w].job, t.workers[w].job)
  }

  lemma RunsGrowTransitive(s: State, t: State, u: State)
    requires RunsGrow(s, t) && RunsGrow(t, u)
    ensures RunsGrow(s, u)
  {
  }

  lemma PodGrowsTransitive(a: Pod, b: Pod, c: Pod)
    requires PodGrows(a, b) && PodGrows(b, c)
    ensures PodGrows(a, c)
  {
  }

  lemma LongerTransitive<K, V>(a: map<K, seq<V>>, b: map<K, seq<V>>, c: map<K, seq<V>>)
    requires Longer(a, b) && Longer(b, c)
    ensures Longer(a, c)
  {
  }

  lemma ExtendsTransitive(s: State, t: State, u: State)
    requires Extends(s, t) && Extends(t, u)
    ensures Extends(s, u)
  {
    LongerTransitive(s.signers, t.signers, u.signers);
    LongerTransitive(s.keys, t.keys, u.keys);
    forall p | p in s.pods ensures p in u.pods && PodGrows(s.pods[p], u.pods[p]) {
      PodGrowsTransitive(s.pods[p], t.pods[p], u.pods[p]);
    }
  }

  // ---------------------------------------------------------------- facts that outlive every extension

  lemma FromPodKept(s: State, t: State, k: TrustKey, r: Role)
    requires Extends(s, t) && FromPod(s.pods, k, r)
    ensures FromPod(t.pods, k, r)
  {
    var p :| p in s.pods && Holds(s.pods[p], k, r);
    assert PodGrows(s.pods[p], t.pods[p]);
    assert Holds(t.pods[p], k, r);
  }

  lemma SpecKept(s: State, t: State, spec: SignerKeySpec)
    requires Extends(s, t) && SpecOK(s, spec)
    ensures SpecOK(t, spec)
  {
    FromPodKept(s, t, spec.root, Root);
    forall n | n in spec.Entries() ensures spec.Entries()[n] in t.outside || OwnTarget(t, spec.root, spec.Entries()[n]) {
      if spec.Entries()[n] !in s.outside {
        FromPodKept(s, t, spec.Entries()[n], Target);
      }
    }
  }

  lemma SignedKept(a: Pod, b: Pod, spec: ImageSignRequestSpec, root: TrustKey)
    requires PodGrows(a, b) && SignedWith(a, spec, root)
    ensures SignedWith(b, spec, root)
  {
    TracesGrow(a.trace, b.trace, spec, a.registry.value);
  }

  lemma TracesGrow(a: seq<Executed>, b: seq<Executed>, spec: ImageSignRequestSpec, annotations: map<string, string>)
    requires a <= b && Signed(a, spec, annotations)
    ensures Signed(b, spec, annotations)
  {
    hide LoadCmd, ImageRef, Fields;
    assert b[0] == a[0] && b[1] == a[1] && b[2] == a[2] && b[3] == a[3];
  }

  /** A pod that has gone astray stays so. */
  lemma AstrayStays(opt: CommandOpt, a: seq<Executed>, b: seq<Executed>)
    requires a <= b && Astray(opt, a)
    ensures Astray(opt, b)
  {
    hide AllSafe, RestoredKeys, ReadAsMeant;
    if AllSafe(RestoredKeys(opt)) {
      var i :| 0 <= i < |a| && !ReadAsMeant(a[i].command);
      assert b[i] == a[i];
    }
  }

  lemma TargetFromKept(a: Pod, b: Pod, k: TrustKey)
    requires PodGrows(a, b) && TargetFrom(a, k)
    ensures TargetFrom(b, k)
  {
    hide Astray, KeyPath, OnTerminal;
    if Astray(a.opt, a.trace) {
      AstrayStays(a.opt, a.trace, b.trace);
    }
  }

  lemma SignedForKept(s: State, t: State, p: NamespacedName, id: RequestId, spec: ImageSignRequestSpec, root: TrustKey)
    requires Extends(s, t) && RunsGrow(s, t) && SignedFor(s, p, id, spec, root)
    ensures SignedFor(t, p, id, spec, root)
  {
    hide SignedWith, TargetFrom, TargetName;
    SignedKept(s.pods[p], t.pods[p], spec, root);
    var versions, name := s.keys[spec.signer], TargetName(spec);
    var i :| 0 <= i < |versions| && name in versions[i].Entries() && TargetFrom(s.pods[p], versions[i].Entries()[name]);
    TargetFromKept(s.pods[p], t.pods[p], versions[i].Entries()[name]);
    assert t.keys[spec.signer][i] == versions[i];
  }

  lemma SuccessKept(s: State, t: State, id: RequestId, spec: ImageSignRequestSpec)
    requires Extends(s, t) && RunsGrow(s, t) && HistoriesOK(t) && SuccessOK(s, id, spec)
    ensures SuccessOK(t, id, spec)
  {
    hide SignedFor, TargetName;
    var p :| SignedFor(s, p, id, spec, s.keys[spec.signer][0].root);
    SignedForKept(s, t, p, id, spec, s.keys[spec.signer][0].root);
    LastGrows(s.keys[spec.signer], t.keys[spec.signer]);
  }

  lemma LastGrows(a: seq<SignerKeySpec>, b: seq<SignerKeySpec>)
    requires a != [] && a <= b && KeyHistory(b)
    ensures a[0] == b[0] && KeyGrows(Last(a), Last(b))
  {
    assert Last(a) == b[|a| - 1];
  }

  lemma RootMatchesKept(s: State, t: State, n: string, state: Option<SignerKeyState>)
    requires Extends(s, t) && RootMatches(s, n, state)
    ensures RootMatches(t, n, state)
  {
    if Created(state) {
      assert s.keys[n] <= t.keys[n];
      assert t.keys[n][0] == s.keys[n][0];
    }
  }

  lemma JobKept(s: State, t: State, job: Job)
    requires Extends(s, t) && HistoriesOK(t) && JobOK(s, job)
    requires job.SignJob? && IsSuccess(job.response) ==> RunsGrow(s, t)
    ensures JobOK(t, job)
  {
    match job
    case SignJob(id, v, spec, response) =>
      assert s.requests[id].versions <= t.requests[id].versions;
      if IsSuccess(response) {
        SuccessKept(s, t, id, spec);
      }
    case RootJob(n, v, state) =>
      assert s.signers[n] <= t.signers[n];
      RootMatchesKept(s, t, n, state);
  }

  lemma KeyReadKept(s: State, t: State, n: string, key: SignerKeySpec)
    requires Extends(s, t) && n in s.keys && key in s.keys[n]
    ensures n in t.keys && key in t.keys[n]
  {
    var i :| 0 <= i < |s.keys[n]| && s.keys[n][i] == key;
    assert t.keys[n][i] == key;
  }

  /** What a run's own pod may undergo at other hands: it may start running, and it may die. */
  ghost predicate PodUntouched(a: Pod, b: Pod) {
    PodGrows(a, b) && a.files == b.files && a.trace == b.trace && (b.running ==> a.running || Mountable(b.opt))
  }

  /** Other runs' steps and outside events keep a run's part of the invariant. */
  lemma WorkerKept(s: State, t: State, w: nat, wk: Worker)
    requires Extends(s, t) && RunsGrow(s, t) && HistoriesOK(t) && WorkerOK(s, w, wk)
    requires wk.pod.Some? && wk.pod.value in t.pods ==>
               wk.pod.value in s.pods && PodUntouched(s.pods[wk.pod.value], t.pods[wk.pod.value])
    ensures WorkerOK(t, w, wk)
  {
    JobKept(s, t, wk.job);
    if wk.job.SignJob? && wk.key.Some? && wk.job.spec.signer in s.keys && wk.key.value in s.keys[wk.job.spec.signer] {
      KeyReadKept(s, t, wk.job.spec.signer, wk.key.value);
    }
    if wk.pod.Some? && wk.pod.value in s.pods {
      assert PodGrows(s.pods[wk.pod.value], t.pods[wk.pod.value]);
    }
    if InPod(wk.pc) {
      InPodKept(s, t, w, wk);
    }
  }

  lemma InPodKept(s: State, t: State, w: nat, wk: Worker)
    requires InPodOK(s, w, wk)
    requires wk.pod.value in t.pods && PodUntouched(s.pods[wk.pod.value], t.pods[wk.pod.value])
    ensures InPodOK(t, w, wk)
  {
  }
}
