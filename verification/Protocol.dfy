/**
 The signing protocol as a step machine: a versioned API store, signing pods, and any number of in-flight
 `Reconcile` runs, interleaved one API call or pod command at a time.
 */
module Protocol {
  import opened Wrappers
  import opened Strings
  import opened Paths
  import opened ApiTypes
  import opened Identifiers
  import opened Naming
  import opened Shell
  import opened CommandOptions
  import opened Commands
  import DindPod
  import SignerKeyJson

  // ---------------------------------------------------------------- the store

  datatype Request = Request(spec: ImageSignRequestSpec, status: Option<ImageSignResponse>)

  /** A request object; re-creating a deleted request under the same name gives a new uid. */
  datatype RequestId = RequestId(key: NamespacedName, uid: nat)

  datatype RequestRecord = RequestRecord(versions: seq<Request>, live: bool)

  /** `role` and `sealed` of a key generated in the pod: its role and the passphrase it is encrypted under. */
  datatype KeyFile = KeyFile(text: string, role: Option<Role>, sealed: string)

  /** `output` is what the command printed, or its error. */
  datatype Executed = Executed(command: Command, ok: bool, output: string)

  /**
   A pod that was created, kept after its deletion. `registry` is what its run had found out about the registry,
   `files` is the private key directory, by path, for as long as the shell reads every text as it is meant.
   */
  datatype Pod = Pod(
    owner: nat,
    opt: CommandOpt,
    registry: Option<map<string, string>>,
    files: map<string, KeyFile>,
    trace: seq<Executed>,
    running: bool,
    live: bool)

  /**
   Every object is the sequence of its versions; the resource version is the index of the last one.
   `outside` collects the target keys that the operator did not take as it was meant to: those written by anybody else,
   and those read in a pod that had gone astray. `foreign` are the pods others have created.
   */
  datatype State = State(
    requests: map<RequestId, RequestRecord>,
    signers: map<string, seq<Option<SignerKeyState>>>,
    keys: map<string, seq<SignerKeySpec>>,
    pods: map<NamespacedName, Pod>,
    workers: map<nat, Worker>,
    outside: set<TrustKey>,
    foreign: set<NamespacedName>)

  const Empty := State(map[], map[], map[], map[], map[], {}, {})

  function Last<T>(versions: seq<T>): T
    requires versions != []
  {
    versions[|versions| - 1]
  }

  /** An update that changes nothing makes no new version. */
  function AddVersion<T(==)>(versions: seq<T>, v: T): seq<T> {
    if versions != [] && Last(versions) == v then versions else versions + [v]
  }

  // ---------------------------------------------------------------- a run of Reconcile

  /** What a run works on, and the status it has in hand for its deferred status update. */
  datatype Job =
    | SignJob(request: RequestId, version: nat, spec: ImageSignRequestSpec, response: Option<ImageSignResponse>)
    | RootJob(signer: string, version: nat, state: Option<SignerKeyState>)
  {
    function Signer(): string { if SignJob? then spec.signer else signer }

    function Role(): Role { if SignJob? then Target else Root }

    /** NewKubeCommander falls back to the operator's own namespace. */
    function Namespace(): string { if SignJob? && request.key.namespace != "" then request.key.namespace else OperatorNamespace }
  }

  /** main.go overwrites OPERATOR_NAMESPACE with this value. */
  const OperatorNamespace := "reg-test"

  /** The next API call or pod command of a run. */
  datatype Pc =
    | GetSigner | GetKey | CheckKey | NewController
    | CreatePod | WaitPod(tries: nat)
    | LoadImage | ListImages | TagImage(imageId: string) | Sign
    | MakeDir | Generate
    | ListKeys | ReadKeys(names: seq<string>)
    | PatchKey(found: TrustKey) | CreateKey(found: TrustKey)
    | Close | Respond | Done | Crashed

  datatype Worker = Worker(
    job: Job,
    pc: Pc,
    key: Option<SignerKeySpec>,
    added: bool,
    opt: CommandOpt,
    regctl: Option<map<string, string>>,
    pod: Option<NamespacedName>,
    deleted: Option<bool>,
    taken: bool,
    panicked: bool)
  {
    /** Go to the exit: the deferred calls are Close, if a pod was asked for, and then the status update. */
    function Fail(reason: string, next: Pc): Worker {
      if job.SignJob? then this.(job := job.(response := Some(MakeResponse(false, reason, ""))), pc := next)
      else this.(job := job.(state := Some(MakeSignerState(false, reason, "", ""))), pc := next)
    }

    function Panic(): Worker { this.(panicked := true, pc := Close) }
  }

  const NoOptions := CommandOpt(None, None, "", "", "")

  const MaxRetryCount := 60

  /** What the environment answers to the pending call of a run. */
  datatype Answer =
    | Missing(msg: string)                      // a Get failed, or its cache has not seen the object
    | Found(version: nat)                       // a Get returned this version, maybe an old one
    | Chosen(pass: string, suffix: string, registry: Option<map<string, string>>)
    | Accepted                                  // a write was applied
    | Lost(msg: string)                         // a write was applied but reported as failed
    | Refused(msg: string)                      // a write was not applied
    | Exists                                    // creating the pod: the name is taken
    | Phase(running: bool)
    | Ran(ok: bool, text: string, generated: map<string, KeyFile>)

  /** What a call of a run does to the rest of the state. */
  datatype Effect =
    | NoEffect
    | SetResponse
    | SetState
    | AddKeyVersion(spec: SignerKeySpec, strange: set<TrustKey>)
    | NewKey(spec: SignerKeySpec)
    | PutPod(pod: Pod)
    | DeleteForeign

  // ---------------------------------------------------------------- commands

  function ImageName(spec: ImageSignRequestSpec): string { ParseImage(spec.image).0 }

  function ImageRef(spec: ImageSignRequestSpec, annotations: map<string, string>): string {
    PathJoin([GetEndpoint(annotations), ImageName(spec)]) + ":" + ParseImage(spec.image).1
  }

  function ArchivePath(spec: ImageSignRequestSpec): string { PathJoin([DindPod.ImageMountPath, ImageName(spec) + ".tar"]) }

  function LoadCmd(spec: ImageSignRequestSpec): Command { Load(ArchivePath(spec)) }

  // ---------------------------------------------------------------- pods

  function OtherRole(r: Role): Role { if r.Root? then Target else Root }

  /** The text of a generated key: it carries its own role line only, and nothing the shell would expand. */
  predicate KeyText(text: string, r: Role) {
    Contains(text, RoleLine(r)) && !Contains(text, RoleLine(OtherRole(r))) && Quotable(text)
  }

  /** A key file docker generated in a pod with this environment: encrypted under its role's variable. */
  predicate GeneratedFile(f: KeyFile, env: map<string, string>) {
    && f.role.Some?
    && KeyText(f.text, f.role.value)
    && RoleEnv(f.role.value) in env && f.sealed == env[RoleEnv(f.role.value)]
  }

  function InitialFiles(opt: CommandOpt): map<string, KeyFile> {
    var files := KeyFiles(RestoredKeys(opt));
    map p | p in files :: KeyFile(files[p], None, "")
  }

  function NewPod(w: nat, wk: Worker): Pod { Pod(w, wk.opt, wk.regctl, InitialFiles(wk.opt), [], false, true) }

  /** The API takes a pod only under a proper name. */
  predicate PodNamed(p: NamespacedName) { ObjectName(p.name) && NamespaceName(p.namespace) }

  /** A pod whose volumes do not exist never runs, and only what has a proper name exists. */
  predicate Mountable(opt: CommandOpt) {
    && (opt.imagePvc == "" || ObjectName(opt.imagePvc))
    && (opt.registryLoginSecret == "" || ObjectName(opt.registryLoginSecret))
    && (opt.registryLoginCertSecret == "" || ObjectName(opt.registryLoginCertSecret))
  }

  /**
   A file that a volume may hold: below the place where one is mounted, and a secret's holds nothing but its keys. Nothing
   else brings archives into the pod.
   */
  predicate Held(path: string, pvc: string, dcj: string, cert: string) {
    FilePath(path) && exists m :: m in DindPod.VolumeMounts(pvc, dcj, cert) && HeldBy(m, path)
  }

  predicate HeldBy(m: DindPod.VolumeMount, path: string) {
    m.mountPath + "/" < path && (m.name == DindPod.ImagePvc || SecretFile(path[|m.mountPath| + 1..]))
  }

  /** What docker may do at all: it loads files that are there, tags with references, signs references that have a tag. */
  predicate Takes(opt: CommandOpt, command: Command) {
    match command
    case Load(path) => Held(path, opt.imagePvc, opt.registryLoginSecret, opt.registryLoginCertSecret)
    case Tag(_, image) => RepositoryName(image) || TaggedReference(image)
    case TrustSign(image) => TaggedReference(image)
    case _ => true
  }

  /** What a command that succeeds prints; the exec stream is that of a terminal. */
  predicate Prints(pod: Pod, command: Command, text: string) {
    match command
    case Images => forall id :: id in Fields(text) ==> PlainWord(id)
    case Ls => forall n :: n in Fields(text) ==> SafeName(n)
    case Cat(name) => KeyPath(name) in pod.files && text == OnTerminal(pod.files[KeyPath(name)].text)
    case _ => true
  }

  /** New keys appear under new names. */
  predicate MayGenerate(pod: Pod, generated: map<string, KeyFile>) {
    && generated.Keys !! pod.files.Keys
    && forall p :: p in generated ==> GeneratedFile(generated[p], Environment(pod.opt))
  }

  /** What can come of a text that is read as the command meant. */
  predicate Plausible(pod: Pod, command: Command, a: Answer)
    requires a.Ran?
  {
    && MayGenerate(pod, a.generated) && (a.generated == map[] || command.TrustSign? || command.GenerateKey?)
    && (a.ok ==> Takes(pod.opt, command) && Prints(pod, command, a.text))
  }

  /**
   A pod has gone astray if the shell did something else than was meant: in its post-start script, or with a text
   handed to it. From then on anything may be in it, and it may answer anything.
   */
  predicate Astray(opt: CommandOpt, trace: seq<Executed>) {
    !AllSafe(RestoredKeys(opt)) || exists i :: 0 <= i < |trace| && !ReadAsMeant(trace[i].command)
  }

  /** The pod after a command. */
  function AfterRun(pod: Pod, command: Command, a: Answer): Pod
    requires a.Ran?
  {
    var trace := pod.trace + [Executed(command, a.ok, a.text)];
    pod.(trace := trace, files := if Astray(pod.opt, trace) then pod.files else pod.files + a.generated)
  }

  /** A command in the run's pod. It succeeds only in a live, running pod. */
  function Exec(s: State, wk: Worker, command: Command, a: Answer): Option<Effect>
    requires a.Ran?
  {
    if wk.pod.None? || wk.pod.value !in s.pods then None
    else
      var pod := s.pods[wk.pod.value];
      if pod.live && pod.running then
        var after := AfterRun(pod, command, a);
        if Astray(pod.opt, after.trace) || Plausible(pod, command, a) then Some(PutPod(after)) else None
      else if a.ok || a.generated != map[] then None else Some(NoEffect)
  }

  // ---------------------------------------------------------------- the calls of a run, one by one

  function ActGetSigner(s: State, wk: Worker, a: Answer): Option<(Worker, Effect)> {
    match a
    case Missing(msg) => Some((wk.Fail(msg, Respond), NoEffect))
    case Found(v) =>
      if wk.job.Signer() in s.signers && v < |s.signers[wk.job.Signer()]| then Some((wk.(pc := GetKey), NoEffect)) else None
    case _ => None
  }

  function ActGetKey(s: State, wk: Worker, a: Answer): Option<(Worker, Effect)> {
    match a
    case Missing(msg) => Some((wk.Fail(msg, Respond), NoEffect))
    case Found(v) =>
      if wk.job.Signer() in s.keys && v < |s.keys[wk.job.Signer()]|
      then Some((wk.(key := Some(s.keys[wk.job.Signer()][v]), pc := NewController), NoEffect))
      else None
    case _ => None
  }

  /** The signer reconciler ignores every error of this lookup and goes by the name it finds. */
  function ActCheckKey(s: State, wk: Worker, a: Answer): Option<(Worker, Effect)> {
    match a
    case Missing(_) => Some((wk.(pc := NewController), NoEffect))
    case Found(v) =>
      if wk.job.Signer() in s.keys && v < |s.keys[wk.job.Signer()]| then Some((wk.(pc := Respond), NoEffect)) else None
    case _ => None
  }

  function PodName(job: Job, suffix: string): NamespacedName {
    NamespacedName(job.Namespace(), "image-signing-by-" + job.Signer() + "-" + suffix)
  }

  /** Random pod names do not repeat. */
  predicate FreshName(s: State, p: NamespacedName) {
    p !in s.pods && forall w :: w in s.workers ==> s.workers[w].pod != Some(p)
  }

  /** Choosing keys and passphrases, and making the controller. */
  function Choose(wk: Worker, pass: string, suffix: string, registry: Option<map<string, string>>): Worker {
    var next := wk.(pod := Some(PodName(wk.job, suffix)), pc := CreatePod);
    if wk.job.RootJob? then next.(opt := NoOptions.(rootKey := Some(TrustKey("", "", pass))))
    else if wk.key.None? then next
    else
      var spec, name := wk.job.spec, TargetName(wk.job.spec);
      var added := name !in wk.key.value.Entries();
      var target := if added then TrustKey("", "", pass) else wk.key.value.Entries()[name];
      var login := spec.registryLogin;
      next.(
        added := added,
        opt := CommandOpt(Some(wk.key.value.root), Some(target), login.dcjSecretName, login.certSecretName, spec.pvcName),
        regctl := NewRegCtl(login.name, login.namespace, registry))
  }

  /** A registry that was found has a proper name. */
  predicate RegistryKnown(job: Job, registry: Option<map<string, string>>) {
    job.SignJob? && registry.Some? ==>
      ObjectName(job.spec.registryLogin.name) && NamespaceName(job.spec.registryLogin.namespace)
  }

  function ActNewController(s: State, wk: Worker, a: Answer): Option<(Worker, Effect)> {
    if !a.Chosen? || !RandomString(a.pass, PassLength) || !RandomString(a.suffix, 10) || !FreshName(s, PodName(wk.job, a.suffix))
       || (wk.job.SignJob? && wk.key.None?) || !RegistryKnown(wk.job, a.registry)
    then None
    else Some((Choose(wk, a.pass, a.suffix, a.registry), NoEffect))
  }

  /** Start returns nil without a running pod. */
  function NameTaken(wk: Worker): Worker {
    if wk.job.SignJob? then wk.(taken := true, pc := Close) else wk.(taken := true).Fail("dind pod is not running", Close)
  }

  function ActCreatePod(s: State, w: nat, wk: Worker, a: Answer): Option<(Worker, Effect)> {
    var free := wk.pod.Some? && wk.pod.value !in s.pods && wk.pod.value !in s.foreign && PodNamed(wk.pod.value);
    match a
    case Accepted => if free then Some((wk.(pc := WaitPod(0)), PutPod(NewPod(w, wk)))) else None
    case Lost(msg) => if free then Some((wk.Fail(msg, Close), PutPod(NewPod(w, wk)))) else None
    case Refused(msg) => Some((wk.Fail(msg, Close), NoEffect))
    case Exists =>
      if wk.pod.None? || wk.pod.value !in s.foreign then None else Some((NameTaken(wk), NoEffect))
    case _ => None
  }

  function ActWaitPod(s: State, wk: Worker, tries: nat, a: Answer): Option<(Worker, Effect)> {
    match a
    case Missing(msg) => Some((wk.Fail(msg, Close), NoEffect))
    case Phase(running) =>
      if wk.pod.None? || wk.pod.value !in s.pods || (running && !s.pods[wk.pod.value].running) then None
      else if running then Some((wk.(pc := if wk.job.SignJob? then LoadImage else MakeDir), NoEffect))
      else if tries + 1 < MaxRetryCount then Some((wk.(pc := WaitPod(tries + 1)), NoEffect))
      else Some((wk.Fail("pod is not running", Close), NoEffect))
    case _ => None
  }

  /** GetEndpoint on a nil RegCtl panics; there is no test for it before. */
  function AfterImages(wk: Worker, ids: seq<string>): Worker {
    if ids == [] then wk.Fail("image is not found", Close)
    else if wk.regctl.None? then wk.Panic()
    else wk.(pc := TagImage(ids[0]))
  }

  function Succeed(wk: Worker): Worker {
    if wk.job.SignJob? then wk.(job := wk.job.(response := Some(MakeResponse(true, "", ""))), pc := Close) else wk
  }

  function AfterSign(wk: Worker): Worker { if wk.added then wk.(pc := ListKeys) else Succeed(wk) }

  /** The loop of readTrustKey over the listed names. */
  function Scan(wk: Worker, names: seq<string>): Worker {
    if names == [] then wk.Fail("key file not found", Close) else wk.(pc := ReadKeys(names))
  }

  function PassOf(wk: Worker): string {
    var k := wk.opt.Key(wk.job.Role());
    if k.Some? then k.value.passPhrase else ""
  }

  /** With the key read, AddTargetKey writes into the copied map, which panics if it is nil. */
  function AfterFound(wk: Worker, found: TrustKey): Worker {
    if wk.job.RootJob? then wk.(pc := CreateKey(found))
    else if wk.key.None? || wk.key.value.targets.None? then wk.Panic()
    else wk.(pc := PatchKey(found))
  }

  /** Where a read key file leads. */
  function AfterRead(wk: Worker, names: seq<string>, text: string): Worker
    requires names != []
  {
    if Contains(text, RoleLine(wk.job.Role())) then AfterFound(wk, TrustKey(names[0], text, PassOf(wk))) else Scan(wk, names[1..])
  }

  /** The command a run is about to execute. */
  function NextCommand(wk: Worker): Option<Command> {
    match wk.pc
    case LoadImage => if wk.job.SignJob? then Some(LoadCmd(wk.job.spec)) else None
    case ListImages => Some(Images)
    case TagImage(id) =>
      if wk.job.SignJob? && wk.regctl.Some? then Some(Tag(id, ImageRef(wk.job.spec, wk.regctl.value))) else None
    case Sign => if wk.job.SignJob? && wk.regctl.Some? then Some(TrustSign(ImageRef(wk.job.spec, wk.regctl.value))) else None
    case MakeDir => Some(MkdirBase)
    case Generate => Some(GenerateKey(Root))
    case ListKeys => Some(Ls)
    case ReadKeys(names) => if names != [] then Some(Cat(names[0])) else None
    case _ => None
  }

  /** Where a run is after its command. */
  function AfterCommand(wk: Worker, ok: bool, text: string): Worker
    requires NextCommand(wk).Some?
  {
    if !ok then wk.Fail(text, Close)
    else match wk.pc
      case LoadImage => wk.(pc := ListImages)
      case ListImages => AfterImages(wk, Fields(text))
      case TagImage(_) => wk.(pc := Sign)
      case Sign => AfterSign(wk)
      case MakeDir => wk.(pc := Generate)
      case Generate => wk.(pc := ListKeys)
      case ListKeys => Scan(wk, Fields(text))
      case ReadKeys(names) => AfterRead(wk, names, text)
      case _ => wk
  }

  function ActCommand(s: State, wk: Worker, a: Answer): Option<(Worker, Effect)> {
    if !a.Ran? || NextCommand(wk).None? then None
    else
      var e := Exec(s, wk, NextCommand(wk).value, a);
      if e.None? then None else Some((AfterCommand(wk, a.ok, a.text), e.value))
  }

  /** Keys read in a pod that had gone astray are as strange as those that somebody else writes. */
  function Strange(s: State, wk: Worker, found: TrustKey): set<TrustKey> {
    if wk.pod.Some? && wk.pod.value in s.pods && Astray(s.pods[wk.pod.value].opt, s.pods[wk.pod.value].trace) then {found} else {}
  }

  function ActPatchKey(s: State, wk: Worker, found: TrustKey, a: Answer): Option<(Worker, Effect)> {
    if a.Refused? then Some((wk.Fail(a.msg, Close), NoEffect))
    else if wk.job.RootJob? || wk.key.None? || wk.job.Signer() !in s.keys || s.keys[wk.job.Signer()] == [] then None
    else
      var patched := SignerKeyJson.Patched(wk.key.value, TargetName(wk.job.spec), found, Last(s.keys[wk.job.Signer()]));
      if patched.None? then None
      else match a
        case Accepted => Some((Succeed(wk), AddKeyVersion(patched.value, Strange(s, wk, found))))
        case Lost(msg) => Some((wk.Fail(msg, Close), AddKeyVersion(patched.value, Strange(s, wk, found))))
        case _ => None
  }

  function ActCreateKey(s: State, wk: Worker, found: TrustKey, a: Answer): Option<(Worker, Effect)> {
    if wk.job.SignJob? then None
    else
      var spec, free := SignerKeySpec(found, None), wk.job.signer !in s.keys;
      match a
      case Accepted =>
        if free
        then Some((wk.(job := wk.job.(state := Some(MakeSignerState(true, "", "", found.id))), pc := Close), NewKey(spec)))
        else None
      case Lost(msg) => if free then Some((wk.Fail(msg, Close), NewKey(spec))) else None
      case Refused(msg) => Some((wk.Fail(msg, Close), NoEffect))
      case _ => None
  }

  /** Delete goes by name: it takes the run's own pod, or whoever's pod has the name. */
  function ActClose(s: State, wk: Worker, a: Answer): Option<(Worker, Effect)> {
    var gone :=
      if wk.pod.None? then NoEffect
      else if wk.pod.value in s.pods then PutPod(s.pods[wk.pod.value].(live := false))
      else if wk.pod.value in s.foreign then DeleteForeign
      else NoEffect;
    match a
    case Accepted => Some((wk.(deleted := Some(true), pc := Respond), gone))
    case Lost(_) => Some((wk.(deleted := Some(true), pc := Respond), gone))
    case Refused(_) => Some((wk.(deleted := Some(false), pc := Respond), NoEffect))
    case _ => None
  }

  /** Status().Update is a compare-and-swap on the version the run started from; its error is dropped. */
  predicate Current(s: State, job: Job) {
    if job.SignJob? then
      job.request in s.requests && s.requests[job.request].live && job.version + 1 == |s.requests[job.request].versions|
    else
      job.signer in s.signers && job.version + 1 == |s.signers[job.signer]|
  }

  function ActRespond(s: State, wk: Worker, a: Answer): Option<(Worker, Effect)> {
    match a
    case Accepted =>
      if Current(s, wk.job) then Some((wk.(pc := Done), if wk.job.SignJob? then SetResponse else SetState)) else None
    case Lost(_) =>
      if Current(s, wk.job) then Some((wk.(pc := Done), if wk.job.SignJob? then SetResponse else SetState)) else None
    case Refused(_) => Some((wk.(pc := Done), NoEffect))
    case _ => None
  }

  function Act(s: State, w: nat, wk: Worker, a: Answer): Option<(Worker, Effect)> {
    match wk.pc
    case GetSigner => ActGetSigner(s, wk, a)
    case GetKey => ActGetKey(s, wk, a)
    case CheckKey => ActCheckKey(s, wk, a)
    case NewController => ActNewController(s, wk, a)
    case CreatePod => ActCreatePod(s, w, wk, a)
    case WaitPod(tries) => ActWaitPod(s, wk, tries, a)
    case PatchKey(found) => ActPatchKey(s, wk, found, a)
    case CreateKey(found) => ActCreateKey(s, wk, found, a)
    case Close => ActClose(s, wk, a)
    case Respond => ActRespond(s, wk, a)
    case _ => ActCommand(s, wk, a)
  }

  // ---------------------------------------------------------------- events

  datatype Event =
    | StartSign(w: nat, request: RequestId, version: nat)     // Reconcile reads this version of the request
    | StartRoot(w: nat, signer: string, version: nat)
    | Do(w: nat, answer: Answer)                              // the run's pending call is answered
    | Crash(w: nat)                                           // the process dies: no deferred calls
    | CreateSigner(signer: string)                            // from here on: the outside world
    | TouchSigner(signer: string)
    | CreateRequest(request: RequestId, spec: ImageSignRequestSpec)
    | TouchRequest(request: RequestId)
    | DeleteRequest(request: RequestId)
    | TouchKey(signer: string)
    | WriteTargets(signer: string, targets: map<string, TrustKey>)
    | ForeignPod(pod: NamespacedName)
    | PodRuns(pod: NamespacedName)
    | PodLost(pod: NamespacedName)

  function ApplyEffect(s: State, wk: Worker, e: Effect): State {
    match e
    case NoEffect => s
    case SetResponse =>
      if wk.job.RootJob? || wk.job.request !in s.requests || s.requests[wk.job.request].versions == [] then s
      else
        var r := s.requests[wk.job.request];
        s.(requests := s.requests[wk.job.request :=
          r.(versions := AddVersion(r.versions, Last(r.versions).(status := wk.job.response)))])
    case SetState =>
      if wk.job.SignJob? || wk.job.signer !in s.signers then s
      else s.(signers := s.signers[wk.job.signer := AddVersion(s.signers[wk.job.signer], wk.job.state)])
    case AddKeyVersion(spec, strange) =>
      if wk.job.Signer() !in s.keys then s
      else s.(keys := s.keys[wk.job.Signer() := AddVersion(s.keys[wk.job.Signer()], spec)], outside := s.outside + strange)
    case NewKey(spec) => s.(keys := s.keys[wk.job.Signer() := [spec]])
    case PutPod(pod) => if wk.pod.None? then s else s.(pods := s.pods[wk.pod.value := pod])
    case DeleteForeign => if wk.pod.None? then s else s.(foreign := s.foreign - {wk.pod.value})
  }

  function ApplyAct(s: State, w: nat, wk: Worker, e: Effect): State {
    ApplyEffect(s.(workers := s.workers[w := wk]), wk, e)
  }

  function SignWorker(request: RequestId, version: nat, r: Request): Worker {
    Worker(SignJob(request, version, r.spec, None), GetSigner, None, false, NoOptions, None, None, None, false, false)
  }

  function RootWorker(signer: string, version: nat, state: Option<SignerKeyState>): Worker {
    Worker(RootJob(signer, version, state), CheckKey, None, false, NoOptions, None, None, None, false, false)
  }

  predicate Created(state: Option<SignerKeyState>) { state.Some? && state.value.created }

  function StepOperator(s: State, e: Event): State {
    match e
    case StartSign(w, id, v) =>
      if w in s.workers || id !in s.requests || v >= |s.requests[id].versions| || s.requests[id].versions[v].status.Some?
      then s
      else s.(workers := s.workers[w := SignWorker(id, v, s.requests[id].versions[v])])
    case StartRoot(w, n, v) =>
      if w in s.workers || n !in s.signers || v >= |s.signers[n]| || Created(s.signers[n][v]) then s
      else s.(workers := s.workers[w := RootWorker(n, v, s.signers[n][v])])
    case Do(w, a) =>
      if w !in s.workers then s
      else
        var r := Act(s, w, s.workers[w], a);
        if r.None? then s else ApplyAct(s, w, r.value.0, r.value.1)
    case Crash(w) =>
      if w !in s.workers || s.workers[w].pc.Done? then s
      else s.(workers := s.workers[w := s.workers[w].(pc := Crashed)])
    case _ => s
  }

  predicate RequestNamed(id: RequestId) { ObjectName(id.key.name) && NamespaceName(id.key.namespace) }

  /** The keys a write brings in: those that are not the ones it found under their names. */
  function Changed(was: map<string, TrustKey>, targets: map<string, TrustKey>): set<TrustKey> {
    set t | t in targets && !(t in was && was[t] == targets[t]) :: targets[t]
  }

  /**
   The outside world creates signers and requests, changes metadata (a new version with the same content),
   deletes requests, writes targets without removing entries, creates pods of its own, and starts and kills pods.
   It does not delete signers or keys, rewrite roots, change request specs or write statuses.
   */
  function StepOutside(s: State, e: Event): State {
    match e
    case CreateSigner(n) => if n in s.signers || !ObjectName(n) then s else s.(signers := s.signers[n := [None]])
    case TouchSigner(n) =>
      if n !in s.signers || s.signers[n] == [] then s
      else s.(signers := s.signers[n := s.signers[n] + [Last(s.signers[n])]])
    case CreateRequest(id, spec) =>
      if id in s.requests || !RequestNamed(id) then s
      else s.(requests := s.requests[id := RequestRecord([Request(spec, None)], true)])
    case TouchRequest(id) =>
      if id !in s.requests || s.requests[id].versions == [] then s
      else
        var r := s.requests[id];
        s.(requests := s.requests[id := r.(versions := r.versions + [Last(r.versions)])])
    case DeleteRequest(id) =>
      if id !in s.requests then s else s.(requests := s.requests[id := s.requests[id].(live := false)])
    case TouchKey(n) =>
      if n !in s.keys || s.keys[n] == [] then s
      else s.(keys := s.keys[n := s.keys[n] + [Last(s.keys[n])]])
    case WriteTargets(n, targets) =>
      if n !in s.keys || s.keys[n] == [] || !(Last(s.keys[n]).Entries().Keys <= targets.Keys) then s
      else s.(keys := s.keys[n := s.keys[n] + [Last(s.keys[n]).(targets := Some(targets))]],
              outside := s.outside + Changed(Last(s.keys[n]).Entries(), targets))
    case ForeignPod(p) => if p in s.pods then s else s.(foreign := s.foreign + {p})
    case PodRuns(p) =>
      if p !in s.pods || !Mountable(s.pods[p].opt) then s else s.(pods := s.pods[p := s.pods[p].(running := true)])
    case PodLost(p) => if p !in s.pods then s else s.(pods := s.pods[p := s.pods[p].(live := false)])
    case _ => s
  }

  predicate ByOperator(e: Event) { e.StartSign? || e.StartRoot? || e.Do? || e.Crash? }

  /** One event. An event that is not possible in a state changes nothing. */
  function Step(s: State, e: Event): State { if ByOperator(e) then StepOperator(s, e) else StepOutside(s, e) }

  /** A run: any finite interleaving is a sequence of events. */
  function Run(s: State, events: seq<Event>): State
    decreases |events|
  {
    if events == [] then s else Run(Step(s, events[0]), events[1..])
  }
}
