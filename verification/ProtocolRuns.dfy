/** Every event keeps the invariant and only extends the store; so does every run. */
module ProtocolRuns {
  import opened Wrappers
  import opened Strings
  import opened ApiTypes
  import opened Naming
  import opened Shell
  import opened Commands
  import opened Protocol
  import opened ProtocolInvariant
  import opened ProtocolSteps
  import opened ProtocolActs
  import opened ProtocolKeys

  // ---------------------------------------------------------------- the commands of a run

  lemma PointJob(s: State, w: nat, wk: Worker)
    requires InPodOK(s, w, wk)
    ensures wk.pc.LoadImage? || wk.pc.ListImages? || wk.pc.TagImage? || wk.pc.Sign? ==> wk.job.SignJob?
    ensures wk.pc.MakeDir? || wk.pc.Generate? ==> wk.job.RootJob?
  {
    hide ArchivePath, ImageRef, Astray;
  }

  lemma SignNext(s: State, w: nat, wk: Worker, a: Answer)
    requires Local(s, w, wk) && InPodOK(s, w, wk) && wk.pc.Sign? && wk.job.SignJob? && wk.regctl.Some? && RanHere(s, w, wk, a)
    ensures NextOK(s, w, wk, AfterSign(wk), AfterRun(s.pods[wk.pod.value], TrustSign(ImageRef(wk.job.spec, wk.regctl.value)), a))
  {
    hide NextOK, HistoriesOK, KeysOK, ImageRef, ArchivePath, PodOK, ChoiceOK, JobOK, PodGrows, Signed, TaggedAs,
         Plausible, Astray,
         Straight, EffectOK, AfterRun;
    var pod := AfterRun(s.pods[wk.pod.value], TrustSign(ImageRef(wk.job.spec, wk.regctl.value)), a);
    LocalOK(s, w, wk);
    PointTrace(s, w, wk);
    if wk.added {
      SignPoint(wk, s.pods[wk.pod.value], a);
      StayNext(s, w, wk, wk.(pc := ListKeys), pod);
    } else {
      SignTrace(wk, s.pods[wk.pod.value], a);
      SignEffect(s, w, wk, pod);
      SignSuccess(s, w, wk, pod);
      LeaveNext(s, w, wk, Succeed(wk), pod);
    }
  }

  lemma PointTrace(s: State, w: nat, wk: Worker)
    requires InPodOK(s, w, wk)
    ensures TraceOK(wk, s.pods[wk.pod.value].trace)
  {
    hide TraceOK, Astray;
  }

  lemma SignEffect(s: State, w: nat, wk: Worker, pod: Pod)
    requires wk.pod.Some? && pod.owner == w && PodOK(pod) && Straight(wk.job, pod) && wk.job.SignJob?
    requires wk.pod.value in s.pods ==> PodGrows(s.pods[wk.pod.value], pod)
    ensures EffectOK(s, w, Succeed(wk), PutPod(pod))
  {
    hide PodOK, Straight, PodGrows;
    StraightFor(wk.job, Succeed(wk).job, pod);
  }

  lemma LeaveNext(s: State, w: nat, wk: Worker, next: Worker, pod: Pod)
    requires SameRun(wk, next) && next.deleted == wk.deleted && wk.pod.Some? && next.pc.Close?
    requires JobOK(ApplyAct(s, w, next, PutPod(pod)), next.job)
    ensures NextOK(s, w, wk, next, pod)
  {
    hide PointOK, JobOK;
  }

  lemma ListNext(s: State, w: nat, wk: Worker, a: Answer)
    requires Local(s, w, wk) && InPodOK(s, w, wk) && wk.pc.ListKeys? && RanHere(s, w, wk, a)
    ensures NextOK(s, w, wk, Scan(wk, Fields(a.text)), AfterRun(s.pods[wk.pod.value], Ls, a))
  {
    hide NextOK, HistoriesOK, KeysOK, PodOK, PodGrows, ChoiceOK, JobOK, Scan, SafeName, Astray, Straight, AfterRun,
         Local, InPodOK,
         Plausible, LoadCmd, ImageRef;
    ListSafe(s, w, wk, a);
    OwnerStays(s.pods[wk.pod.value], Ls, a);
    ScanNext(s, w, wk, Fields(a.text), AfterRun(s.pods[wk.pod.value], Ls, a));
  }

  lemma ListSafe(s: State, w: nat, wk: Worker, a: Answer)
    requires wk.pc.ListKeys? && RanHere(s, w, wk, a)
    ensures var pod := AfterRun(s.pods[wk.pod.value], Ls, a);
            Astray(pod.opt, pod.trace) || forall n :: n in Fields(a.text) ==> SafeName(n)
  {
    hide SafeName, Astray, PodOK, PodGrows, PodOf, Straight, AfterRun, Fields, MayGenerate, LoadCmd, ImageRef;
    OwnerStays(s.pods[wk.pod.value], Ls, a);
  }

  lemma ReadNext(s: State, w: nat, wk: Worker, a: Answer)
    requires Local(s, w, wk) && InPodOK(s, w, wk) && wk.pc.ReadKeys? && wk.pc.names != [] && RanHere(s, w, wk, a)
    ensures NextOK(s, w, wk, AfterRead(wk, wk.pc.names, a.text), AfterRun(s.pods[wk.pod.value], Cat(wk.pc.names[0]), a))
  {
    hide NextOK, HistoriesOK, KeysOK, PodOK, PodGrows, ChoiceOK, JobOK, Scan, AfterFound, SafeName, RoleLine, Contains, Local,
         InPodOK, Astray, Straight, Plausible, PassOf;
    var names, command := wk.pc.names, Cat(wk.pc.names[0]);
    if Contains(a.text, RoleLine(wk.job.Role())) {
      FoundNext(s, w, wk, a);
    } else {
      var pod, after := s.pods[wk.pod.value], AfterRun(s.pods[wk.pod.value], command, a);
      RestSafe(s, w, wk, command, a);
      ScanNext(s, w, wk, names[1..], after);
    }
  }

  lemma RestSafe(s: State, w: nat, wk: Worker, command: Command, a: Answer)
    requires InPodOK(s, w, wk) && wk.pc.ReadKeys? && wk.pc.names != [] && a.Ran?
    ensures var pod := s.pods[wk.pod.value];
            Astray(pod.opt, AfterRun(pod, command, a).trace) || forall n :: n in wk.pc.names[1..] ==> SafeName(n)
  {
    hide SafeName, Astray, TraceOK;
    var pod := s.pods[wk.pod.value];
    if Astray(pod.opt, pod.trace) {
      AstrayStays(pod.opt, pod.trace, AfterRun(pod, command, a).trace);
    }
  }

  /** A command of a run in its pod. */
  lemma PodCommandOK(s: State, w: nat, wk: Worker, a: Answer)
    requires Local(s, w, wk) && InPod(wk.pc) && ActCommand(s, wk, a).Some?
    ensures var r := ActCommand(s, wk, a).value; ActOK(s, w, wk, r.0, r.1)
  {
    hide ActOK, NextOK, HistoriesOK, KeysOK, PodOK, ChoiceOK, JobOK, PointOK, Astray, AfterRun, AfterImages,
         AfterSign, Scan, AfterRead,
         Fields, ImageRef, LoadCmd, Exec, RanHere, Local;
    LocalOK(s, w, wk);
    PointJob(s, w, wk);
    if a.ok {
      RunsHere(s, w, wk, a);
      match wk.pc
      case LoadImage => LoadImageNext(s, w, wk, a);
      case ListImages => ListImagesNext(s, w, wk, a);
      case TagImage(_) => TagImageNext(s, w, wk, a);
      case Sign => SignNext(s, w, wk, a);
      case MakeDir => RootStepNext(s, w, wk, wk.(pc := Generate), MkdirBase, a);
      case Generate => RootStepNext(s, w, wk, wk.(pc := ListKeys), GenerateKey(Root), a);
      case ListKeys => ListNext(s, w, wk, a);
      case ReadKeys(_) => ReadNext(s, w, wk, a);
    }
    CommandOK(s, w, wk, a);
  }

  /** Every answer to every call keeps the run's part of the invariant. */
  lemma EveryActOK(s: State, w: nat, wk: Worker, a: Answer)
    requires Local(s, w, wk) && Act(s, w, wk, a).Some?
    ensures var r := Act(s, w, wk, a).value; ActOK(s, w, wk, r.0, r.1)
  {
    hide Local, ActOK, ActGetSigner, ActGetKey, ActCheckKey, ActNewController, ActCreatePod, ActWaitPod, ActCommand,
         ActPatchKey, ActCreateKey, ActClose, ActRespond;
    match wk.pc
    case GetSigner => EarlyCallOK(s, w, wk, a);
    case GetKey => EarlyCallOK(s, w, wk, a);
    case CheckKey => EarlyCallOK(s, w, wk, a);
    case NewController => EarlyCallOK(s, w, wk, a);
    case CreatePod => CreatePodOK(s, w, wk, a);
    case WaitPod(_) => WaitPodOK(s, w, wk, a);
    case LoadImage => PodCommandOK(s, w, wk, a);
    case ListImages => PodCommandOK(s, w, wk, a);
    case TagImage(_) => PodCommandOK(s, w, wk, a);
    case Sign => PodCommandOK(s, w, wk, a);
    case MakeDir => PodCommandOK(s, w, wk, a);
    case Generate => PodCommandOK(s, w, wk, a);
    case ListKeys => PodCommandOK(s, w, wk, a);
    case ReadKeys(_) => PodCommandOK(s, w, wk, a);
    case PatchKey(_) => PatchKeyOK(s, w, wk, a);
    case CreateKey(_) => CreateKeyOK(s, w, wk, a);
    case Close => CloseOK(s, w, wk, a);
    case Respond => RespondOK(s, w, wk, a);
    case _ => NoCommand(s, wk, a);
  }

  lemma CommandPoint(s: State, w: nat, wk: Worker, a: Answer)
    requires NextCommand(wk).Some?
    ensures Act(s, w, wk, a) == ActCommand(s, wk, a)
  {
    hide ActCommand, LoadCmd, ImageRef;
  }

  lemma NoCommand(s: State, wk: Worker, a: Answer)
    requires wk.pc.Done? || wk.pc.Crashed?
    ensures ActCommand(s, wk, a) == None
  {
  }

  lemma EarlyCallOK(s: State, w: nat, wk: Worker, a: Answer)
    requires Local(s, w, wk) && BeforePod(wk.pc) && Act(s, w, wk, a).Some?
    ensures var r := Act(s, w, wk, a).value; ActOK(s, w, wk, r.0, r.1)
  {
    hide ActOK, EarlyStep, HistoriesOK, KeysOK, WorkerOK, ActGetSigner, ActGetKey, ActCheckKey, ActNewController;
    match wk.pc
    case GetSigner =>
      GetSignerEarly(s, w, wk, a);
      EarlyOK(s, w, wk, ActGetSigner(s, wk, a).value.0);
    case GetKey =>
      GetKeyEarly(s, w, wk, a);
      EarlyOK(s, w, wk, ActGetKey(s, wk, a).value.0);
    case CheckKey =>
      CheckKeyEarly(s, w, wk, a);
      EarlyOK(s, w, wk, ActCheckKey(s, wk, a).value.0);
    case NewController =>
      NewControllerEarly(s, w, wk, a);
      EarlyOK(s, w, wk, ActNewController(s, wk, a).value.0);
  }

  // ---------------------------------------------------------------- starting and dying runs

  /** Changing only runs: what a run with another record must satisfy. */
  lemma PutWorker(s: State, w: nat, wk: Worker)
    requires Inv(s) && WorkerOK(s.(workers := s.workers[w := wk]), w, wk)
    requires if w in s.workers then wk.pod == s.workers[w].pod && (Responsible(s.workers[w]) ==> Responsible(wk))
             else wk.pod == None
    requires w in s.workers ==> wk.job == s.workers[w].job
    ensures var t := s.(workers := s.workers[w := wk]); Inv(t) && Extends(s, t) && RunsGrow(s, t)
  {
    hide HistoriesOK, KeysOK, ResponsesOK, StatesOK, WorkerOK, Straight;
    var t := s.(workers := s.workers[w := wk]);
    PodGrowsSelf(s.pods);
    WorkersAlone(s, t);
    DutiesKept(s, t, w, wk);
    forall x | x in t.workers ensures WorkerOK(t, x, t.workers[x]) {
      if x != w {
        OtherRunKept(s, t, x);
      }
    }
  }

  lemma DutiesKept(s: State, t: State, w: nat, wk: Worker)
    requires PodsOK(s) && NamesOK(s) && t == s.(workers := s.workers[w := wk])
    requires if w in s.workers then wk.pod == s.workers[w].pod && (Responsible(s.workers[w]) ==> Responsible(wk))
             else wk.pod == None
    requires w in s.workers ==> wk.job == s.workers[w].job
    ensures PodsOK(t) && NamesOK(t)
  {
    hide PodOK, Straight;
    forall p | p in t.pods ensures PodDuty(t, p) { assert PodDuty(s, p); }
  }

  lemma OtherRunKept(s: State, t: State, x: nat)
    requires HistoriesOK(s) && WorkersOK(s) && x in s.workers && t == s.(workers := t.workers) && RunsGrow(s, t)
    ensures WorkerOK(t, x, s.workers[x])
  {
    hide HistoriesOK, WorkerOK, JobGrows;
    PodGrowsSelf(s.pods);
    WorkersAloneHistories(s, t);
    assert WorkerOK(s, x, s.workers[x]);
    WorkerKept(s, t, x, s.workers[x]);
  }

  lemma WorkersAloneHistories(s: State, t: State)
    requires HistoriesOK(s) && t == s.(workers := t.workers)
    ensures HistoriesOK(t)
  {
  }

  /** The store's part of the invariant does not depend on the runs. */
  lemma WorkersAlone(s: State, t: State)
    requires HistoriesOK(s) && KeysOK(s) && ResponsesOK(s) && StatesOK(s) && t == s.(workers := t.workers) && RunsGrow(s, t)
    ensures HistoriesOK(t) && KeysOK(t) && ResponsesOK(t) && StatesOK(t)
  {
    forall n, i | n in t.keys && 0 <= i < |t.keys[n]| ensures SpecOK(t, t.keys[n][i]) {
      assert SpecOK(s, s.keys[n][i]);
    }
    AnswersAlone(s, t);
  }

  lemma AnswersAlone(s: State, t: State)
    requires HistoriesOK(s) && ResponsesOK(s) && t == s.(workers := t.workers) && RunsGrow(s, t)
    ensures ResponsesOK(t)
  {
    hide SuccessOK, JobGrows, HistoriesOK;
    PodGrowsSelf(s.pods);
    WorkersAloneHistories(s, t);
    forall id, i | id in t.requests && 0 <= i < |t.requests[id].versions| && IsSuccess(t.requests[id].versions[i].status)
      ensures SuccessOK(t, id, t.requests[id].versions[i].spec)
    {
      SuccessKept(s, t, id, s.requests[id].versions[i].spec);
    }
  }

  lemma StartSignOK(s: State, w: nat, id: RequestId, v: nat)
    requires Inv(s) && Step(s, StartSign(w, id, v)) != s
    ensures var t := Step(s, StartSign(w, id, v)); Inv(t) && Extends(s, t) && RunsGrow(s, t)
  {
    hide Inv, HistoriesOK, Extends, RunsGrow;
    PutWorker(s, w, SignWorker(id, v, s.requests[id].versions[v]));
  }

  lemma StartRootOK(s: State, w: nat, n: string, v: nat)
    requires Inv(s) && Step(s, StartRoot(w, n, v)) != s
    ensures var t := Step(s, StartRoot(w, n, v)); Inv(t) && Extends(s, t) && RunsGrow(s, t)
  {
    hide Inv, HistoriesOK, Extends, RunsGrow;
    PutWorker(s, w, RootWorker(n, v, s.signers[n][v]));
  }

  lemma CrashOK(s: State, w: nat)
    requires Inv(s) && w in s.workers && !s.workers[w].pc.Done?
    ensures var t := Step(s, Crash(w)); Inv(t) && Extends(s, t) && RunsGrow(s, t)
  {
    hide Inv, Extends, RunsGrow, HistoriesOK;
    var wk := s.workers[w].(pc := Crashed);
    CrashedWorker(s, w);
    PutWorker(s, w, wk);
  }

  lemma CrashedWorker(s: State, w: nat)
    requires Inv(s) && w in s.workers
    ensures var wk := s.workers[w].(pc := Crashed); WorkerOK(s.(workers := s.workers[w := wk]), w, wk)
  {
    hide KeysOK, ResponsesOK, StatesOK, PodsOK, NamesOK, JobOK, HistoriesOK, InPodOK, ChoiceOK;
    var wk := s.workers[w].(pc := Crashed);
    var t := s.(workers := s.workers[w := wk]);
    assert WorkerOK(s, w, s.workers[w]);
    PodGrowsSelf(s.pods);
    WorkersAloneHistories(s, t);
    JobKept(s, t, wk.job);
  }

  lemma DoOK(s: State, w: nat, a: Answer)
    requires Inv(s) && w in s.workers && Act(s, w, s.workers[w], a).Some?
    ensures var t := Step(s, Do(w, a)); Inv(t) && Extends(s, t) && RunsGrow(s, t)
  {
    hide Inv, Local, ActOK, Act, Extends, RunsGrow;
    InvLocal(s, w);
    EveryActOK(s, w, s.workers[w], a);
    var r := Act(s, w, s.workers[w], a).value;
    ActKeepsInv(s, w, s.workers[w], r.0, r.1);
  }

  // ---------------------------------------------------------------- the outside world

  /** The store changed, the runs did not. */
  lemma OutsideKeeps(s: State, t: State)
    requires Inv(s) && Extends(s, t) && t.workers == s.workers
    requires HistoriesOK(t) && KeysOK(t) && ResponsesOK(t) && StatesOK(t)
    requires t.pods.Keys == s.pods.Keys && forall p :: p in s.pods ==> PodUntouched(s.pods[p], t.pods[p])
    ensures Inv(t)
  {
    hide HistoriesOK, KeysOK, ResponsesOK, StatesOK, PodsOK, WorkersOK, Extends, PodUntouched;
    OutsidePods(s, t);
    OutsideRuns(s, t);
  }

  lemma OutsidePods(s: State, t: State)
    requires PodsOK(s) && t.workers == s.workers && t.pods.Keys == s.pods.Keys
    requires forall p :: p in s.pods ==> PodUntouched(s.pods[p], t.pods[p])
    ensures PodsOK(t)
  {
    hide PodOK, Straight;
    forall p | p in t.pods ensures PodDuty(t, p) {
      assert PodDuty(s, p);
      UntouchedOK(s.workers[s.pods[p].owner].job, s.pods[p], t.pods[p]);
    }
  }

  lemma OutsideRuns(s: State, t: State)
    requires WorkersOK(s) && Extends(s, t) && HistoriesOK(t) && t.workers == s.workers && t.pods.Keys == s.pods.Keys
    requires forall p :: p in s.pods ==> PodUntouched(s.pods[p], t.pods[p])
    ensures WorkersOK(t)
  {
    hide HistoriesOK, WorkerOK, Extends, PodUntouched;
    forall x | x in t.workers ensures WorkerOK(t, x, t.workers[x]) {
      assert WorkerOK(s, x, s.workers[x]);
      WorkerKept(s, t, x, s.workers[x]);
    }
  }

  lemma UntouchedOK(job: Job, a: Pod, b: Pod)
    requires PodOK(a) && Straight(job, a) && PodUntouched(a, b)
    ensures PodOK(b) && Straight(job, b)
  {
    hide Astray, Believed;
  }

  /** An extension whose new versions are justified keeps the store's part of the invariant. */
  lemma StoreKept(s: State, t: State)
    requires Inv(s) && Extends(s, t) && RunsGrow(s, t) && HistoriesOK(t)
    requires forall id, i ::
               id in t.requests
               && (if id in s.requests then |s.requests[id].versions| else 0) <= i < |t.requests[id].versions| ==>
               NewRequestVersion(s, id, t.requests[id].versions[i])
    requires forall n, i :: n in t.signers && (if n in s.signers then |s.signers[n]| else 0) <= i < |t.signers[n]| ==>
               NewStateVersion(s, n, t.signers[n][i])
    requires forall n, i :: n in t.keys && (if n in s.keys then |s.keys[n]| else 0) <= i < |t.keys[n]| ==> SpecOK(t, t.keys[n][i])
    ensures KeysOK(t) && ResponsesOK(t) && StatesOK(t)
  {
    hide WorkersOK, PodsOK, NamesOK, SpecOK, SuccessOK, RootMatches, HistoriesOK, RunsGrow;
    forall n, i | n in t.keys && 0 <= i < |t.keys[n]| ensures SpecOK(t, t.keys[n][i]) {
      if n in s.keys && i < |s.keys[n]| {
        assert t.keys[n][i] == s.keys[n][i];
        SpecKept(s, t, s.keys[n][i]);
      }
    }
    forall id, i | id in t.requests && 0 <= i < |t.requests[id].versions| && IsSuccess(t.requests[id].versions[i].status)
      ensures SuccessOK(t, id, t.requests[id].versions[i].spec)
    {
      if id in s.requests && i < |s.requests[id].versions| {
        assert t.requests[id].versions[i] == s.requests[id].versions[i];
      }
      SuccessKept(s, t, id, t.requests[id].versions[i].spec);
    }
    forall n, i | n in t.signers && 0 <= i < |t.signers[n]| ensures RootMatches(t, n, t.signers[n][i]) {
      if n in s.signers && i < |s.signers[n]| {
        assert t.signers[n][i] == s.signers[n][i];
      }
      RootMatchesKept(s, t, n, t.signers[n][i]);
    }
  }

  ghost predicate NewRequestVersion(s: State, id: RequestId, r: Request) {
    IsSuccess(r.status) ==> SuccessOK(s, id, r.spec)
  }

  ghost predicate NewStateVersion(s: State, n: string, state: Option<SignerKeyState>) { RootMatches(s, n, state) }

  lemma TouchRequests(s: State, e: Event)
    requires HistoriesOK(s) && !ByOperator(e)
    ensures var t := StepOutside(s, e);
            (forall id :: id in t.requests ==> RequestHistory(t.requests[id].versions)) && RequestsLonger(s.requests, t.requests)
  {
    hide RequestHistory, StateHistory, KeyHistory;
    var t := StepOutside(s, e);
    match e
    case CreateRequest(id, spec) =>
      if id !in s.requests {
        NewHistories();
        PutRequest(s.requests, id, RequestRecord([Request(spec, None)], true));
      }
    case TouchRequest(id) =>
      if id in s.requests {
        RepeatRequest(s.requests[id].versions);
        PutRequest(s.requests, id, t.requests[id]);
      }
    case DeleteRequest(id) =>
      if id in s.requests {
        PutRequest(s.requests, id, t.requests[id]);
      }
    case _ =>
  }

  /** Putting a record with a longer history, or a new one. */
  lemma PutRequest(requests: map<RequestId, RequestRecord>, id: RequestId, r: RequestRecord)
    requires forall x :: x in requests ==> RequestHistory(requests[x].versions)
    requires RequestHistory(r.versions) && (id in requests ==> requests[id].versions <= r.versions)
    ensures var t := requests[id := r];
            (forall x :: x in t ==> RequestHistory(t[x].versions)) && RequestsLonger(requests, t)
  {
    hide RequestHistory;
  }

  lemma TouchSigners(s: State, e: Event)
    requires HistoriesOK(s) && !ByOperator(e)
    ensures var t := StepOutside(s, e);
            (forall n :: n in t.signers ==> StateHistory(t.signers[n])) && Longer(s.signers, t.signers)
  {
    hide RequestHistory, StateHistory, KeyHistory, Changed, Mountable, RequestNamed;
    var t := StepOutside(s, e);
    match e
    case CreateSigner(n) => NewHistories();
    case TouchSigner(n) =>
      if n in s.signers {
        RepeatState(s.signers[n]);
      }
    case _ =>
  }

  lemma NewHistories()
    ensures forall spec :: RequestHistory([Request(spec, None)])
    ensures StateHistory([None])
  {
  }

  lemma RepeatRequest(versions: seq<Request>)
    requires RequestHistory(versions)
    ensures versions != [] && RequestHistory(versions + [Last(versions)])
  {
  }

  lemma RepeatState(versions: seq<Option<SignerKeyState>>)
    requires StateHistory(versions)
    ensures versions != [] && StateHistory(versions + [Last(versions)])
  {
  }

  lemma KeyTouchHistories(s: State, e: Event)
    requires HistoriesOK(s) && !ByOperator(e)
    ensures var t := StepOutside(s, e);
            (forall n :: n in t.keys ==> KeyHistory(t.keys[n])) && Longer(s.keys, t.keys)
  {
    hide KeyGrows, KeyHistory, RequestHistory, StateHistory, Mountable, RequestNamed, Changed;
    var t := StepOutside(s, e);
    match e
    case TouchKey(n) =>
      if n in s.keys {
        RepeatKey(s.keys[n]);
        PutKey(s.keys, n, t.keys[n]);
      }
    case WriteTargets(n, targets) =>
      if n in s.keys {
        RetargetKey(s.keys[n], targets);
        PutKey(s.keys, n, t.keys[n]);
      }
    case _ =>
  }

  lemma RepeatKey(versions: seq<SignerKeySpec>)
    requires KeyHistory(versions)
    ensures versions != [] && KeyHistory(versions + [Last(versions)])
  {
    assert KeyGrows(Last(versions), Last(versions));
    AppendKeyHistory(versions, Last(versions));
  }

  lemma RetargetKey(versions: seq<SignerKeySpec>, targets: map<string, TrustKey>)
    requires KeyHistory(versions)
    ensures versions != []
    ensures Last(versions).Entries().Keys <= targets.Keys ==>
              KeyHistory(versions + [Last(versions).(targets := Some(targets))])
  {
    if Last(versions).Entries().Keys <= targets.Keys {
      assert KeyGrows(Last(versions), Last(versions).(targets := Some(targets)));
      AppendKeyHistory(versions, Last(versions).(targets := Some(targets)));
    }
  }

  lemma PutKey(keys: map<string, seq<SignerKeySpec>>, n: string, versions: seq<SignerKeySpec>)
    requires forall x :: x in keys ==> KeyHistory(keys[x])
    requires KeyHistory(versions) && (n in keys ==> keys[n] <= versions)
    ensures var t := keys[n := versions];
            (forall x :: x in t ==> KeyHistory(t[x])) && Longer(keys, t)
  {
    hide KeyHistory;
  }

  lemma AppendKeyHistory(versions: seq<SignerKeySpec>, x: SignerKeySpec)
    requires KeyHistory(versions) && KeyGrows(Last(versions), x)
    ensures KeyHistory(versions + [x])
  {
    forall i | 0 <= i < |versions| ensures KeyGrows(versions[i], x) {
      assert KeyGrows(versions[i], Last(versions));
    }
  }

  lemma PodsUntouched(s: State, e: Event)
    requires !ByOperator(e)
    ensures var t := StepOutside(s, e);
            t.pods.Keys == s.pods.Keys && forall p :: p in s.pods ==> PodUntouched(s.pods[p], t.pods[p])
  {
    hide Changed, Mountable, RequestNamed;
    if !e.PodRuns? && !e.PodLost? {
      assert StepOutside(s, e).pods == s.pods;
    }
  }

  lemma OutsideExtends(s: State, e: Event)
    requires HistoriesOK(s) && !ByOperator(e)
    ensures Extends(s, StepOutside(s, e)) && HistoriesOK(StepOutside(s, e))
  {
    TouchRequests(s, e);
    TouchSigners(s, e);
    KeyTouchHistories(s, e);
    PodsUntouched(s, e);
  }

  lemma OutsideResponses(s: State, e: Event)
    requires HistoriesOK(s) && ResponsesOK(s) && StatesOK(s) && !ByOperator(e)
    ensures var t := StepOutside(s, e);
            && (forall id, i ::
                  id in t.requests
                  && (if id in s.requests then |s.requests[id].versions| else 0) <= i < |t.requests[id].versions| ==>
                  NewRequestVersion(s, id, t.requests[id].versions[i]))
            && (forall n, i :: n in t.signers && (if n in s.signers then |s.signers[n]| else 0) <= i < |t.signers[n]| ==>
                  NewStateVersion(s, n, t.signers[n][i]))
  {
    hide HistoriesOK, SuccessOK, RootMatches, Changed, Mountable, RequestNamed;
    if e.TouchRequest? && e.request in s.requests && s.requests[e.request].versions != [] {
      assert NewRequestVersion(s, e.request, Last(s.requests[e.request].versions));
    }
    if e.TouchSigner? && e.signer in s.signers && s.signers[e.signer] != [] {
      assert NewStateVersion(s, e.signer, Last(s.signers[e.signer]));
    }
    if e.CreateSigner? {
      NoneMatches(s, e.signer);
    }
  }

  lemma NoneMatches(s: State, n: string)
    ensures RootMatches(s, n, None)
  {
  }

  lemma OutsideSpecs(s: State, e: Event, n: string, i: nat)
    requires HistoriesOK(s) && KeysOK(s) && !ByOperator(e)
    requires n in StepOutside(s, e).keys && (if n in s.keys then |s.keys[n]| else 0) <= i < |StepOutside(s, e).keys[n]|
    ensures SpecOK(StepOutside(s, e), StepOutside(s, e).keys[n][i])
  {
    hide HistoriesOK, SpecOK, Extends;
    var t := StepOutside(s, e);
    OutsideExtends(s, e);
    LastSpecOK(s, n);
    SpecKept(s, t, Last(s.keys[n]));
    if e.WriteTargets? {
      WrittenTargets(t, Last(s.keys[n]), e.targets);
    }
  }

  lemma WrittenTargets(t: State, spec: SignerKeySpec, targets: map<string, TrustKey>)
    requires SpecOK(t, spec) && Changed(spec.Entries(), targets) <= t.outside
    ensures SpecOK(t, spec.(targets := Some(targets)))
  {
    hide OwnKey, OwnTarget;
  }

  lemma OutsideOK(s: State, e: Event)
    requires Inv(s) && !ByOperator(e)
    ensures Inv(StepOutside(s, e)) && Extends(s, StepOutside(s, e)) && RunsGrow(s, StepOutside(s, e))
  {
    hide HistoriesOK, KeysOK, ResponsesOK, StatesOK, PodsOK, NamesOK, WorkersOK, SpecOK, Extends, PodUntouched, StepOutside;
    var t := StepOutside(s, e);
    OutsideExtends(s, e);
    OutsideResponses(s, e);
    forall n, i | n in t.keys && (if n in s.keys then |s.keys[n]| else 0) <= i < |t.keys[n]| ensures SpecOK(t, t.keys[n][i]) {
      OutsideSpecs(s, e, n, i);
    }
    OutsideWorkers(s, e);
    StoreKept(s, t);
    PodsUntouched(s, e);
    OutsideKeeps(s, t);
  }

  lemma OutsideWorkers(s: State, e: Event)
    requires !ByOperator(e)
    ensures StepOutside(s, e).workers == s.workers
  {
  }

  // ---------------------------------------------------------------- runs

  lemma ExtendsSelf(s: State)
    ensures Extends(s, s) && RunsGrow(s, s)
  {
    PodGrowsSelf(s.pods);
  }

  /** Every event, possible or not, keeps the invariant and only extends the store. */
  lemma StepKeepsInv(s: State, e: Event)
    requires Inv(s)
    ensures Inv(Step(s, e)) && Extends(s, Step(s, e)) && RunsGrow(s, Step(s, e))
  {
    hide Inv, Extends, RunsGrow, Act, StepOutside;
    ExtendsSelf(s);
    if !ByOperator(e) {
      OutsideOK(s, e);
    } else if Step(s, e) != s {
      match e
      case StartSign(w, id, v) => StartSignOK(s, w, id, v);
      case StartRoot(w, n, v) => StartRootOK(s, w, n, v);
      case Do(w, a) => DoOK(s, w, a);
      case Crash(w) => CrashOK(s, w);
    }
  }

  lemma EmptyInv()
    ensures Inv(Empty)
  {
  }

  lemma {:induction false} RunKeepsInv(s: State, events: seq<Event>)
    requires Inv(s)
    ensures Inv(Run(s, events)) && Extends(s, Run(s, events)) && RunsGrow(s, Run(s, events))
    decreases |events|
  {
    hide Inv, Extends, RunsGrow, Step;
    if events == [] {
      ExtendsSelf(s);
    } else {
      var t := Step(s, events[0]);
      StepKeepsInv(s, events[0]);
      RunKeepsInv(t, events[1..]);
      ExtendsTransitive(s, t, Run(t, events[1..]));
      RunsGrowTransitive(s, t, Run(t, events[1..]));
    }
  }

  lemma {:induction false} RunAppend(s: State, a: seq<Event>, b: seq<Event>)
    ensures Run(s, a + b) == Run(Run(s, a), b)
    decreases |a|
  {
    hide Step;
    if a == [] {
      assert a + b == b;
    } else {
      assert (a + b)[1..] == a[1..] + b;
      RunAppend(Step(s, a[0]), a[1..], b);
    }
  }
}
