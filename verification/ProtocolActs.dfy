/** Every answer to every call of a run is one the invariant survives. */
module ProtocolActs {
  import opened Strings
  import opened Shell
  import opened CommandOptions
  import opened Commands
  import opened Protocol
  import opened ProtocolInvariant
  import opened ProtocolSteps

  /** The same run, at another point or with another status in hand. */
  predicate SameRun(a: Worker, b: Worker) {
    && SameJob(a.job, b.job) && a.key == b.key && a.added == b.added && a.opt == b.opt
    && a.regctl == b.regctl && a.pod == b.pod
  }

  /** What a run may rely on when it makes a call: the histories, the keys, and its own part. */
  ghost predicate Local(s: State, w: nat, wk: Worker) {
    && HistoriesOK(s) && KeysOK(s) && WorkerOK(s, w, wk) && DutyOK(s, wk)
    && (wk.pod.Some? && wk.pod.value in s.pods ==>
          PodOK(s.pods[wk.pod.value]) && Straight(wk.job, s.pods[wk.pod.value]))
    && w in s.workers && s.workers[w] == wk
  }

  lemma InvLocal(s: State, w: nat)
    requires Inv(s) && w in s.workers
    ensures Local(s, w, s.workers[w])
  {
    hide HistoriesOK, KeysOK, ResponsesOK, StatesOK, NamesOK, PodOK, WorkerOK, Straight;
    assert WorkerOK(s, w, s.workers[w]);
    if s.workers[w].pod.Some? && s.workers[w].pod.value in s.pods {
      OwnerOfPod(s, w);
    }
  }

  lemma OwnerOfPod(s: State, w: nat)
    requires Inv(s) && w in s.workers && s.workers[w].pod.Some? && s.workers[w].pod.value in s.pods
    ensures s.pods[s.workers[w].pod.value].owner == w
  {
    hide HistoriesOK, KeysOK, ResponsesOK, StatesOK, NamesOK, PodOK, PodsOK;
    assert WorkerOK(s, w, s.workers[w]);
  }

  lemma LocalOK(s: State, w: nat, wk: Worker)
    requires Local(s, w, wk)
    ensures InPod(wk.pc) || wk.pc.CreatePod? ==> ChoiceOK(s, wk)
    ensures InPod(wk.pc) ==> InPodOK(s, w, wk) && wk.pod.Some? && wk.pod.value in s.pods
    ensures InPod(wk.pc) || wk.pc.CreatePod? || BeforePod(wk.pc) ==> Unanswered(wk.job)
    ensures wk.pod.Some? && wk.pod.value in s.pods ==>
              && PodOK(s.pods[wk.pod.value]) && s.pods[wk.pod.value].owner == w && PodOf(s.pods[wk.pod.value], wk)
              && Straight(wk.job, s.pods[wk.pod.value])
  {
    hide PodOK, Straight, HistoriesOK, KeysOK, JobOK, ChoiceOK, PointOK;
  }

  /** The status in hand stays justified. */
  lemma JobAfter(s: State, w: nat, wk: Worker, after: Worker, e: Effect)
    requires Local(s, w, wk) && JobGrows(wk.job, after.job) && EffectOK(s, w, after, e)
    requires after.job.SignJob? && IsSuccess(after.job.response) ==>
               SuccessOK(ApplyAct(s, w, after, e), after.job.request, after.job.spec)
    requires after.job.RootJob? ==> RootMatches(ApplyAct(s, w, after, e), after.job.signer, after.job.state)
    ensures JobOK(ApplyAct(s, w, after, e), after.job)
  {
    hide SuccessOK, PodOK, Straight, Extends, RunsGrow, EffectOK;
    EffectExtends(s, w, after, e);
    EffectRuns(s, w, after, e);
    LocalOK(s, w, wk);
    JobKept(s, ApplyAct(s, w, after, e), wk.job);
  }

  lemma ChoiceKept(s: State, t: State, wk: Worker, after: Worker)
    requires Extends(s, t) && ChoiceOK(s, wk) && SameRun(wk, after)
    ensures ChoiceOK(t, after)
  {
    if wk.job.SignJob? {
      KeyReadKept(s, t, wk.job.spec.signer, wk.key.value);
    }
  }

  lemma OwnPod(s: State, w: nat, wk: Worker, after: Worker, e: Effect)
    requires Local(s, w, wk) && SameRun(wk, after) && EffectOK(s, w, after, e)
    requires e.PutPod? ==> PodOf(e.pod, wk)
    ensures var t := ApplyAct(s, w, after, e);
            wk.pod.Some? && wk.pod.value in t.pods ==>
              t.pods[wk.pod.value].owner == w && PodOf(t.pods[wk.pod.value], wk)
  {
    hide HistoriesOK, KeysOK, WorkerOK, PodOK, JobOK, ChoiceOK, InPodOK, KeyGrows, SpecOK, PodGrows, Straight;
    LocalOK(s, w, wk);
  }

  lemma NoEffectOK(s: State, w: nat, wk: Worker)
    ensures EffectOK(s, w, wk, NoEffect)
  {
  }

  /** Giving up, or finishing: on to the deferred Close. */
  lemma LeaveOK(s: State, w: nat, wk: Worker, after: Worker, e: Effect)
    requires Local(s, w, wk) && (InPod(wk.pc) || wk.pc.CreatePod?)
    requires SameRun(wk, after) && after.pc.Close? && after.deleted == wk.deleted
    requires EffectOK(s, w, after, e) && (e.PutPod? ==> PodOf(e.pod, wk))
    requires JobOK(ApplyAct(s, w, after, e), after.job)
    ensures ActOK(s, w, wk, after, e)
  {
    hide JobOK, EffectOK, ChoiceOK, InPodOK, ApplyAct, HistoriesOK, KeysOK, PodOK, Straight;
    LocalOK(s, w, wk);
    OwnPod(s, w, wk, after, e);
  }

  /** The same with a failure in hand. */
  lemma FailOK(s: State, w: nat, wk: Worker, reason: string, e: Effect)
    requires Local(s, w, wk) && (InPod(wk.pc) || wk.pc.CreatePod?)
    requires EffectOK(s, w, wk.Fail(reason, Close), e) && (e.PutPod? ==> PodOf(e.pod, wk))
    ensures ActOK(s, w, wk, wk.Fail(reason, Close), e)
  {
    hide Local, ActOK, EffectOK, JobOK, SuccessOK, ApplyEffect, ChoiceOK, InPodOK, PodOK, Straight;
    var after := wk.Fail(reason, Close);
    LocalOK(s, w, wk);
    JobAfter(s, w, wk, after, e);
    LeaveOK(s, w, wk, after, e);
  }

  /** The same when the pod's name was taken. */
  lemma TakenOK(s: State, w: nat, wk: Worker)
    requires Local(s, w, wk) && wk.pc.CreatePod?
    ensures ActOK(s, w, wk, NameTaken(wk), NoEffect)
  {
    hide Local, ActOK, EffectOK, JobOK, SuccessOK, ApplyEffect, ChoiceOK, InPodOK, PodOK, Straight;
    NoEffectOK(s, w, NameTaken(wk));
    if wk.job.SignJob? {
      LeaveSilentlyOK(s, w, wk, NameTaken(wk), NoEffect);
    } else {
      LocalOK(s, w, wk);
      JobAfter(s, w, wk, NameTaken(wk), NoEffect);
      LeaveOK(s, w, wk, NameTaken(wk), NoEffect);
    }
  }

  /** The same with the status untouched. */
  lemma LeaveSilentlyOK(s: State, w: nat, wk: Worker, after: Worker, e: Effect)
    requires Local(s, w, wk) && (InPod(wk.pc) || wk.pc.CreatePod?)
    requires SameRun(wk, after) && after.job == wk.job && after.pc.Close? && after.deleted == wk.deleted
    requires EffectOK(s, w, after, e) && (e.PutPod? ==> PodOf(e.pod, wk))
    ensures ActOK(s, w, wk, after, e)
  {
    EffectExtends(s, w, after, e);
    LocalOK(s, w, wk);
    JobKept(s, ApplyAct(s, w, after, e), wk.job);
    LeaveOK(s, w, wk, after, e);
  }

  /** Staying in the pod. */
  lemma StayOK(s: State, w: nat, wk: Worker, after: Worker, e: Effect)
    requires Local(s, w, wk) && (InPod(wk.pc) || wk.pc.CreatePod?)
    requires SameRun(wk, after) && after.job == wk.job && InPod(after.pc) && after.deleted == wk.deleted
    requires EffectOK(s, w, after, e) && (e.PutPod? ==> PodOf(e.pod, wk))
    requires InPodOK(ApplyAct(s, w, after, e), w, after)
    ensures ActOK(s, w, wk, after, e)
  {
    var t := ApplyAct(s, w, after, e);
    EffectExtends(s, w, after, e);
    LocalOK(s, w, wk);
    JobKept(s, t, wk.job);
    ChoiceKept(s, t, wk, after);
    OwnPod(s, w, wk, after, e);
    StayParts(s, t, w, wk, after, e);
  }

  lemma StayParts(s: State, t: State, w: nat, wk: Worker, after: Worker, e: Effect)
    requires WorkerOK(s, w, wk) && (InPod(wk.pc) || wk.pc.CreatePod?) && after.job == wk.job
    requires SameRun(wk, after) && InPod(after.pc) && after.deleted == wk.deleted
    requires EffectOK(s, w, after, e) && t == ApplyAct(s, w, after, e)
    requires JobOK(t, after.job) && Unanswered(after.job) && ChoiceOK(t, after) && InPodOK(t, w, after)
    requires t.pods[wk.pod.value].owner == w && PodOf(t.pods[wk.pod.value], wk)
    ensures ActOK(s, w, wk, after, e)
  {
    hide JobOK, EffectOK, ChoiceOK, PointOK, ApplyAct;
  }

  // ---------------------------------------------------------------- before the pod

  predicate Successful(job: Job) { if job.SignJob? then IsSuccess(job.response) else Created(job.state) }

  /** Steps before the pod touch nothing but the run itself. */
  ghost predicate EarlyStep(s: State, wk: Worker, after: Worker) {
    && BeforePod(wk.pc) && SameJob(wk.job, after.job)
    && (after.job == wk.job || (after.pc.Respond? && !Successful(after.job)))
    && (if after.pod.Some? then FreshName(s, after.pod.value) && after.pc.CreatePod? && ChoiceOK(s, after)
        else after.pc.GetKey? || after.pc.NewController? || after.pc.Respond?)
    && (after.pc.GetKey? ==> after.job.SignJob?)
    && (after.pc.NewController? && after.job.SignJob? ==>
          after.key.Some? && after.job.spec.signer in s.keys && after.key.value in s.keys[after.job.spec.signer])
    && after.deleted == wk.deleted
  }

  lemma EarlyOK(s: State, w: nat, wk: Worker, after: Worker)
    requires Local(s, w, wk) && EarlyStep(s, wk, after)
    ensures ActOK(s, w, wk, after, NoEffect)
  {
    LocalOK(s, w, wk);
    JobAfter(s, w, wk, after, NoEffect);
    EarlyParts(s, ApplyAct(s, w, after, NoEffect), w, wk, after);
  }

  lemma EarlyParts(s: State, t: State, w: nat, wk: Worker, after: Worker)
    requires WorkerOK(s, w, wk) && t == ApplyAct(s, w, after, NoEffect) && JobOK(t, after.job)
    requires EarlyStep(s, wk, after)
    ensures ActOK(s, w, wk, after, NoEffect)
  {
  }

  lemma GetSignerEarly(s: State, w: nat, wk: Worker, a: Answer)
    requires WorkerOK(s, w, wk) && wk.pc.GetSigner? && ActGetSigner(s, wk, a).Some?
    ensures EarlyStep(s, wk, ActGetSigner(s, wk, a).value.0) && ActGetSigner(s, wk, a).value.1 == NoEffect
  {
  }

  lemma GetKeyEarly(s: State, w: nat, wk: Worker, a: Answer)
    requires WorkerOK(s, w, wk) && wk.pc.GetKey? && ActGetKey(s, wk, a).Some?
    ensures EarlyStep(s, wk, ActGetKey(s, wk, a).value.0) && ActGetKey(s, wk, a).value.1 == NoEffect
  {
  }

  lemma CheckKeyEarly(s: State, w: nat, wk: Worker, a: Answer)
    requires WorkerOK(s, w, wk) && wk.pc.CheckKey? && ActCheckKey(s, wk, a).Some?
    ensures EarlyStep(s, wk, ActCheckKey(s, wk, a).value.0) && ActCheckKey(s, wk, a).value.1 == NoEffect
  {
  }

  lemma NewControllerEarly(s: State, w: nat, wk: Worker, a: Answer)
    requires WorkerOK(s, w, wk) && wk.pc.NewController? && ActNewController(s, wk, a).Some?
    ensures EarlyStep(s, wk, ActNewController(s, wk, a).value.0) && ActNewController(s, wk, a).value.1 == NoEffect
  {
    NewControllerChoice(s, wk, a);
  }

  lemma NewControllerChoice(s: State, wk: Worker, a: Answer)
    requires ActNewController(s, wk, a).Some?
    requires wk.job.SignJob? ==> wk.key.Some? && wk.job.spec.signer in s.keys && wk.key.value in s.keys[wk.job.spec.signer]
    ensures var r := ActNewController(s, wk, a).value;
            ChoiceOK(s, r.0) && r.1 == NoEffect && r.0.pod.Some? && FreshName(s, r.0.pod.value) && r.0.pc.CreatePod?
            && r.0.job == wk.job && r.0.deleted == wk.deleted
  {
  }

  // ---------------------------------------------------------------- starting the pod

  lemma NewPodOK(w: nat, wk: Worker)
    ensures PodOK(NewPod(w, wk))
  {
  }

  lemma CreatedOK(s: State, w: nat, wk: Worker)
    requires WorkerOK(s, w, wk) && wk.pc.CreatePod?
    ensures var after := wk.(pc := WaitPod(0));
            InPodOK(ApplyAct(s, w, after, PutPod(NewPod(w, wk))), w, after)
  {
  }

  lemma NewPodEffect(s: State, w: nat, wk: Worker, after: Worker)
    requires WorkerOK(s, w, wk) && wk.pc.CreatePod? && SameRun(wk, after)
    ensures EffectOK(s, w, after, PutPod(NewPod(w, wk)))
  {
    NewPodOK(w, wk);
  }

  lemma CreatePodOK(s: State, w: nat, wk: Worker, a: Answer)
    requires Local(s, w, wk) && wk.pc.CreatePod? && ActCreatePod(s, w, wk, a).Some?
    ensures var r := ActCreatePod(s, w, wk, a).value; ActOK(s, w, wk, r.0, r.1)
  {
    hide ActOK, EffectOK, HistoriesOK, KeysOK, ChoiceOK, JobOK, PodOK, InPodOK, InitialFiles;
    var r := ActCreatePod(s, w, wk, a).value;
    LocalOK(s, w, wk);
    match a
    case Accepted =>
      NewPodEffect(s, w, wk, r.0);
      CreatedOK(s, w, wk);
      StayOK(s, w, wk, r.0, r.1);
    case Lost(msg) =>
      NewPodEffect(s, w, wk, wk.Fail(msg, Close));
      FailOK(s, w, wk, msg, r.1);
    case Refused(msg) =>
      NoEffectOK(s, w, r.0);
      FailOK(s, w, wk, msg, r.1);
    case Exists => TakenOK(s, w, wk);
  }

  /** Waiting ends in a failure, or goes on, or ends with the pod running. */
  predicate Waited(s: State, wk: Worker, after: Worker) {
    && SameRun(wk, after) && after.job == wk.job && after.deleted == wk.deleted && wk.pod.Some? && wk.pod.value in s.pods
    && (after.pc.WaitPod? || (s.pods[wk.pod.value].running && after.pc == if wk.job.SignJob? then LoadImage else MakeDir))
  }

  lemma WaitLeads(s: State, wk: Worker, a: Answer) returns (reason: string)
    requires wk.pc.WaitPod? && ActWaitPod(s, wk, wk.pc.tries, a).Some?
    ensures var r := ActWaitPod(s, wk, wk.pc.tries, a).value;
            r.1 == NoEffect && (r.0 == wk.Fail(reason, Close) || Waited(s, wk, r.0))
  {
    reason := if a.Missing? then a.msg else "pod is not running";
  }

  lemma WaitedOK(s: State, t: State, w: nat, wk: Worker, after: Worker)
    requires InPodOK(s, w, wk) && wk.pc.WaitPod? && t.pods == s.pods && Waited(s, wk, after)
    ensures InPodOK(t, w, after)
  {
  }

  lemma WaitedOn(s: State, w: nat, wk: Worker, after: Worker)
    requires Local(s, w, wk) && InPodOK(s, w, wk) && wk.pc.WaitPod? && Waited(s, wk, after)
    ensures ActOK(s, w, wk, after, NoEffect)
  {
    hide ActOK, Local, InPodOK;
    NoEffectOK(s, w, after);
    WaitedOK(s, ApplyAct(s, w, after, NoEffect), w, wk, after);
    StayOK(s, w, wk, after, NoEffect);
  }

  lemma WaitPodOK(s: State, w: nat, wk: Worker, a: Answer)
    requires Local(s, w, wk) && wk.pc.WaitPod? && ActWaitPod(s, wk, wk.pc.tries, a).Some?
    ensures var r := ActWaitPod(s, wk, wk.pc.tries, a).value; ActOK(s, w, wk, r.0, r.1)
  {
    hide ActOK, EffectOK, Local, ActWaitPod, Waited;
    var r := ActWaitPod(s, wk, wk.pc.tries, a).value;
    var reason := WaitLeads(s, wk, a);
    NoEffectOK(s, w, r.0);
    if r.0 == wk.Fail(reason, Close) {
      FailOK(s, w, wk, reason, NoEffect);
    } else {
      LocalOK(s, w, wk);
      WaitedOn(s, w, wk, r.0);
    }
  }

  // ---------------------------------------------------------------- commands

  lemma AstrayMore(opt: CommandOpt, trace: seq<Executed>, e: Executed)
    ensures Astray(opt, trace + [e]) <==> Astray(opt, trace) || !ReadAsMeant(e.command)
  {
    hide AllSafe, RestoredKeys, ReadAsMeant;
    var more := trace + [e];
    if Astray(opt, trace) {
      AstrayStays(opt, trace, more);
    }
    assert more[|trace|] == e;
    forall i | 0 <= i < |trace| ensures more[i] == trace[i] {}
  }

  lemma BelievedMore(opt: CommandOpt, trace: seq<Executed>, e: Executed)
    requires Believed(opt, trace) && (e.ok && !Astray(opt, trace + [e]) ==> Takes(opt, e.command))
    ensures Believed(opt, trace + [e])
  {
    hide Astray, Takes;
    var more := trace + [e];
    forall i | 0 <= i < |more| && more[i].ok && !Astray(opt, more[..i + 1]) ensures Takes(opt, more[i].command) {
      if i < |trace| {
        assert more[..i + 1] == trace[..i + 1];
      } else {
        assert more[..i + 1] == more;
      }
    }
  }

  /** A run whose request is legible hands plain words to the shell, as long as its pod has not gone astray. */
  lemma PlainNext(wk: Worker, pod: Pod)
    requires PointOK(wk, pod) && PodOf(pod, wk) && NextCommand(wk).Some? && !Astray(pod.opt, pod.trace)
    requires wk.job.SignJob? ==> Legible(wk.job.spec, wk.regctl)
    ensures ReadAsMeant(NextCommand(wk).value)
  {
    hide Astray, TraceOK, ReadAsMeant, PlainWord, KeyPath, ImageRef, ArchivePath;
    ReadAsMeantIff(NextCommand(wk).value);
    if wk.pc.ReadKeys? {
      assert SafeName(wk.pc.names[0]);
      KeyPathPlain(wk.pc.names[0]);
    }
  }

  lemma StraightMore(wk: Worker, pod: Pod, a: Answer)
    requires PointOK(wk, pod) && PodOf(pod, wk) && Straight(wk.job, pod) && NextCommand(wk).Some? && a.Ran?
    ensures Straight(wk.job, AfterRun(pod, NextCommand(wk).value, a))
  {
    hide Astray, PointOK, Legible, ReadAsMeant, NextCommand, AllSafe, RestoredKeys;
    var command := NextCommand(wk).value;
    AstrayMore(pod.opt, pod.trace, Executed(command, a.ok, a.text));
    if !Astray(pod.opt, pod.trace) && (wk.job.SignJob? ==> Legible(wk.job.spec, wk.regctl)) {
      PlainNext(wk, pod);
    }
  }

  lemma RanOK(pod: Pod, command: Command, a: Answer)
    requires PodOK(pod) && a.Ran?
    requires Astray(pod.opt, AfterRun(pod, command, a).trace) || Plausible(pod, command, a)
    ensures PodOK(AfterRun(pod, command, a)) && PodGrows(pod, AfterRun(pod, command, a))
  {
    hide Astray, Takes, Prints, GeneratedFile, InitialFiles, Mountable, Environment, Believed;
    BelievedMore(pod.opt, pod.trace, Executed(command, a.ok, a.text));
  }

  /** What a command does to its pod. */
  lemma ExecOK(s: State, w: nat, wk: Worker, a: Answer, after: Worker)
    requires InPodOK(s, w, wk) && PodOK(s.pods[wk.pod.value]) && s.pods[wk.pod.value].owner == w
    requires PodOf(s.pods[wk.pod.value], wk) && Straight(wk.job, s.pods[wk.pod.value]) && SameRun(wk, after)
    requires a.Ran? && NextCommand(wk).Some? && Exec(s, wk, NextCommand(wk).value, a).Some?
    ensures var e := Exec(s, wk, NextCommand(wk).value, a).value;
            && EffectOK(s, w, after, e) && (a.ok ==> e.PutPod?)
            && (e.PutPod? ==> e.pod == AfterRun(s.pods[wk.pod.value], NextCommand(wk).value, a) && e.pod.running)
  {
    hide Astray, PodOK, PointOK, Plausible, NextCommand, Straight, AfterRun, PodGrows;
    var pod, command := s.pods[wk.pod.value], NextCommand(wk).value;
    if pod.live && pod.running {
      RanOK(pod, command, a);
      StraightMore(wk, pod, a);
      StraightFor(wk.job, after.job, AfterRun(pod, command, a));
      OwnerStays(pod, command, a);
    }
  }

  lemma OwnerStays(pod: Pod, command: Command, a: Answer)
    requires a.Ran?
    ensures AfterRun(pod, command, a).owner == pod.owner && AfterRun(pod, command, a).running == pod.running
    ensures AfterRun(pod, command, a).opt == pod.opt && AfterRun(pod, command, a).registry == pod.registry
  {
    hide Astray;
  }

  /** Where a successful command may lead: to another point in the pod, or out with a justified status. */
  ghost predicate NextOK(s: State, w: nat, wk: Worker, next: Worker, pod: Pod) {
    && SameRun(wk, next) && next.deleted == wk.deleted && wk.pod.Some?
    && (if InPod(next.pc) then next.job == wk.job && PointOK(next, pod)
        else next.pc.Close? && JobOK(ApplyAct(s, w, next, PutPod(pod)), next.job))
  }

  /** What may be relied on where the run goes on: the pod is as it should be, and where not astray, the answer is so too. */
  ghost predicate RanHere(s: State, w: nat, wk: Worker, a: Answer) {
    && wk.pod.Some? && wk.pod.value in s.pods && a.Ran? && a.ok && NextCommand(wk).Some?
    && var pod, after := s.pods[wk.pod.value], AfterRun(s.pods[wk.pod.value], NextCommand(wk).value, a);
       && (Astray(pod.opt, after.trace) || Plausible(pod, NextCommand(wk).value, a))
       && after.running && after.owner == w && PodOK(after) && PodGrows(pod, after) && PodOf(after, wk) && Straight(wk.job, after)
  }

  lemma RunsHere(s: State, w: nat, wk: Worker, a: Answer)
    requires Local(s, w, wk) && InPod(wk.pc) && ActCommand(s, wk, a).Some? && a.ok
    ensures RanHere(s, w, wk, a)
  {
    hide Astray, PodOK, PointOK, Plausible, NextCommand, Straight, AfterRun, PodGrows, HistoriesOK, KeysOK, WorkerOK,
         JobOK, ChoiceOK;
    LocalOK(s, w, wk);
    var pod, command := s.pods[wk.pod.value], NextCommand(wk).value;
    assert pod.live && pod.running;
    RanOK(pod, command, a);
    StraightMore(wk, pod, a);
    OwnerStays(pod, command, a);
  }

  /** A command whose success leads where it may. */
  lemma CommandOK(s: State, w: nat, wk: Worker, a: Answer)
    requires Local(s, w, wk) && InPod(wk.pc) && ActCommand(s, wk, a).Some?
    requires a.ok ==> NextOK(s, w, wk, AfterCommand(wk, true, a.text), AfterRun(s.pods[wk.pod.value], NextCommand(wk).value, a))
    ensures var r := ActCommand(s, wk, a).value; ActOK(s, w, wk, r.0, r.1)
  {
    hide ActOK, EffectOK, HistoriesOK, KeysOK, WorkerOK, PodOK, JobOK, ChoiceOK, PointOK, NextCommand, AfterRun,
         Astray, Plausible,
         Straight;
    LocalOK(s, w, wk);
    var command := NextCommand(wk).value;
    var e := Exec(s, wk, command, a).value;
    if !a.ok {
      ExecOK(s, w, wk, a, wk.Fail(a.text, Close));
      OwnerStays(s.pods[wk.pod.value], command, a);
      FailOK(s, w, wk, a.text, e);
    } else {
      var next := AfterCommand(wk, true, a.text);
      ExecOK(s, w, wk, a, next);
      OwnerStays(s.pods[wk.pod.value], command, a);
      if InPod(next.pc) {
        StayOK(s, w, wk, next, e);
      } else {
        LeaveOK(s, w, wk, next, e);
      }
    }
  }

  /** A panic leaves the status as it was, a failure is no success. */
  lemma SilentExit(s: State, w: nat, wk: Worker, next: Worker, pod: Pod)
    requires HistoriesOK(s) && InPodOK(s, w, wk) && JobOK(s, wk.job) && Unanswered(wk.job)
    requires SameRun(wk, next) && next.deleted == wk.deleted && next.pc.Close?
    requires next.job == wk.job || !Successful(next.job)
    requires pod.owner == w && PodOK(pod) && PodGrows(s.pods[wk.pod.value], pod) && Straight(wk.job, pod)
    ensures NextOK(s, w, wk, next, pod)
  {
    hide Straight, PodOK, SuccessOK, HistoriesOK, PointOK;
    StraightFor(wk.job, next.job, pod);
    EffectExtends(s, w, next, PutPod(pod));
    JobKept(s, ApplyAct(s, w, next, PutPod(pod)), wk.job);
    ExitJob(ApplyAct(s, w, next, PutPod(pod)), wk.job, next.job);
  }

  lemma ExitJob(t: State, job: Job, next: Job)
    requires JobOK(t, job) && SameJob(job, next) && (next == job || !Successful(next))
    ensures JobOK(t, next)
  {
  }

  lemma LoadImageNext(s: State, w: nat, wk: Worker, a: Answer)
    requires InPodOK(s, w, wk) && wk.pc.LoadImage? && wk.job.SignJob? && a.Ran? && a.ok
    ensures NextOK(s, w, wk, wk.(pc := ListImages), AfterRun(s.pods[wk.pod.value], LoadCmd(wk.job.spec), a))
  {
    hide ArchivePath, ImageRef, Fields, JobOK, GoodKey, Holds, SafeName, Astray;
  }

  lemma TagImageNext(s: State, w: nat, wk: Worker, a: Answer)
    requires InPodOK(s, w, wk) && wk.pc.TagImage? && wk.job.SignJob? && wk.regctl.Some? && a.Ran? && a.ok
    ensures NextOK(s, w, wk, wk.(pc := Sign),
                   AfterRun(s.pods[wk.pod.value], Tag(wk.pc.imageId, ImageRef(wk.job.spec, wk.regctl.value)), a))
  {
    hide ArchivePath, ImageRef, Fields, JobOK, GoodKey, Holds, SafeName, Astray;
    assert Fields(s.pods[wk.pod.value].trace[1].output)[0] == wk.pc.imageId;
  }

  lemma RootStepNext(s: State, w: nat, wk: Worker, next: Worker, command: Command, a: Answer)
    requires InPodOK(s, w, wk) && a.Ran? && wk.job.RootJob?
    requires (wk.pc.MakeDir? && next == wk.(pc := Generate)) || (wk.pc.Generate? && next == wk.(pc := ListKeys))
    ensures NextOK(s, w, wk, next, AfterRun(s.pods[wk.pod.value], command, a))
  {
    hide Astray;
  }
}
