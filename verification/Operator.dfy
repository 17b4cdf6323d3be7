/**
 The world as one run of Reconcile sees it: a cluster that others act on between any two of its calls, and that
 may kill it at any call.
 */
module Operator {
  import opened Wrappers
  import opened ApiTypes
  import opened Naming
  import opened CommandOptions
  import opened Commands
  import opened Protocol
  import opened ProtocolInvariant
  import opened ProtocolActs
  import opened ProtocolKeys
  import opened ProtocolRuns
  import opened Objects

  /** How a Go call ends: the process died in it, it panicked, it returned an error, or it returned a value. */
  datatype Flow<+T> = Died | Panicked | Erred(error: string) | Back(value: T) {
    predicate IsFailure() { !Back? }

    function PropagateFailure<U>(): Flow<U>
      requires IsFailure()
    {
      match this
      case Died => Died
      case Panicked => Panicked
      case Erred(e) => Erred(e)
    }

    function Extract(): T
      requires Back?
    {
      value
    }
  }

  /** Events in which run `w` has no part. */
  predicate ByOthers(e: Event, w: nat) {
    match e
    case StartSign(x, _, _) => x != w
    case StartRoot(x, _, _) => x != w
    case Do(x, _) => x != w
    case Crash(x) => x != w
    case _ => true
  }

  predicate AllByOthers(events: seq<Event>, w: nat) { forall i :: 0 <= i < |events| ==> ByOthers(events[i], w) }

  lemma OthersKeepRun(s: State, e: Event, w: nat)
    requires ByOthers(e, w)
    ensures w in Step(s, e).workers <==> w in s.workers
    ensures w in s.workers ==> Step(s, e).workers[w] == s.workers[w]
  {
    hide Act, StepOutside;
    if !ByOperator(e) {
      OutsideWorkers(s, e);
    }
  }

  lemma {:induction false} OthersKeepRunAlways(s: State, events: seq<Event>, w: nat)
    requires AllByOthers(events, w)
    ensures w in Run(s, events).workers <==> w in s.workers
    ensures w in s.workers ==> Run(s, events).workers[w] == s.workers[w]
    decreases |events|
  {
    hide Step;
    if events != [] {
      assert ByOthers(events[0], w);
      OthersKeepRun(s, events[0], w);
      OthersKeepRunAlways(Step(s, events[0]), events[1..], w);
    }
  }

  predicate Calling(pc: Pc) { !pc.Done? && !pc.Crashed? }

  lemma RunThen(events: seq<Event>, e: Event)
    ensures Run(Empty, events + [e]) == Step(Run(Empty, events), e)
  {
    hide Step;
    RunAppend(Empty, events, [e]);
    assert [e][1..] == [];
    assert Run(Run(Empty, events), [e]) == Run(Step(Run(Empty, events), e), []);
  }

  /** `mid` comes after `before`, and run `w` is still where it was. */
  ghost predicate Between(before: State, mid: State, w: nat, wk: Worker) {
    Inv(mid) && Extends(before, mid) && RunsGrow(before, mid) && w in mid.workers && mid.workers[w] == wk
  }

  lemma BetweenIs(before: State, mid: State, w: nat, wk: Worker)
    requires Between(before, mid, w, wk)
    ensures Inv(mid) && w in mid.workers && mid.workers[w] == wk
  {
  }

  lemma NewPodIs(w: nat, wk: Worker)
    ensures var pod := NewPod(w, wk);
            pod.owner == w && pod.opt == wk.opt && pod.live && !pod.running && pod.trace == []
  {
    hide InitialFiles;
  }

  lemma ResponseSet(s: State, w: nat, wk: Worker)
    requires wk.job.SignJob? && Current(s, wk.job)
    ensures var t, id := ApplyAct(s, w, wk, SetResponse), wk.job.request;
            id in t.requests && t.requests[id].versions != [] && Last(t.requests[id].versions).status == wk.job.response
  {
  }

  lemma StateSet(s: State, w: nat, wk: Worker)
    requires wk.job.RootJob? && Current(s, wk.job)
    ensures var t, n := ApplyAct(s, w, wk, SetState), wk.job.signer;
            n in t.signers && t.signers[n] != [] && Last(t.signers[n]) == wk.job.state
  {
  }

  lemma CallAnswered(s: State, w: nat, a: Answer)
    requires w in s.workers && Act(s, w, s.workers[w], a).Some?
    ensures var r := Act(s, w, s.workers[w], a).value;
            var t := Step(s, Do(w, a));
            t == ApplyAct(s, w, r.0, r.1) && w in t.workers && t.workers[w] == r.0
  {
    hide Act;
  }

  /** The stored key of this signer has this entry now, and nothing else is different about it. */
  ghost predicate GainsEntry(before: State, after: State, n: string, t: string, k: TrustKey) {
    && n in before.keys && before.keys[n] != [] && n in after.keys && after.keys[n] != []
    && Last(after.keys[n]).root == Last(before.keys[n]).root
    && Last(after.keys[n]).targets == Some(Last(before.keys[n]).Entries()[t := k])
    && forall m :: m != n ==> (m in after.keys <==> m in before.keys) && (m in before.keys ==> after.keys[m] == before.keys[m])
  }

  lemma Patches(s: State, w: nat, wk: Worker)
    requires Inv(s) && w in s.workers && s.workers[w] == wk && wk.pc.PatchKey? && Act(s, w, wk, Accepted).Some?
    ensures wk.job.SignJob?
    ensures var r := Act(s, w, wk, Accepted).value;
            && r.0 == Succeed(wk)
            && GainsEntry(s, ApplyAct(s, w, r.0, r.1), wk.job.spec.signer, TargetName(wk.job.spec), wk.pc.found)
  {
    hide Inv, HistoriesOK, KeysOK, ChoiceOK, InPodOK, PodOK, TargetName, SignerKeyJson.Patched, Strange, Act, Local,
         PodOf, ApplyAct;
    InvLocal(s, w);
    PodHere(s, w, wk);
    PatchEffect(s, w, wk);
    PatchIs(s, w, wk);
    Gains(s, w, wk, PatchedSpec(s, wk), Strange(s, wk, wk.pc.found));
  }

  lemma PatchIs(s: State, w: nat, wk: Worker)
    requires wk.pc.PatchKey? && wk.job.SignJob? && wk.key.Some? && Act(s, w, wk, Accepted).Some?
    ensures wk.job.spec.signer in s.keys && s.keys[wk.job.spec.signer] != []
    ensures var patched := SignerKeyJson.Patched(wk.key.value, TargetName(wk.job.spec), wk.pc.found,
                                                 Last(s.keys[wk.job.spec.signer]));
            && patched.Some?
            && Act(s, w, wk, Accepted).value == (Succeed(wk), AddKeyVersion(patched.value, Strange(s, wk, wk.pc.found)))
  {
    hide ActCommand, TargetName, SignerKeyJson.Patched, Strange;
  }

  lemma Gains(s: State, w: nat, wk: Worker, spec: SignerKeySpec, strange: set<TrustKey>)
    requires wk.job.SignJob? && wk.job.spec.signer in s.keys && s.keys[wk.job.spec.signer] != []
    requires wk.pc.PatchKey? && spec == Last(s.keys[wk.job.spec.signer]).WithTarget(TargetName(wk.job.spec), wk.pc.found)
    ensures GainsEntry(s, ApplyAct(s, w, Succeed(wk), AddKeyVersion(spec, strange)), wk.job.spec.signer,
                       TargetName(wk.job.spec), wk.pc.found)
  {
    hide TargetName;
  }

  lemma PodHere(s: State, w: nat, wk: Worker)
    requires Local(s, w, wk) && wk.pc.PatchKey?
    ensures HistoriesOK(s) && KeysOK(s) && InPodOK(s, w, wk) && ChoiceOK(s, wk)
    ensures PodOK(s.pods[wk.pod.value]) && PodOf(s.pods[wk.pod.value], wk)
  {
    hide HistoriesOK, KeysOK, PodOK, PointOK, ChoiceOK, JobOK;
    LocalOK(s, w, wk);
  }

  lemma CallCut(s: State, w: nat)
    requires w in s.workers && Calling(s.workers[w].pc)
    ensures Step(s, Crash(w)) == s.(workers := s.workers[w := s.workers[w].(pc := Crashed)])
  {
    hide Act;
  }

  lemma CommandCalls(wk: Worker)
    requires NextCommand(wk).Some?
    ensures Calling(wk.pc)
  {
    hide LoadCmd, ImageRef;
  }

  lemma CommandEnds(s: State, wk: Worker, a: Answer)
    requires ActCommand(s, wk, a).Some?
    ensures a.Ran? && ActCommand(s, wk, a).value.0 == AfterCommand(wk, a.ok, a.text)
    ensures !a.ok ==> AfterCommand(wk, a.ok, a.text) == wk.Fail(a.text, Close)
  {
    hide Protocol.Exec, NextCommand;
  }

  /** A SignerKey object for a spec the API server returned. */
  method Decoded(name: string, spec: SignerKeySpec) returns (k: SignerKey)
    ensures fresh(k) && k.name == name && k.Spec() == spec && (k.targets != null ==> fresh(k.targets))
  {
    var targets: TargetMap? := null;
    if spec.targets.Some? {
      targets := new TargetMap();
      targets.m := spec.targets.value;
    }
    k := new SignerKey(name, spec.root, targets);
  }

  /** The structs behind the status pointers of the objects it returned. */
  method DecodedResponse(stored: Option<ImageSignResponse>) returns (cell: ResponseCell?)
    ensures if stored.None? then cell == null else cell != null && fresh(cell) && cell.Value() == stored.value
  {
    cell := null;
    if stored.Some? {
      cell := new ResponseCell();
      cell.result, cell.reason, cell.message := stored.value.result, stored.value.reason, stored.value.message;
    }
  }

  method DecodedState(stored: Option<SignerKeyState>) returns (cell: StateCell?)
    ensures if stored.None? then cell == null else cell != null && fresh(cell) && cell.Value() == stored.value
  {
    cell := null;
    if stored.Some? {
      cell := new StateCell();
      cell.created, cell.reason := stored.value.created, stored.value.reason;
      cell.message, cell.rootKeyID := stored.value.message, stored.value.rootKeyID;
    }
  }

  /** The error a caller makes of the last answer it got. */
  predicate FailsWith(a: Answer, e: string) {
    match a
    case Missing(msg) => e == msg
    case Lost(msg) => e == msg
    case Refused(msg) => e == msg
    case Phase(_) => e == "pod is not running"
    case Ran(ok, text, _) => if ok then e == "image is not found" || e == "key file not found" else e == text
    case _ => false
  }

  lemma OwnErrors(a: Answer)
    ensures a.Phase? ==> FailsWith(a, "pod is not running")
    ensures a.Ran? && a.ok ==> FailsWith(a, "image is not found") && FailsWith(a, "key file not found")
  {
  }

  class Cluster {
    var s: State
    ghost var events: seq<Event>

    /** The answers to all calls so far, and the texts handed to a shell. */
    ghost var log: seq<Answer>
    ghost var asked: seq<string>

    /** The state is the one `events` lead to. */
    ghost predicate Valid()
      reads this
    {
      s == Run(Empty, events) && Inv(s)
    }

    /** Valid, and nothing that had happened, or been answered, is undone. */
    ghost predicate Continues(before: seq<Event>, seen: seq<Answer>)
      reads this
    {
      Valid() && before <= events && seen <= log
    }

    /** One more call was answered. */
    ghost predicate OneMore(before: seq<Answer>)
      reads this
    {
      log != [] && log == before + [Last(log)]
    }

    ghost predicate At(w: nat, wk: Worker)
      reads this
    {
      w in s.workers && s.workers[w] == wk
    }

    /** One more call was answered, with what a command printed or with its error. */
    ghost predicate Printed(before: seq<Answer>, r: Flow<string>)
      reads this
    {
      && OneMore(before) && Last(log).Ran? && Last(log).ok == r.Back?
      && (r.Back? ==> Last(log).text == r.value) && (r.Erred? ==> Last(log).text == r.error)
    }

    /** The process died in run `w`. */
    ghost predicate Gone(w: nat, wk: Worker)
      reads this
    {
      w in s.workers && s.workers[w].pc.Crashed? && SameJob(wk.job, s.workers[w].job)
    }

    /** This version of a signer's key is stored. */
    ghost predicate StoredAs(name: string, version: nat, key: SignerKeySpec)
      reads this
    {
      name in s.keys && version < |s.keys[name]| && s.keys[name][version] == key
    }

    /** How a call that brings no value leaves a run that has a pod to close. */
    ghost predicate Leaves<T>(w: nat, wk: Worker, r: Flow<T>)
      reads this
    {
      match r
      case Died => Gone(w, wk)
      case Panicked => At(w, wk.Panic())
      case Erred(e) => At(w, wk.Fail(e, Close)) && log != [] && FailsWith(Last(log), e)
      case Back(_) => true
    }

    constructor ()
      ensures Valid() && events == [] && s == Empty && log == [] && asked == []
    {
      s, events, log, asked := Empty, [], [], [];
      new;
      EmptyInv();
    }

    method Happen(e: Event)
      requires Valid()
      modifies this`s, this`events
      ensures Continues(old(events), old(log)) && s == Step(old(s), e)
    {
      hide Inv, Step;
      StepKeepsInv(s, e);
      RunThen(events, e);
      s, events := Step(s, e), events + [e];
    }

    /** Anybody else does anything: other runs, other processes, the outside world. */
    method Interfere(w: nat)
      requires Valid()
      modifies this`s, this`events
      ensures Continues(old(events), old(log))
      ensures w in s.workers <==> w in old(s).workers
      ensures w in s.workers ==> s.workers[w] == old(s).workers[w]
      ensures Inv(s) && Extends(old(s), s) && RunsGrow(old(s), s)
    {
      hide Inv, Run, Extends, RunsGrow;
      ExtendsSelf(s);
      var others: seq<Event> := *;
      if AllByOthers(others, w) {
        RunKeepsInv(s, others);
        OthersKeepRunAlways(s, others, w);
        RunAppend(Empty, events, others);
        s, events := Run(s, others), events + others;
      }
    }

    /**
     The pending call of run `w`: others act first, then it is answered in some possible way, or the process dies.
     `mid` is the state it is answered in. A passphrase the run has drawn already is part of the answer.
     */
    method Call(w: nat, ghost wk: Worker, pass: Option<string>) returns (r: Flow<Answer>, ghost mid: State)
      requires Valid() && At(w, wk) && Calling(wk.pc)
      modifies this`s, this`events, this`log
      ensures Continues(old(events), old(log)) && (r.Died? || r.Back?)
      ensures r.Died? ==> Gone(w, wk)
      ensures r.Back? ==> Act(mid, w, wk, r.value).Some? && At(w, Act(mid, w, wk, r.value).value.0)
      ensures r.Back? ==> s == ApplyAct(mid, w, Act(mid, w, wk, r.value).value.0, Act(mid, w, wk, r.value).value.1)
      ensures r.Back? ==> log == old(log) + [r.value] && Between(old(s), mid, w, wk)
      ensures r.Back? && r.value.Chosen? && pass.Some? ==> r.value.pass == pass.value
    {
      hide Inv, Act, Run, Step, ApplyAct, Extends, RunsGrow;
      Interfere(w);
      mid := s;
      var answer: Answer := *;
      if answer.Chosen? && pass.Some? {
        answer := answer.(pass := pass.value);
      }
      if Act(s, w, s.workers[w], answer).Some? {
        CallAnswered(s, w, answer);
        Happen(Do(w, answer));
        log := log + [answer];
        r := Back(answer);
      } else {
        CallCut(s, w);
        Happen(Crash(w));
        r := Died;
      }
    }

    /** r.Get of a request: some version, maybe an old one. If it is not answered yet, run `w` begins. */
    method GetRequest(w: nat, id: RequestId) returns (r: Flow<ImageSignRequest>)
      requires Valid() && w !in s.workers
      modifies this`s, this`events, this`log
      ensures Continues(old(events), old(log)) && (r.Erred? || r.Back?) && OneMore(old(log))
      ensures r.Erred? ==> Last(log).Missing? && w !in s.workers
      ensures r.Back? ==>
                && fresh(r.value) && Last(log).Found? && id in s.requests && Last(log).version < |s.requests[id].versions|
                && s.requests[id].versions[Last(log).version] == Request(r.value.spec, r.value.Response())
      ensures r.Back? && r.value.Response().Some? ==> w !in s.workers
      ensures r.Back? && r.value.Response().None? ==>
                At(w, SignWorker(id, Last(log).version, Request(r.value.spec, None)))
    {
      hide Inv, Act, Run;
      Interfere(w);
      var version: int := *;
      if id !in s.requests || !(0 <= version < |s.requests[id].versions|) {
        log := log + [Missing("not found")];
        return Erred("not found");
      }
      var stored := s.requests[id].versions[version];
      var cell := DecodedResponse(stored.status);
      var signReq := new ImageSignRequest(stored.spec, cell);
      Happen(StartSign(w, id, version));
      log := log + [Found(version)];
      r := Back(signReq);
    }

    /** r.Get of a signer, likewise. */
    method GetSignerToServe(w: nat, name: string) returns (r: Flow<ImageSigner>)
      requires Valid() && w !in s.workers
      modifies this`s, this`events, this`log
      ensures Continues(old(events), old(log)) && (r.Erred? || r.Back?) && OneMore(old(log))
      ensures r.Erred? ==> Last(log).Missing? && w !in s.workers
      ensures r.Back? ==>
                && fresh(r.value) && r.value.name == name && Last(log).Found?
                && name in s.signers && Last(log).version < |s.signers[name]|
                && s.signers[name][Last(log).version] == r.value.State()
      ensures r.Back? && Created(r.value.State()) ==> w !in s.workers
      ensures r.Back? && !Created(r.value.State()) ==> At(w, RootWorker(name, Last(log).version, r.value.State()))
    {
      hide Inv, Act, Run;
      Interfere(w);
      var version: int := *;
      if name !in s.signers || !(0 <= version < |s.signers[name]|) {
        log := log + [Missing("not found")];
        return Erred("not found");
      }
      var stored := s.signers[name][version];
      var cell := DecodedState(stored);
      var signer := new ImageSigner(name, cell);
      Happen(StartRoot(w, name, version));
      log := log + [Found(version)];
      r := Back(signer);
    }

    /** r.Get of the signer a request names; only the error matters. */
    method GetSigner(w: nat, ghost wk: Worker, name: string) returns (r: Flow<()>)
      requires Valid() && At(w, wk) && wk.pc.GetSigner? && name == wk.job.Signer()
      modifies this`s, this`events, this`log
      ensures Continues(old(events), old(log)) && !r.Panicked?
      ensures r.Died? ==> Gone(w, wk)
      ensures !r.Died? ==> OneMore(old(log))
      ensures r.Erred? ==> At(w, wk.Fail(r.error, Respond)) && Last(log) == Missing(r.error)
      ensures r.Back? ==> At(w, wk.(pc := GetKey)) && Last(log).Found?
    {
      hide Inv, Run, Between;
      var a, mid :- Call(w, wk, None);
      r := if a.Missing? then Erred(a.msg) else Back(());
    }

    method GetSignerKey(w: nat, ghost wk: Worker, name: string) returns (r: Flow<SignerKey>)
      requires Valid() && At(w, wk) && wk.pc.GetKey? && name == wk.job.Signer()
      modifies this`s, this`events, this`log
      ensures Continues(old(events), old(log)) && !r.Panicked?
      ensures r.Died? ==> Gone(w, wk)
      ensures !r.Died? ==> OneMore(old(log))
      ensures r.Erred? ==> At(w, wk.Fail(r.error, Respond)) && Last(log) == Missing(r.error)
      ensures r.Back? ==> fresh(r.value) && At(w, wk.(key := Some(r.value.Spec()), pc := NewController))
      ensures r.Back? ==> Last(log).Found? && StoredAs(name, Last(log).version, r.value.Spec())
      ensures r.Back? && r.value.targets != null ==> fresh(r.value.targets)
    {
      hide Inv, Run, Between;
      var a, mid :- Call(w, wk, None);
      if a.Missing? {
        return Erred(a.msg);
      }
      var key := Decoded(name, s.workers[w].key.value);
      r := Back(key);
    }

    /** The same lookup with its error ignored: the name in the result is empty if nothing was found. */
    method FindSignerKey(w: nat, ghost wk: Worker, name: string) returns (r: Flow<string>)
      requires Valid() && At(w, wk) && wk.pc.CheckKey? && name == wk.job.Signer() && name != ""
      modifies this`s, this`events, this`log
      ensures Continues(old(events), old(log)) && (r.Died? || r.Back?)
      ensures r.Died? ==> Gone(w, wk)
      ensures r.Back? ==> At(w, wk.(pc := if r.value != "" then Respond else NewController))
      ensures r.Back? ==> OneMore(old(log)) && if r.value != "" then Last(log).Found? else Last(log).Missing?
    {
      hide Inv, Run, Between;
      var a, mid :- Call(w, wk, None);
      r := Back(if a.Missing? then "" else name);
    }

    /** Drawing a pod name and looking up the registry; the passphrase of a run that needs one is `pass`. */
    method Setup(w: nat, ghost wk: Worker, pass: Option<string>) returns (r: Flow<Answer>)
      requires Valid() && At(w, wk) && wk.pc.NewController?
      modifies this`s, this`events, this`log
      ensures Continues(old(events), old(log)) && (r.Died? || r.Back?)
      ensures r.Died? ==> Gone(w, wk)
      ensures r.Back? ==> r.value.Chosen? && At(w, Choose(wk, r.value.pass, r.value.suffix, r.value.registry))
      ensures r.Back? ==> log == old(log) + [r.value] && RandomString(r.value.suffix, 10)
      ensures r.Back? && pass.Some? ==> r.value.pass == pass.value
    {
      hide Inv, Run, Choose, RandomString, FreshName, Between;
      var a, mid :- Call(w, wk, pass);
      r := Back(a);
    }

    /** Create of the signing pod: Back(false) is the error AlreadyExists. */
    method CreatePod(w: nat, ghost wk: Worker, pod: DindPod.Pod) returns (r: Flow<bool>)
      requires Valid() && At(w, wk) && wk.pc.CreatePod? && wk.pod == Some(NamespacedName(pod.namespace, pod.name))
      requires DindPod.EnvFrom(pod.env, DindPod.StartOptions(wk.opt))
      requires pod.volumes == DindPod.Volumes(DindPod.StartOptions(wk.opt))
      requires pod.mounts == DindPod.Mounts(DindPod.StartOptions(wk.opt))
      requires pod.postStart == Some(["/bin/sh", "-c", Script(wk.opt)])
      modifies this`s, this`events, this`log
      ensures Continues(old(events), old(log)) && !r.Panicked? && Leaves(w, wk, r)
      ensures !r.Died? ==> OneMore(old(log))
      ensures r.Back? && r.value ==> At(w, wk.(pc := WaitPod(0))) && Last(log).Accepted?
      ensures r.Back? && r.value ==>
                var p := NamespacedName(pod.namespace, pod.name);
                p in s.pods && s.pods[p].owner == w && s.pods[p].opt == wk.opt && s.pods[p].live && s.pods[p].trace == []
      ensures r.Back? && !r.value ==> At(w, NameTaken(wk)) && Last(log).Exists?
      ensures r.Erred? ==> Last(log).Lost? || Last(log).Refused?
    {
      hide Inv, Run, NewPod, Script, DindPod.Volumes, DindPod.Mounts, DindPod.StartOptions, DindPod.EnvFrom, Between;
      var a, mid :- Call(w, wk, None);
      NewPodIs(w, wk);
      match a
      case Accepted => r := Back(true);
      case Lost(msg) => r := Erred(msg);
      case Refused(msg) => r := Erred(msg);
      case Exists => r := Back(false);
    }

    /** Get of the signing pod: whether its phase is Running. */
    method GetPod(w: nat, ghost wk: Worker, namespace: string, name: string, tries: nat) returns (r: Flow<bool>)
      requires Valid() && At(w, wk) && wk.pc == WaitPod(tries) && wk.pod == Some(NamespacedName(namespace, name))
      modifies this`s, this`events, this`log
      ensures Continues(old(events), old(log)) && !r.Panicked? && Leaves(w, wk, r)
      ensures r.Back? && r.value ==> At(w, wk.(pc := if wk.job.SignJob? then LoadImage else MakeDir))
      ensures !r.Died? ==> OneMore(old(log))
      ensures r.Back? ==> Last(log) == Phase(r.value)
      ensures r.Erred? ==> Last(log).Missing?
      ensures r.Back? && !r.value ==>
                At(w, if tries + 1 < MaxRetryCount then wk.(pc := WaitPod(tries + 1)) else wk.Fail("pod is not running", Close))
    {
      hide Inv, Run, Between;
      var a, mid :- Call(w, wk, None);
      r := if a.Missing? then Erred(a.msg) else Back(a.running);
    }

    /** A command in the signing pod, given as the text for the shell. */
    method Exec(w: nat, ghost wk: Worker, namespace: string, pod: string, container: string, command: string)
        returns (r: Flow<string>)
      requires Valid() && At(w, wk) && NextCommand(wk).Some? && command == Text(NextCommand(wk).value)
      requires wk.pod == Some(NamespacedName(namespace, pod)) && container == "docker-cli"
      modifies this
      ensures Continues(old(events), old(log)) && !r.Panicked? && Leaves(w, wk, r)
      ensures r.Back? ==> At(w, AfterCommand(wk, true, r.value))
      ensures !r.Died? ==> Printed(old(log), r)
      ensures asked == old(asked) + [command]
    {
      hide Inv, Run, Act, Text, NextCommand, AfterCommand, Protocol.Exec, Between;
      CommandCalls(wk);
      asked := asked + [command];
      var a, mid :- Call(w, wk, None);
      CommandPoint(mid, w, wk, a);
      CommandEnds(mid, wk, a);
      r := if a.ok then Back(a.text) else Erred(a.text);
    }

    /**
     Patch of the signer key with what `target` has that `original` had not, answered in the state `mid`: the key that is
     stored then gets the one entry and keeps all others.
     */
    method PatchSignerKey(w: nat, ghost wk: Worker, target: SignerKey, original: SignerKey)
        returns (r: Flow<()>, ghost mid: State)
      requires Valid() && At(w, wk) && wk.pc.PatchKey? && wk.job.SignJob? && wk.key == Some(original.Spec())
      requires target.Spec() == original.Spec().WithTarget(TargetName(wk.job.spec), wk.pc.found)
      modifies this`s, this`events, this`log
      ensures Continues(old(events), old(log)) && !r.Panicked? && Leaves(w, wk, r)
      ensures !r.Died? ==> OneMore(old(log)) && Between(old(s), mid, w, wk)
      ensures r.Back? ==>
                && At(w, Succeed(wk)) && Last(log).Accepted?
                && GainsEntry(mid, s, wk.job.spec.signer, TargetName(wk.job.spec), wk.pc.found)
    {
      hide Inv, Run, SignerKeyJson.Patched, TargetName, Between, GainsEntry;
      mid := s;
      var a;
      a, mid :- Call(w, wk, None);
      match a
      case Accepted =>
        BetweenIs(old(s), mid, w, wk);
        Patches(mid, w, wk);
        r := Back(());
      case Lost(msg) => r := Erred(msg);
      case Refused(msg) => r := Erred(msg);
    }

    method CreateSignerKey(w: nat, ghost wk: Worker, key: SignerKey) returns (r: Flow<()>)
      requires Valid() && At(w, wk) && wk.pc.CreateKey? && wk.job.RootJob?
      requires key.name == wk.job.signer && key.Spec() == SignerKeySpec(wk.pc.found, None)
      modifies this`s, this`events, this`log
      ensures Continues(old(events), old(log)) && !r.Panicked? && Leaves(w, wk, r)
      ensures r.Back? ==>
                At(w, wk.(job := wk.job.(state := Some(MakeSignerState(true, "", "", wk.pc.found.id))), pc := Close))
      ensures !r.Died? ==> OneMore(old(log))
      ensures r.Back? ==> key.name in s.keys && s.keys[key.name] == [key.Spec()] && Last(log).Accepted?
    {
      hide Inv, Run, Between;
      var a, mid :- Call(w, wk, None);
      match a
      case Accepted => r := Back(());
      case Lost(msg) => r := Erred(msg);
      case Refused(msg) => r := Erred(msg);
    }

    /** Delete of the signing pod. */
    method DeletePod(w: nat, ghost wk: Worker, pod: DindPod.Pod) returns (r: Flow<()>)
      requires Valid() && At(w, wk) && wk.pc.Close? && wk.pod == Some(NamespacedName(pod.namespace, pod.name))
      modifies this`s, this`events, this`log
      ensures Continues(old(events), old(log)) && !r.Panicked?
      ensures r.Died? ==> Gone(w, wk)
      ensures r.Back? || r.Erred? ==> exists deleted :: At(w, wk.(deleted := Some(deleted), pc := Respond))
      ensures !r.Died? ==> OneMore(old(log))
      ensures r.Back? ==>
                var p := NamespacedName(pod.namespace, pod.name);
                if p in s.pods then !s.pods[p].live else p !in s.foreign
    {
      hide Inv, Run, Between;
      var a, mid :- Call(w, wk, None);
      match a
      case Accepted => r := Back(()); assert At(w, wk.(deleted := Some(true), pc := Respond));
      case Lost(msg) => r := Erred(msg); assert At(w, wk.(deleted := Some(true), pc := Respond));
      case Refused(msg) => r := Erred(msg); assert At(w, wk.(deleted := Some(false), pc := Respond));
    }

    /**
     Status().Update of the request, answered in the state `mid`: it sets the response in hand if the version the run
     read is still the last, and otherwise nothing. An error may also be the reply to an update that was made.
     */
    method UpdateRequest(w: nat, ghost wk: Worker, signReq: ImageSignRequest) returns (r: Flow<()>, ghost mid: State)
      requires Valid() && At(w, wk) && wk.pc.Respond? && wk.job.SignJob?
      requires signReq.spec == wk.job.spec && signReq.Response() == wk.job.response
      modifies this`s, this`events, this`log
      ensures Continues(old(events), old(log)) && !r.Panicked?
      ensures if r.Died? then Gone(w, wk) else At(w, wk.(pc := Done)) && Between(old(s), mid, w, wk)
      ensures !r.Died? ==> OneMore(old(log)) && (r.Back? <==> Last(log).Accepted?)
      ensures r.Back? ==> Current(mid, wk.job) && s == ApplyAct(mid, w, wk.(pc := Done), SetResponse)
      ensures r.Back? ==>
                && wk.job.request in s.requests && s.requests[wk.job.request].versions != []
                && Last(s.requests[wk.job.request].versions).status == signReq.Response()
      ensures r.Erred? ==>
                || s == mid.(workers := mid.workers[w := wk.(pc := Done)])
                || (Current(mid, wk.job) && s == ApplyAct(mid, w, wk.(pc := Done), SetResponse))
    {
      hide Inv, Run, Current, Between;
      mid := s;
      var a;
      a, mid :- Call(w, wk, None);
      r := if a.Accepted? then Back(()) else Erred(a.msg);
      if r.Back? {
        ResponseSet(mid, w, wk.(pc := Done));
      }
    }

    /** Status().Update of the signer, likewise. */
    method UpdateSigner(w: nat, ghost wk: Worker, signer: ImageSigner) returns (r: Flow<()>, ghost mid: State)
      requires Valid() && At(w, wk) && wk.pc.Respond? && wk.job.RootJob?
      requires signer.name == wk.job.signer && signer.State() == wk.job.state
      modifies this`s, this`events, this`log
      ensures Continues(old(events), old(log)) && !r.Panicked?
      ensures if r.Died? then Gone(w, wk) else At(w, wk.(pc := Done)) && Between(old(s), mid, w, wk)
      ensures !r.Died? ==> OneMore(old(log)) && (r.Back? <==> Last(log).Accepted?)
      ensures r.Back? ==> Current(mid, wk.job) && s == ApplyAct(mid, w, wk.(pc := Done), SetState)
      ensures r.Back? ==>
                signer.name in s.signers && s.signers[signer.name] != [] && Last(s.signers[signer.name]) == signer.State()
      ensures r.Erred? ==>
                || s == mid.(workers := mid.workers[w := wk.(pc := Done)])
                || (Current(mid, wk.job) && s == ApplyAct(mid, w, wk.(pc := Done), SetState))
    {
      hide Inv, Run, Current, Between;
      mid := s;
      var a;
      a, mid :- Call(w, wk, None);
      r := if a.Accepted? then Back(()) else Erred(a.msg);
      if r.Back? {
        StateSet(mid, w, wk.(pc := Done));
      }
    }
  }
}
