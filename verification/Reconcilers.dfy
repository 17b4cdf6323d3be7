/**
 The two Reconcile methods, statement by statement. A deferred call is made after the method that holds the rest of
 the body, however that ends, unless the process died.
 */
module Reconcilers {
  import opened Wrappers
  import opened Strings
  import opened Paths
  import opened ApiTypes
  import opened Naming
  import opened CommandOptions
  import opened Protocol
  import opened ProtocolInvariant
  import opened ProtocolTheorems
  import opened Objects
  import opened Operator
  import opened Controller

  /**
   How a run of Reconcile leaves its record: it has asked for the deletion of its pod; a panic leaves no answer, and a
   return leaves none exactly if the pod's name was taken.
   */
  predicate Ended(wk: Worker, r: Flow<()>) {
    match r
    case Died => wk.pc.Crashed?
    case Panicked =>
      && wk.pc.Done? && wk.panicked && (wk.pod.Some? ==> wk.deleted.Some?)
      && (wk.job.SignJob? ==> wk.job.response == None)
    case Erred(_) => false
    case Back(_) =>
      && wk.pc.Done? && !wk.panicked && (wk.pod.Some? ==> wk.deleted.Some?)
      && (wk.job.SignJob? ==> (wk.job.response == None <==> wk.taken))
  }

  /** About to make the deferred status update. */
  predicate Leaving(wk: Worker, r: Flow<()>) {
    wk.pc.Respond? && Ended(wk.(pc := Done), r)
  }

  lemma JobHolds(s: State, w: nat)
    requires Inv(s) && w in s.workers
    ensures JobOK(s, s.workers[w].job)
  {
    hide HistoriesOK, KeysOK, ResponsesOK, StatesOK, PodsOK, NamesOK, JobOK, InPodOK, ChoiceOK;
    assert WorkerOK(s, w, s.workers[w]);
  }

  /** The version a run serves has no response, or is not marked. */
  lemma Unserved(s: State, job: Job)
    requires JobOK(s, job)
    ensures job.SignJob? ==> !AnsweredIn(s, job.request, job.version)
    ensures job.RootJob? ==> !CreatedIn(s, job.signer, job.version)
  {
    hide SuccessOK, RootMatches;
  }

  /** This version of the request has a response. */
  predicate AnsweredIn(s: State, id: RequestId, version: nat) {
    id in s.requests && version < |s.requests[id].versions| && s.requests[id].versions[version].status.Some?
  }

  /** This version of the signer is marked created. */
  predicate CreatedIn(s: State, name: string, version: nat) {
    name in s.signers && version < |s.signers[name]| && Created(s.signers[name][version])
  }

  /** A stored version of a key stays. */
  lemma StoredStays(before: seq<Event>, after: seq<Event>, name: string, version: nat)
    requires before <= after
    requires var s := Run(Empty, before); name in s.keys && version < |s.keys[name]|
    ensures var s, t := Run(Empty, before), Run(Empty, after);
            name in t.keys && version < |t.keys[name]| && t.keys[name][version] == s.keys[name][version]
  {
    hide Inv, RunsGrow, PodGrows, RequestsLonger;
    assert after == before + after[|before|..];
    Reached(before, after[|before|..]);
  }

  // ---------------------------------------------------------------- sign requests

  /** Reconcile of a sign request. */
  method ReconcileRequest(cluster: Cluster, w: nat, id: RequestId) returns (r: Flow<()>)
    requires cluster.Valid() && w !in cluster.s.workers
    modifies cluster
    ensures cluster.Continues(old(cluster.events), old(cluster.log)) && !r.Erred?
    ensures w in cluster.s.workers ==> Ended(cluster.s.workers[w], r) && JobOK(cluster.s, cluster.s.workers[w].job)
    ensures w in cluster.s.workers ==> cluster.s.workers[w].job.SignJob? && cluster.s.workers[w].job.request == id
    ensures w !in cluster.s.workers ==> r.Back? && cluster.OneMore(old(cluster.log))
    ensures var n := |old(cluster.log)|;
            && n < |cluster.log| && (cluster.log[n].Missing? || cluster.log[n].Found?)
            && (w !in cluster.s.workers <==> cluster.log[n].Missing? || AnsweredIn(cluster.s, id, cluster.log[n].version))
            && (w in cluster.s.workers ==> cluster.log[n].Found? && cluster.s.workers[w].job.version == cluster.log[n].version)
    ensures w in cluster.s.workers && !r.Died? && Last(cluster.log).Accepted? ==>
              && id in cluster.s.requests && cluster.s.requests[id].versions != []
              && Last(cluster.s.requests[id].versions).status == cluster.s.workers[w].job.response
  {
    hide Inv, Run, JobOK;
    var got := cluster.GetRequest(w, id);
    if got.Erred? {
      return Back(());
    }
    var signReq := got.value;
    if signReq.response != null {
      return Back(());
    }
    ghost var wk := cluster.s.workers[w];
    ghost var exit;
    r, exit := ServeRequest(cluster, w, wk, id, signReq);
    if !r.Died? {
      var updated, _ := cluster.UpdateRequest(w, exit, signReq);
      if updated.Died? {
        r := Died;
      }
    }
    JobHolds(cluster.s, w);
    Unserved(cluster.s, cluster.s.workers[w].job);
  }

  /** The signer or its key was not found, and the error is the response. */
  ghost predicate LookupFailed(seen: seq<Answer>, log: seq<Answer>, response: Option<ImageSignResponse>) {
    && (|log| == |seen| + 1 || (|log| == |seen| + 2 && log[|seen|].Found?)) && seen <= log
    && Last(log).Missing? && response == Some(ImageSignResponse(Fail, Last(log).msg, ""))
  }

  /** A failure carries the error of the last call before the pod was closed. */
  ghost predicate FailedFor(log: seq<Answer>, response: Option<ImageSignResponse>) {
    response.Some? && response.value.result.Fail? ==> |log| >= 2 && FailsWith(log[|log| - 2], response.value.reason)
  }

  lemma ClosedAfter(log: seq<Answer>, closed: seq<Answer>, response: Option<ImageSignResponse>)
    requires response.Some? && response.value.result.Fail? ==> log != [] && FailsWith(Last(log), response.value.reason)
    requires |closed| == |log| + 1 && log <= closed
    ensures FailedFor(closed, response)
  {
    hide FailsWith;
  }

  /** The body after `defer response`. */
  method ServeRequest(cluster: Cluster, w: nat, ghost wk: Worker, id: RequestId, signReq: ImageSignRequest)
    returns (r: Flow<()>, ghost exit: Worker)
    requires cluster.Valid() && cluster.At(w, wk) && signReq.Response() == None
    requires exists version :: wk == SignWorker(id, version, Request(signReq.spec, None))
    modifies cluster, signReq`response
    ensures cluster.Continues(old(cluster.events), old(cluster.log)) && !r.Erred?
    ensures if r.Died? then cluster.Gone(w, wk)
            else cluster.At(w, exit) && Leaving(exit, r) && exit.job == wk.job.(response := signReq.Response())
    ensures !r.Died? && exit.pod == None ==> LookupFailed(old(cluster.log), cluster.log, signReq.Response())
    ensures !r.Died? && exit.pod.Some? ==>
              var n := |old(cluster.log)|;
              && n + 1 < |cluster.log| && cluster.log[n].Found? && cluster.log[n + 1].Found?
              && exit.key.Some? && cluster.StoredAs(signReq.spec.signer, cluster.log[n + 1].version, exit.key.value)
              && Chose(exit, exit.key.value, signReq.spec) && FailedFor(cluster.log, signReq.Response())
  {
    hide Inv, Run, TargetName, FailsWith, Chose, FailedFor;
    exit := wk;
    var spec := signReq.spec;
    var signer := cluster.GetSigner(w, wk, spec.signer);
    if signer.Died? {
      return Died, wk;
    }
    if signer.Erred? {
      signReq.MakeResponse(false, signer.error, "");
      return Back(()), wk.Fail(signer.error, Respond);
    }
    ghost var wk1 := wk.(pc := GetKey);
    var key := cluster.GetSignerKey(w, wk1, spec.signer);
    if key.Died? {
      return Died, wk;
    }
    if key.Erred? {
      signReq.MakeResponse(false, key.error, "");
      return Back(()), wk1.Fail(key.error, Respond);
    }
    ghost var events, version := cluster.events, Last(cluster.log).version;
    r, exit := SignWithKey(cluster, w, wk1.(key := Some(key.value.Spec()), pc := NewController), id, signReq, key.value);
    StoredStays(events, cluster.events, spec.signer, version);
  }

  /** The stored target key, or else the start of a new one: a passphrase and nothing more. */
  method TargetKeyFor(signerKey: SignerKey, targetName: string) returns (targetKey: TrustKey, added: bool)
    ensures added <==> targetName !in signerKey.Spec().Entries()
    ensures if added then NewPhrase(targetKey) else targetKey == signerKey.Spec().Entries()[targetName]
  {
    if signerKey.targets != null && targetName in signerKey.targets.m {
      targetKey, added := signerKey.targets.m[targetName], false;
    } else {
      var phrase := AssignNewPass(map[], Target);
      targetKey, added := TrustKey("", "", phrase[RoleEnv(Target)]), true;
    }
  }

  /** With the signer key at hand: choose the keys of the pod, start it, sign, close it. */
  method SignWithKey(cluster: Cluster, w: nat, ghost wk: Worker, id: RequestId, signReq: ImageSignRequest, signerKey: SignerKey)
    returns (r: Flow<()>, ghost exit: Worker)
    requires cluster.Valid() && cluster.At(w, wk) && signReq.Response() == None
    requires exists version ::
               wk == SignWorker(id, version, Request(signReq.spec, None)).(key := Some(signerKey.Spec()), pc := NewController)
    modifies cluster, signReq`response
    ensures cluster.Continues(old(cluster.events), old(cluster.log)) && !r.Erred?
    ensures if r.Died? then cluster.Gone(w, wk)
            else cluster.At(w, exit) && Leaving(exit, r) && exit.job == wk.job.(response := signReq.Response())
    ensures !r.Died? ==> exit.pod.Some? && exit.key == wk.key && Chose(exit, old(signerKey.Spec()), signReq.spec)
    ensures !r.Died? ==> FailedFor(cluster.log, signReq.Response())
  {
    hide Inv, Run, TargetName, RandomString, LoadCmd, ImageRef, PodName, NewPhrase, Choose, OperatorNamespace,
         FailsWith, NewRegCtl, FailedFor;
    exit := wk;
    var spec := signReq.spec;
    var targetName := TargetName(spec);
    var targetKey, added := TargetKeyFor(signerKey, targetName);
    var login := spec.registryLogin;
    var made, next := NewSigningController(cluster, w, wk, spec.signer, login.name, login.namespace, id.key.namespace,
      if added then Some(targetKey.passPhrase) else None);
    if made.Died? {
      return Died, wk;
    }
    var signCtl := made.value;
    var opt := CommandOpt(Some(signerKey.root), Some(targetKey), login.dcjSecretName, login.certSecretName, spec.pvcName);
    ChosenOptions(wk, next, targetName, targetKey, if added then Some(targetKey.passPhrase) else None);

    r, exit := UseController(signCtl, next, signReq, signerKey, targetName, targetKey, added, opt);
  }

  /** With its pod closed, a run is about to make its status update. */
  lemma ExitLeaves(left: Worker, exit: Worker, r: Flow<()>)
    requires (r.Back? || r.Panicked?) && left.panicked == r.Panicked?
    requires left.job.SignJob? ==> if r.Panicked? then left.job.response == None else (left.job.response == None <==> left.taken)
    requires exit == left.(deleted := exit.deleted, pc := Respond) && exit.deleted.Some?
    ensures Leaving(exit, r)
  {
  }

  /** From the start of the pod on. */
  method UseController(signCtl: SigningController, ghost wk: Worker, signReq: ImageSignRequest, signerKey: SignerKey,
      targetName: string, targetKey: TrustKey, added: bool, opt: CommandOpt)
    returns (r: Flow<()>, ghost exit: Worker)
    requires signCtl.cluster.Valid() && signCtl.cluster.At(signCtl.w, wk) && wk.pc.CreatePod? && wk.job.SignJob?
    requires signCtl.Serves(wk) && signCtl.startedPod == null && !signCtl.isRunning
    requires wk.job.response == signReq.Response() == None && signReq.spec == wk.job.spec && !wk.panicked && !wk.taken
    requires wk.key == Some(signerKey.Spec()) && targetName == TargetName(wk.job.spec) && wk.added == added
    requires opt == wk.opt && opt.targetKey == Some(targetKey)
    modifies signCtl, signCtl.cluster, signReq`response
    ensures signCtl.cluster.Continues(old(signCtl.cluster.events), old(signCtl.cluster.log)) && !r.Erred?
    ensures if r.Died? then signCtl.cluster.Gone(signCtl.w, wk)
            else signCtl.cluster.At(signCtl.w, exit) && Leaving(exit, r) && exit.job == wk.job.(response := signReq.Response())
                 && exit.pod == wk.pod && exit.key == wk.key && exit.opt == wk.opt && exit.added == wk.added
    ensures !r.Died? ==> FailedFor(signCtl.cluster.log, signReq.Response())
  {
    hide Inv, Run, TargetName, FailsWith, FailedFor, SignedBy, DindPod.PodFor, CameUp, NeverUp, Leaving;
    exit := wk;
    var started := signCtl.Start(wk, opt);
    if started.Died? {
      return Died, wk;
    }
    ghost var left;
    if started.Erred? {
      signReq.MakeResponse(false, started.error, "");
      r, left := Back(()), wk.Fail(started.error, Close);
    } else {
      r, left := UseSigningPod(signCtl, wk, signReq, signerKey, targetName, targetKey, added);
      if r.Died? {
        return Died, wk;
      }
    }
    ghost var log := signCtl.cluster.log;
    var closed := signCtl.Close(left);
    if closed.Died? {
      return Died, wk;
    }
    ClosedAfter(log, signCtl.cluster.log, signReq.Response());
    exit := signCtl.cluster.s.workers[signCtl.w];
    ExitLeaves(left, exit, r);
  }

  /**
   The options of the run's pod: the signer's root, the secrets and the volume of the request, and the target key stored
   under the request's target name, or a new passphrase if there is none.
   */
  predicate Chose(wk: Worker, key: SignerKeySpec, spec: ImageSignRequestSpec) {
    var login, target := spec.registryLogin, wk.opt.targetKey;
    && target.Some? && wk.added == (TargetName(spec) !in key.Entries())
    && (if wk.added then NewPhrase(target.value) else target.value == key.Entries()[TargetName(spec)])
    && wk.opt == CommandOpt(Some(key.root), target, login.dcjSecretName, login.certSecretName, spec.pvcName)
  }

  /** What NewController chose is what the method holds in its variables. */
  lemma ChosenOptions(wk: Worker, next: Worker, targetName: string, targetKey: TrustKey, pass: Option<string>)
    requires wk.job.SignJob? && wk.key.Some? && targetName == TargetName(wk.job.spec)
    requires exists chosen, suffix, registry ::
               next == Choose(wk, chosen, suffix, registry) && (pass.Some? ==> chosen == pass.value)
    requires if targetName in wk.key.value.Entries() then pass == None && targetKey == wk.key.value.Entries()[targetName]
             else pass.Some? && targetKey == TrustKey("", "", pass.value)
    ensures var login := wk.job.spec.registryLogin;
            next.opt == CommandOpt(Some(wk.key.value.root), Some(targetKey),
                                   login.dcjSecretName, login.certSecretName, wk.job.spec.pvcName)
    ensures next.added == pass.Some? && next.job == wk.job && next.key == wk.key && next.panicked == wk.panicked
    ensures next.pc.CreatePod? && next.taken == wk.taken
  {
    hide TargetName, PodName, NewRegCtl;
  }

  /** The four texts that sign this image were sent first. */
  ghost predicate SignedBy(was: seq<string>, asked: seq<string>, seen: seq<Answer>, log: seq<Answer>, image: string,
                           registry: Option<map<string, string>>)
  {
    && |log| >= |seen| + 4 && log[|seen| + 1].Ran? && registry.Some?
    && var ids := Fields(log[|seen| + 1].text);
       ids != [] && was + SignTexts(ParseImage(image).0, ParseImage(image).1, registry, ids) <= asked
  }

  lemma SentAll(was: seq<string>, asked: seq<string>, seen: seq<Answer>, log: seq<Answer>, image: string,
                registry: Option<map<string, string>>)
    requires |log| == |seen| + 4 && registry.Some?
    requires SentFirst(was, asked, seen, log, SignTexts(ParseImage(image).0, ParseImage(image).1, registry,
                                                        SigningController.ImageIds(seen, log)))
    ensures SignedBy(was, asked, seen, log, image, registry)
  {
    hide PathJoin, GetEndpoint, Fields, ParseImage;
    var texts := SignTexts(ParseImage(image).0, ParseImage(image).1, registry, SigningController.ImageIds(seen, log));
    assert |texts| >= 4;
    assert texts[..4] == texts;
  }

  lemma SignedStays(was: seq<string>, asked: seq<string>, asked': seq<string>, seen: seq<Answer>, log: seq<Answer>,
                    log': seq<Answer>, image: string, registry: Option<map<string, string>>)
    requires SignedBy(was, asked, seen, log, image, registry) && asked <= asked' && log <= log'
    ensures SignedBy(was, asked', seen, log', image, registry)
  {
    hide SignTexts, Fields, ParseImage;
  }

  /** The body after `defer signCtl.Close`. */
  method UseSigningPod(signCtl: SigningController, ghost wk: Worker, signReq: ImageSignRequest, signerKey: SignerKey,
      targetName: string, targetKey: TrustKey, added: bool)
    returns (r: Flow<()>, ghost left: Worker)
    requires signCtl.cluster.Valid() && wk.job.SignJob? && signCtl.Serves(wk)
    requires signCtl.cluster.At(signCtl.w, if signCtl.isRunning then wk.(pc := LoadImage) else NameTaken(wk))
    requires wk.job.response == signReq.Response() == None && signReq.spec == wk.job.spec && !wk.panicked && !wk.taken
    requires wk.key == Some(signerKey.Spec()) && targetName == TargetName(wk.job.spec) && wk.added == added
    requires wk.opt.targetKey == Some(targetKey)
    modifies signCtl.cluster, signReq`response
    ensures signCtl.cluster.Continues(old(signCtl.cluster.events), old(signCtl.cluster.log)) && !r.Erred?
    ensures if r.Died? then signCtl.cluster.Gone(signCtl.w, wk)
            else signCtl.cluster.At(signCtl.w, left) && left.pc.Close? && left.pod == wk.pod && left.regctl == wk.regctl
                 && left.job == wk.job.(response := signReq.Response()) && left.panicked == r.Panicked?
                 && (r.Panicked? ==> signReq.Response() == None)
                 && left.key == wk.key && left.opt == wk.opt && left.added == wk.added && left.taken == !old(signCtl.isRunning)
    ensures r.Back? ==> (signReq.Response() == None <==> !old(signCtl.isRunning))
    ensures r.Panicked? ==> signCtl.regctl == None || signerKey.targets == null
    ensures r.Back? && signReq.Response().Some? && signReq.Response().value.result.Fail? ==>
              signCtl.cluster.log != [] && FailsWith(Last(signCtl.cluster.log), signReq.Response().value.reason)
    ensures r.Back? && signReq.Response().Some? && signReq.Response().value.result.Success? ==>
              SignedBy(old(signCtl.cluster.asked), signCtl.cluster.asked, old(signCtl.cluster.log), signCtl.cluster.log,
                       signReq.spec.image, signCtl.regctl)
  {
    hide Inv, Run, TargetName, ParseImage, RoleEnv, ImageName, SignedBy, SignTexts, SentFirst, GainsEntry, FirstFound;
    ghost var w := signCtl.w;
    if !signCtl.isRunning {
      return Back(()), NameTaken(wk);
    }
    var (imageName, imageTag) := ParseImage(signReq.spec.image);
    ImageNameIs(wk.job.spec);
    var signed := signCtl.SignImage(wk.(pc := LoadImage), imageName, imageTag);
    match signed {
      case Died => return Died, wk;
      case Panicked => return Panicked, wk.Panic();
      case Erred(e) =>
        signReq.MakeResponse(false, e, "");
        return Back(()), wk.Fail(e, Close);
      case Back(_) =>
    }
    ghost var asked, log := signCtl.cluster.asked, signCtl.cluster.log;
    SentAll(old(signCtl.cluster.asked), asked, old(signCtl.cluster.log), log, signReq.spec.image, signCtl.regctl);
    if added {
      var phrase := map[RoleEnv(Target) := targetKey.passPhrase];
      TargetPhrase(targetKey.passPhrase);
      var stored, _, _ := signCtl.AddTargetKey(wk.(pc := ListKeys), signerKey, targetName, phrase);
      match stored {
        case Died => return Died, wk;
        case Panicked => return Panicked, wk.Panic();
        case Erred(e) =>
          signReq.MakeResponse(false, e, "");
          return Back(()), wk.Fail(e, Close);
        case Back(_) =>
      }
    }
    SignedStays(old(signCtl.cluster.asked), asked, signCtl.cluster.asked, old(signCtl.cluster.log), log, signCtl.cluster.log,
      signReq.spec.image, signCtl.regctl);
    signReq.MakeResponse(true, "", "");
    return Back(()), Succeed(wk);
  }

  lemma TargetPhrase(pass: string)
    ensures PassPhrase(map[RoleEnv(Target) := pass], Target) == pass
  {
  }

  lemma ImageNameIs(spec: ImageSignRequestSpec)
    ensures ImageName(spec) == ParseImage(spec.image).0
  {
  }

  // ---------------------------------------------------------------- signers

  /** Reconcile of a signer. Objects in the API have names. */
  method ReconcileSigner(cluster: Cluster, w: nat, name: string) returns (r: Flow<()>)
    requires cluster.Valid() && w !in cluster.s.workers && name != ""
    modifies cluster
    ensures cluster.Continues(old(cluster.events), old(cluster.log)) && !r.Erred?
    ensures w in cluster.s.workers ==> Ended(cluster.s.workers[w], r) && JobOK(cluster.s, cluster.s.workers[w].job)
    ensures w in cluster.s.workers ==> cluster.s.workers[w].job.RootJob? && cluster.s.workers[w].job.signer == name
    ensures w !in cluster.s.workers ==> r.Back? && cluster.OneMore(old(cluster.log))
    ensures var n := |old(cluster.log)|;
            && n < |cluster.log| && (cluster.log[n].Missing? || cluster.log[n].Found?)
            && (w !in cluster.s.workers <==> cluster.log[n].Missing? || CreatedIn(cluster.s, name, cluster.log[n].version))
            && (w in cluster.s.workers ==> cluster.log[n].Found? && cluster.s.workers[w].job.version == cluster.log[n].version)
    ensures w in cluster.s.workers && !r.Died? && Last(cluster.log).Accepted? ==>
              && name in cluster.s.signers && cluster.s.signers[name] != []
              && Last(cluster.s.signers[name]) == cluster.s.workers[w].job.state
  {
    hide Inv, Run, JobOK;
    var got := cluster.GetSignerToServe(w, name);
    if got.Erred? {
      return Back(());
    }
    var signer := got.value;
    if signer.state != null && signer.state.created {
      return Back(());
    }
    ghost var wk := cluster.s.workers[w];
    ghost var exit;
    r, exit := ServeSigner(cluster, w, wk, signer);
    if !r.Died? {
      var updated, _ := cluster.UpdateSigner(w, exit, signer);
      if updated.Died? {
        r := Died;
      }
    }
    JobHolds(cluster.s, w);
    Unserved(cluster.s, cluster.s.workers[w].job);
  }

  /** The body after `defer updateSignerStatus`. */
  method ServeSigner(cluster: Cluster, w: nat, ghost wk: Worker, signer: ImageSigner) returns (r: Flow<()>, ghost exit: Worker)
    requires cluster.Valid() && cluster.At(w, wk) && signer.name != "" && !Created(signer.State())
    requires exists version :: wk == RootWorker(signer.name, version, signer.State())
    modifies cluster, signer`state
    ensures cluster.Continues(old(cluster.events), old(cluster.log)) && !r.Erred?
    ensures if r.Died? then cluster.Gone(w, wk)
            else cluster.At(w, exit) && Leaving(exit, r) && exit.job == wk.job.(state := signer.State())
    ensures !r.Died? && exit.pod.Some? ==>
              && |cluster.log| > |old(cluster.log)| && cluster.log[|old(cluster.log)|].Missing?
              && ChoseRoot(exit.opt) && RootServed(cluster, signer.name, signer.State())
    ensures !r.Died? && exit.pod == None ==>
              cluster.OneMore(old(cluster.log)) && Last(cluster.log).Found? && signer.State() == old(signer.State())
  {
    hide Inv, Run, RoleEnv, OperatorNamespace, FailsWith, Choose, NewRegCtl, Chose;
    exit := wk;
    var found := cluster.FindSignerKey(w, wk, signer.name);
    if found.Died? {
      return Died, wk;
    }
    if |found.value| > 0 {
      return Back(()), wk.(pc := Respond);
    }
    var phrase := AssignNewPass(map[], Root);
    var pass := phrase[RoleEnv(Root)];
    ghost var wk1 := wk.(pc := NewController);
    var made, next := NewSigningController(cluster, w, wk1, signer.name, "", "", "", Some(pass));
    if made.Died? {
      return Died, wk;
    }
    var signCtl := made.value;
    var opt := CommandOpt(Some(TrustKey("", "", pass)), None, "", "", "");
    ChosenRoot(wk1, next, pass);

    r, exit := UseRootController(signCtl, next, signer, phrase, opt);
  }

  /** From the start of the pod on. */
  method UseRootController(signCtl: SigningController, ghost wk: Worker, signer: ImageSigner, phrase: map<string, string>,
      opt: CommandOpt)
    returns (r: Flow<()>, ghost exit: Worker)
    requires signCtl.cluster.Valid() && signCtl.cluster.At(signCtl.w, wk) && wk.pc.CreatePod? && wk.job.RootJob?
    requires signCtl.Serves(wk) && signCtl.startedPod == null && !signCtl.isRunning
    requires wk.job.state == signer.State() && !wk.panicked && signer.name == wk.job.signer && !Created(wk.job.state)
    requires opt == wk.opt && PassPhrase(phrase, Root) == PassOf(wk)
    modifies signCtl, signCtl.cluster, signer`state
    ensures signCtl.cluster.Continues(old(signCtl.cluster.events), old(signCtl.cluster.log)) && !r.Erred?
    ensures if r.Died? then signCtl.cluster.Gone(signCtl.w, wk)
            else signCtl.cluster.At(signCtl.w, exit) && Leaving(exit, r) && exit.job == wk.job.(state := signer.State())
                 && exit.pod == wk.pod && exit.opt == wk.opt && RootServed(signCtl.cluster, signer.name, signer.State())
  {
    hide Inv, Run, RoleEnv, PassPhrase, PassOf, FailsWith, RootServed, DindPod.PodFor, CameUp, NeverUp, Leaving;
    exit := wk;
    var started := signCtl.Start(wk, opt);
    if started.Died? {
      return Died, wk;
    }
    ghost var left;
    if started.Erred? {
      signer.MakeStatus(false, started.error, "", None);
      r, left := Back(()), wk.Fail(started.error, Close);
    } else {
      r, left := UseRootPod(signCtl, wk, signer, phrase);
      if r.Died? {
        return Died, wk;
      }
    }
    ghost var before, events, log := signCtl.cluster.s, signCtl.cluster.events, signCtl.cluster.log;
    var closed := signCtl.Close(left);
    if closed.Died? {
      return Died, wk;
    }
    RootClosed(signCtl.cluster, before, events, log, signer.name, signer.State());
    exit := signCtl.cluster.s.workers[signCtl.w];
    ExitLeaves(left, exit, r);
  }

  /** The status in hand once the pod is closed: created with the stored root's ID, or a failure with its reason. */
  ghost predicate RootServed(cluster: Cluster, name: string, state: Option<SignerKeyState>)
    reads cluster
  {
    && state.Some?
    && if state.value.created then
         name in cluster.s.keys && cluster.s.keys[name] != [] && state.value.rootKeyID == cluster.s.keys[name][0].root.id
       else
         || state.value.reason == "dind pod is not running"
         || (|cluster.log| >= 2 && FailsWith(cluster.log[|cluster.log| - 2], state.value.reason))
  }

  lemma RootClosed(cluster: Cluster, before: State, events: seq<Event>, log: seq<Answer>, name: string,
                   state: Option<SignerKeyState>)
    requires before == Run(Empty, events) && cluster.Valid() && events <= cluster.events
    requires |cluster.log| == |log| + 1 && log <= cluster.log && RootMatches(before, name, state) && state.Some?
    requires !Created(state) ==>
               state.value.reason == "dind pod is not running" || (log != [] && FailsWith(Last(log), state.value.reason))
    ensures RootServed(cluster, name, state)
  {
    hide Inv, Run, FailsWith;
    if Created(state) {
      StoredStays(events, cluster.events, name, 0);
    }
  }

  /** A new root passphrase and nothing else. */
  predicate ChoseRoot(opt: CommandOpt) {
    opt.rootKey.Some? && NewPhrase(opt.rootKey.value) && opt == CommandOpt(opt.rootKey, None, "", "", "")
  }

  lemma ChosenRoot(wk: Worker, next: Worker, pass: string)
    requires wk.job.RootJob?
    requires exists chosen, suffix, registry :: next == Choose(wk, chosen, suffix, registry) && chosen == pass
    ensures next.opt == CommandOpt(Some(TrustKey("", "", pass)), None, "", "", "")
    ensures next.job == wk.job && next.panicked == wk.panicked && next.pc.CreatePod?
  {
    hide PodName;
  }

  lemma FailedMatches(s: State, name: string, state: Option<SignerKeyState>)
    requires !Created(state)
    ensures RootMatches(s, name, state)
  {
  }

  lemma CreatedMatches(s: State, name: string, state: Option<SignerKeyState>, root: TrustKey)
    requires name in s.keys && s.keys[name] == [SignerKeySpec(root, None)] && state == Some(SignerKeyState(true, "", "", root.id))
    ensures RootMatches(s, name, state)
  {
  }

  /** The body after `defer signCtl.Close`. */
  method UseRootPod(signCtl: SigningController, ghost wk: Worker, signer: ImageSigner, phrase: map<string, string>)
    returns (r: Flow<()>, ghost left: Worker)
    requires signCtl.cluster.Valid() && wk.job.RootJob? && signCtl.Serves(wk)
    requires signCtl.cluster.At(signCtl.w, if signCtl.isRunning then wk.(pc := MakeDir) else NameTaken(wk))
    requires wk.job.state == signer.State() && !wk.panicked && signer.name == wk.job.signer && !Created(wk.job.state)
    requires PassPhrase(phrase, Root) == PassOf(wk)
    modifies signCtl.cluster, signer`state
    ensures signCtl.cluster.Continues(old(signCtl.cluster.events), old(signCtl.cluster.log)) && (r.Died? || r.Back?)
    ensures if r.Died? then signCtl.cluster.Gone(signCtl.w, wk)
            else signCtl.cluster.At(signCtl.w, left) && left.pc.Close? && left.pod == wk.pod && left.regctl == wk.regctl
                 && left.job == wk.job.(state := signer.State()) && !left.panicked && left.opt == wk.opt
                 && RootMatches(signCtl.cluster.s, signer.name, signer.State())
    ensures r.Back? ==>
              signer.State().Some? &&
              if !old(signCtl.isRunning) then signer.State() == Some(MakeSignerState(false, "dind pod is not running", "", ""))
              else Created(signer.State())
                   || (signCtl.cluster.log != [] && FailsWith(Last(signCtl.cluster.log), signer.State().value.reason))
  {
    hide Inv, Run, RoleEnv, PassPhrase, FailsWith, FirstFound, ListsAndReads, SigningController.RootMade, RootMatches;
    if !signCtl.isRunning {
      signer.MakeStatus(false, "dind pod is not running", "", None);
      FailedMatches(signCtl.cluster.s, signer.name, signer.State());
      return Back(()), NameTaken(wk);
    }
    var created := signCtl.CreateRootKey(wk.(pc := MakeDir), phrase);
    if created.Died? {
      return Died, wk;
    }
    if created.Erred? {
      signer.MakeStatus(false, created.error, "", None);
      FailedMatches(signCtl.cluster.s, signer.name, signer.State());
      return Back(()), wk.Fail(created.error, Close);
    }
    signer.MakeStatus(true, "", "", Some(created.value));
    CreatedMatches(signCtl.cluster.s, signer.name, signer.State(), created.value);
    r, left := Back(()), signCtl.cluster.s.workers[signCtl.w];
  }
}
