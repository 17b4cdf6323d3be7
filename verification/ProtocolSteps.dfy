/** Each call of a run keeps the invariant. */
module ProtocolSteps {
  import opened Wrappers
  import opened ApiTypes
  import opened Protocol
  import opened ProtocolInvariant

  /** An effect the invariant allows run `w` to have. */
  ghost predicate EffectOK(s: State, w: nat, wk: Worker, e: Effect) {
    match e
    case NoEffect => true
    case SetResponse => wk.job.SignJob? && Current(s, wk.job) && JobOK(s, wk.job)
    case SetState => wk.job.RootJob? && Current(s, wk.job) && JobOK(s, wk.job)
    case AddKeyVersion(spec, strange) =>
      && wk.job.Signer() in s.keys && s.keys[wk.job.Signer()] != []
      && KeyGrows(Last(s.keys[wk.job.Signer()]), spec) && SpecOK(s.(outside := s.outside + strange), spec)
    case NewKey(spec) => wk.job.Signer() !in s.keys && SpecOK(s, spec)
    case PutPod(pod) =>
      && wk.pod.Some? && pod.owner == w && PodOK(pod) && Straight(wk.job, pod)
      && (wk.pod.value in s.pods ==> PodGrows(s.pods[wk.pod.value], pod))
    case DeleteForeign => true
  }

  /** The run's own pod is either dead or still its duty. */
  predicate DutyOK(t: State, wk: Worker) {
    wk.pod.Some? && wk.pod.value in t.pods && t.pods[wk.pod.value].live ==> Responsible(wk)
  }

  predicate SamePod(s: State, before: Worker, after: Worker) {
    if before.pod.Some? then after.pod == before.pod else after.pod.Some? ==> FreshName(s, after.pod.value)
  }

  ghost predicate ActOK(s: State, w: nat, before: Worker, after: Worker, e: Effect) {
    && EffectOK(s, w, after, e)
    && SamePod(s, before, after)
    && JobGrows(before.job, after.job)
    && WorkerOK(ApplyAct(s, w, after, e), w, after)
    && DutyOK(ApplyAct(s, w, after, e), after)
  }

  // ---------------------------------------------------------------- effects extend the store

  lemma AddRequestVersion(versions: seq<Request>, r: Request)
    requires RequestHistory(versions) && RequestGrows(Last(versions), r)
    ensures RequestHistory(AddVersion(versions, r)) && versions <= AddVersion(versions, r)
    ensures forall i :: |versions| <= i < |AddVersion(versions, r)| ==> AddVersion(versions, r)[i] == r
  {
  }

  lemma AddStateVersion(versions: seq<Option<SignerKeyState>>, x: Option<SignerKeyState>)
    requires StateHistory(versions) && StateGrows(Last(versions), x)
    ensures StateHistory(AddVersion(versions, x)) && versions <= AddVersion(versions, x)
    ensures forall i :: |versions| <= i < |AddVersion(versions, x)| ==> AddVersion(versions, x)[i] == x
  {
  }

  lemma AddKeySpec(versions: seq<SignerKeySpec>, x: SignerKeySpec)
    requires KeyHistory(versions) && KeyGrows(Last(versions), x)
    ensures KeyHistory(AddVersion(versions, x)) && versions <= AddVersion(versions, x)
    ensures Last(AddVersion(versions, x)) == x
    ensures forall i :: |versions| <= i < |AddVersion(versions, x)| ==> AddVersion(versions, x)[i] == x
  {
    forall i | 0 <= i < |versions| ensures KeyGrows(versions[i], x) {
      assert KeyGrows(versions[i], Last(versions));
    }
  }

  lemma PodGrowsSelf(pods: map<NamespacedName, Pod>)
    ensures PodsGrow(pods, pods)
  {
  }

  lemma RequestsExtend(s: State, w: nat, wk: Worker, e: Effect)
    requires HistoriesOK(s) && EffectOK(s, w, wk, e)
    ensures var t := ApplyAct(s, w, wk, e);
            RequestsLonger(s.requests, t.requests) && forall id :: id in t.requests ==> RequestHistory(t.requests[id].versions)
  {
    if e.SetResponse? {
      var vs := s.requests[wk.job.request].versions;
      AddRequestVersion(vs, Last(vs).(status := wk.job.response));
    }
  }

  lemma StatesExtend(s: State, w: nat, wk: Worker, e: Effect)
    requires HistoriesOK(s) && EffectOK(s, w, wk, e)
    ensures var t := ApplyAct(s, w, wk, e);
            Longer(s.signers, t.signers) && forall n :: n in t.signers ==> StateHistory(t.signers[n])
  {
    if e.SetState? {
      AddStateVersion(s.signers[wk.job.signer], wk.job.state);
    }
  }

  lemma KeysExtend(s: State, w: nat, wk: Worker, e: Effect)
    requires HistoriesOK(s) && EffectOK(s, w, wk, e)
    ensures var t := ApplyAct(s, w, wk, e);
            Longer(s.keys, t.keys) && forall n :: n in t.keys ==> KeyHistory(t.keys[n])
  {
    hide SpecOK, JobOK, Current, PodOK, Straight, PodGrows, AddVersion, RequestHistory, StateHistory;
    if e.AddKeyVersion? {
      AddKeySpec(s.keys[wk.job.Signer()], e.spec);
    }
  }

  lemma EffectExtends(s: State, w: nat, wk: Worker, e: Effect)
    requires HistoriesOK(s) && EffectOK(s, w, wk, e)
    ensures Extends(s, ApplyAct(s, w, wk, e)) && HistoriesOK(ApplyAct(s, w, wk, e))
  {
    RequestsExtend(s, w, wk, e);
    StatesExtend(s, w, wk, e);
    KeysExtend(s, w, wk, e);
    PodGrowsSelf(s.pods);
  }

  lemma EffectRuns(s: State, w: nat, wk: Worker, e: Effect)
    requires w in s.workers && JobGrows(s.workers[w].job, wk.job)
    ensures RunsGrow(s, ApplyAct(s, w, wk, e))
  {
  }

  /** The versions an effect adds to a signer's keys. */
  lemma NewSpecs(s: State, w: nat, wk: Worker, e: Effect, n: string, i: nat)
    requires HistoriesOK(s) && EffectOK(s, w, wk, e)
    requires n in ApplyAct(s, w, wk, e).keys && i < |ApplyAct(s, w, wk, e).keys[n]|
    ensures var spec := ApplyAct(s, w, wk, e).keys[n][i];
            (n in s.keys && i < |s.keys[n]| && spec == s.keys[n][i])
            || (e.AddKeyVersion? && spec == e.spec) || (e.NewKey? && spec == e.spec)
  {
    if e.AddKeyVersion? && n == wk.job.Signer() {
      AddKeySpec(s.keys[n], e.spec);
    }
  }

  lemma EffectKeys(s: State, w: nat, wk: Worker, e: Effect)
    requires Inv(s) && EffectOK(s, w, wk, e)
    ensures KeysOK(ApplyAct(s, w, wk, e))
  {
    hide SpecOK, ResponsesOK, StatesOK, PodsOK, NamesOK, WorkersOK, PodOK, Straight, JobOK;
    var t := ApplyAct(s, w, wk, e);
    EffectExtends(s, w, wk, e);
    forall n, i | n in t.keys && 0 <= i < |t.keys[n]| ensures SpecOK(t, t.keys[n][i]) {
      NewSpecs(s, w, wk, e, n, i);
      if n in s.keys && i < |s.keys[n]| && t.keys[n][i] == s.keys[n][i] {
        SpecKept(s, t, t.keys[n][i]);
      } else if e.AddKeyVersion? {
        SpecKept(s.(outside := s.outside + e.strange), t, e.spec);
      } else {
        SpecKept(s, t, e.spec);
      }
    }
  }

  /** The versions an effect adds to a request. */
  lemma NewRequests(s: State, w: nat, wk: Worker, e: Effect, id: RequestId, i: nat)
    requires HistoriesOK(s) && EffectOK(s, w, wk, e)
    requires id in ApplyAct(s, w, wk, e).requests && i < |ApplyAct(s, w, wk, e).requests[id].versions|
    ensures var r := ApplyAct(s, w, wk, e).requests[id].versions[i];
            (id in s.requests && i < |s.requests[id].versions| && r == s.requests[id].versions[i])
            || (e.SetResponse? && wk.job.SignJob? && wk.job.request == id && JobOK(s, wk.job)
                && r == Request(wk.job.spec, wk.job.response))
  {
    hide SuccessOK, SpecOK, PodOK, StateHistory, KeyHistory;
    if e.SetResponse? && id == wk.job.request {
      AddRequestVersion(s.requests[id].versions, Last(s.requests[id].versions).(status := wk.job.response));
    }
  }

  lemma EffectResponses(s: State, w: nat, wk: Worker, e: Effect)
    requires Inv(s) && EffectOK(s, w, wk, e) && w in s.workers && JobGrows(s.workers[w].job, wk.job)
    ensures ResponsesOK(ApplyAct(s, w, wk, e))
  {
    hide ApplyAct, EffectOK, Extends, RunsGrow, JobGrows, HistoriesOK, SuccessOK, KeysOK, StatesOK, WorkersOK, PodsOK, NamesOK;
    var t := ApplyAct(s, w, wk, e);
    EffectExtends(s, w, wk, e);
    EffectRuns(s, w, wk, e);
    forall id, i | id in t.requests && 0 <= i < |t.requests[id].versions| && IsSuccess(t.requests[id].versions[i].status)
      ensures SuccessOK(t, id, t.requests[id].versions[i].spec)
    {
      NewRequests(s, w, wk, e, id, i);
      SuccessKept(s, t, id, t.requests[id].versions[i].spec);
    }
  }

  lemma EffectStates(s: State, w: nat, wk: Worker, e: Effect)
    requires Inv(s) && EffectOK(s, w, wk, e)
    ensures StatesOK(ApplyAct(s, w, wk, e))
  {
    var t := ApplyAct(s, w, wk, e);
    EffectExtends(s, w, wk, e);
    forall n, i | n in t.signers && 0 <= i < |t.signers[n]| ensures RootMatches(t, n, t.signers[n][i]) {
      if i < |s.signers[n]| {
        assert t.signers[n][i] == s.signers[n][i];
        RootMatchesKept(s, t, n, s.signers[n][i]);
      } else {
        AddStateVersion(s.signers[n], wk.job.state);
        RootMatchesKept(s, t, n, wk.job.state);
      }
    }
  }

  lemma EffectPods(s: State, w: nat, before: Worker, wk: Worker, e: Effect)
    requires Inv(s) && w in s.workers && before == s.workers[w] && ActOK(s, w, before, wk, e)
    ensures PodsOK(ApplyAct(s, w, wk, e)) && NamesOK(ApplyAct(s, w, wk, e))
  {
    hide HistoriesOK, KeysOK, ResponsesOK, StatesOK, WorkersOK, WorkerOK, PodOK, JobOK, Straight, Astray, Legible;
    var t := ApplyAct(s, w, wk, e);
    forall p | p in t.pods ensures PodDuty(t, p) {
      if wk.pod == Some(p) && e.PutPod? {
        assert t.pods[p] == e.pod;
      } else {
        OtherPod(s, w, before, wk, e, p);
      }
    }
    NamesKept(s, t, w, before, wk);
  }

  ghost predicate PodDuty(s: State, p: NamespacedName)
    requires p in s.pods
  {
    && PodOK(s.pods[p])
    && s.pods[p].owner in s.workers && s.workers[s.pods[p].owner].pod == Some(p)
    && (s.pods[p].live ==> Responsible(s.workers[s.pods[p].owner]))
    && Straight(s.workers[s.pods[p].owner].job, s.pods[p])
  }

  lemma StraightFor(a: Job, b: Job, pod: Pod)
    requires SameJob(a, b) && Straight(a, pod)
    ensures Straight(b, pod)
  {
  }

  lemma OtherPod(s: State, w: nat, before: Worker, wk: Worker, e: Effect, p: NamespacedName)
    requires Inv(s) && w in s.workers && before == s.workers[w] && ActOK(s, w, before, wk, e)
    requires p in ApplyAct(s, w, wk, e).pods && !(wk.pod == Some(p) && e.PutPod?)
    ensures PodDuty(ApplyAct(s, w, wk, e), p)
  {
    hide HistoriesOK, KeysOK, ResponsesOK, StatesOK, WorkersOK, WorkerOK, PodOK, Straight, EffectOK;
    assert p in s.pods && ApplyAct(s, w, wk, e).pods[p] == s.pods[p];
    assert PodDuty(s, p);
    StraightFor(s.workers[s.pods[p].owner].job, ApplyAct(s, w, wk, e).workers[s.pods[p].owner].job, s.pods[p]);
  }

  lemma NamesKept(s: State, t: State, w: nat, before: Worker, wk: Worker)
    requires NamesOK(s) && w in s.workers && before == s.workers[w] && SamePod(s, before, wk)
    requires t.workers == s.workers[w := wk]
    ensures NamesOK(t)
  {
  }

  /** A run whose call is allowed keeps the whole invariant. */
  lemma ActKeepsInv(s: State, w: nat, before: Worker, wk: Worker, e: Effect)
    requires Inv(s) && w in s.workers && before == s.workers[w] && ActOK(s, w, before, wk, e)
    ensures var t := ApplyAct(s, w, wk, e); Inv(t) && Extends(s, t) && RunsGrow(s, t)
  {
    hide HistoriesOK, KeysOK, ResponsesOK, StatesOK, PodsOK, NamesOK, WorkerOK, EffectOK, DutyOK, SamePod, Extends, RunsGrow,
         JobGrows;
    var t := ApplyAct(s, w, wk, e);
    EffectExtends(s, w, wk, e);
    EffectRuns(s, w, wk, e);
    EffectKeys(s, w, wk, e);
    EffectResponses(s, w, wk, e);
    EffectStates(s, w, wk, e);
    EffectPods(s, w, before, wk, e);
    forall x | x in t.workers ensures WorkerOK(t, x, t.workers[x]) {
      if x != w {
        OtherWorkerKept(s, t, w, before, wk, e, x);
      }
    }
  }

  lemma OtherWorkerKept(s: State, t: State, w: nat, before: Worker, wk: Worker, e: Effect, x: nat)
    requires Inv(s) && w in s.workers && before == s.workers[w] && ActOK(s, w, before, wk, e)
    requires t == ApplyAct(s, w, wk, e) && Extends(s, t) && RunsGrow(s, t) && HistoriesOK(t)
    requires x in s.workers && x != w
    ensures WorkerOK(t, x, s.workers[x])
  {
    hide HistoriesOK, KeysOK, ResponsesOK, StatesOK, PodsOK, NamesOK, WorkerOK, EffectOK, DutyOK, RunsGrow, JobGrows;
    if s.workers[x].pod.Some? {
      NamesDiffer(s, w, before, wk, x);
    }
    EffectPodsOnly(s, w, wk, e);
    WorkerKept(s, t, x, s.workers[x]);
  }

  lemma NamesDiffer(s: State, w: nat, before: Worker, wk: Worker, x: nat)
    requires NamesOK(s) && w in s.workers && before == s.workers[w] && SamePod(s, before, wk)
    requires x in s.workers && x != w && s.workers[x].pod.Some?
    ensures s.workers[x].pod != wk.pod
  {
  }

  lemma EffectPodsOnly(s: State, w: nat, wk: Worker, e: Effect)
    ensures var t := ApplyAct(s, w, wk, e);
            forall p :: wk.pod != Some(p) ==> (p in t.pods <==> p in s.pods) && (p in s.pods ==> t.pods[p] == s.pods[p])
  {
  }
}
