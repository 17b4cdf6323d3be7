/** What holds over all runs of the operator. */
module ProtocolTheorems {
  import opened Wrappers
  import opened ApiTypes
  import opened Naming
  import opened Shell
  import opened CommandOptions
  import opened Commands
  import opened Protocol
  import opened ProtocolInvariant
  import opened ProtocolSteps
  import opened ProtocolKeys
  import opened ProtocolRuns

  /** The state after some run, and after that run continued. */
  lemma Reached(before: seq<Event>, after: seq<Event>)
    ensures var s := Run(Empty, before);
            var t := Run(Empty, before + after);
            Inv(s) && Inv(t) && Extends(s, t) && RunsGrow(s, t) && t == Run(s, after)
  {
    hide Inv, Extends, RunsGrow, Step;
    EmptyInv();
    RunKeepsInv(Empty, before);
    RunKeepsInv(Run(Empty, before), after);
    ProtocolRuns.RunAppend(Empty, before, after);
  }

  // ---------------------------------------------------------------- responses

  /** A response, once stored, is in every later version, at every later time. */
  lemma ResponseWriteOnce(before: seq<Event>, after: seq<Event>, id: RequestId, i: nat)
    requires id in Run(Empty, before).requests && i < |Run(Empty, before).requests[id].versions|
    ensures var s := Run(Empty, before);
            var t := Run(Empty, before + after);
            && id in t.requests && s.requests[id].versions <= t.requests[id].versions
            && forall j :: i <= j < |t.requests[id].versions| ==>
                 && t.requests[id].versions[j].spec == s.requests[id].versions[i].spec
                 && (s.requests[id].versions[i].status.Some? ==>
                       t.requests[id].versions[j].status == s.requests[id].versions[i].status)
  {
    hide Run, KeysOK, ResponsesOK, StatesOK, PodsOK, NamesOK, WorkersOK, PodGrows, RunsGrow;
    Reached(before, after);
    var s, t := Run(Empty, before), Run(Empty, before + after);
    assert RequestHistory(t.requests[id].versions);
    assert t.requests[id].versions[i] == s.requests[id].versions[i];
  }

  /** Whoever still wants to answer an answered request fails the compare-and-swap. */
  lemma LateWriterConflicts(events: seq<Event>, w: nat)
    requires w in Run(Empty, events).workers && Run(Empty, events).workers[w].job.SignJob?
    ensures var s := Run(Empty, events);
            var job := s.workers[w].job;
            && job.request in s.requests && s.requests[job.request].versions != []
            && (Last(s.requests[job.request].versions).status.Some? ==> !Current(s, job))
  {
    hide Run, KeysOK, ResponsesOK, StatesOK, PodsOK, NamesOK, Extends, RunsGrow, InPodOK, ChoiceOK;
    Reached(events, []);
    assert events + [] == events;
    var s := Run(Empty, events);
    assert WorkerOK(s, w, s.workers[w]);
  }

  // ---------------------------------------------------------------- success

  /** A Success answer comes with a stored target key, then and ever after. */
  lemma SuccessImpliesStoredKey(before: seq<Event>, after: seq<Event>, id: RequestId, i: nat)
    requires id in Run(Empty, before).requests && i < |Run(Empty, before).requests[id].versions|
    requires IsSuccess(Run(Empty, before).requests[id].versions[i].status)
    ensures var spec := Run(Empty, before).requests[id].versions[i].spec;
            var t := Run(Empty, before + after);
            && spec.signer in t.keys && t.keys[spec.signer] != []
            && TargetName(spec) in Last(t.keys[spec.signer]).Entries()
  {
    SuccessStays(before, after, id, i);
  }

  lemma SuccessStays(before: seq<Event>, after: seq<Event>, id: RequestId, i: nat)
    requires id in Run(Empty, before).requests && i < |Run(Empty, before).requests[id].versions|
    requires IsSuccess(Run(Empty, before).requests[id].versions[i].status)
    ensures SuccessOK(Run(Empty, before + after), id, Run(Empty, before).requests[id].versions[i].spec)
  {
    hide Run, HistoriesOK, KeysOK, StatesOK, PodsOK, NamesOK, WorkersOK, Extends, RunsGrow, SuccessOK;
    Reached(before, after);
    var s, t := Run(Empty, before), Run(Empty, before + after);
    assert SuccessOK(s, id, s.requests[id].versions[i].spec);
    SuccessKept(s, t, id, s.requests[id].versions[i].spec);
  }

  /**
   A Success answer comes with one pod, of a run that answers this very request. The pod ran, the texts of load, list,
   tag and sign ended successfully in it and in this order, and it was started with the root key and root passphrase
   that are still the signer's at every later time. If the request is legible and the keys restored in the pod are safe,
   the shell did exactly the commands meant, docker took them, and the key signed with was given to the pod or made in
   it; and the signer's key has had it under the request's target name.
   */
  lemma SuccessMeansSigned(before: seq<Event>, after: seq<Event>, id: RequestId, i: nat) returns (p: NamespacedName, k: TrustKey)
    requires id in Run(Empty, before).requests && i < |Run(Empty, before).requests[id].versions|
    requires IsSuccess(Run(Empty, before).requests[id].versions[i].status)
    ensures var spec := Run(Empty, before).requests[id].versions[i].spec;
            var t := Run(Empty, before + after);
            && spec.signer in t.keys && t.keys[spec.signer] != [] && p in t.pods
            && var pod := t.pods[p];
               && SignedWith(pod, spec, Last(t.keys[spec.signer]).root)
               && pod.owner in t.workers && t.workers[pod.owner].pod == Some(p) && Answers(t.workers[pod.owner], id, spec)
               && (exists j :: 0 <= j < |t.keys[spec.signer]| && StoredUnder(t.keys[spec.signer][j], TargetName(spec), k))
               && (AllSafe(RestoredKeys(pod.opt)) && Legible(spec, pod.registry) ==>
                     && (forall j :: 0 <= j < |pod.trace| ==> ReadAsMeant(pod.trace[j].command))
                     && (forall j :: 0 <= j < |pod.trace| && pod.trace[j].ok ==> Takes(pod.opt, pod.trace[j].command))
                     && (pod.opt.targetKey == Some(k) || Holds(pod, k, Target)))
  {
    hide Run, KeysOK, ResponsesOK, StatesOK, NamesOK, WorkersOK, Extends, RunsGrow, SignedWith, PodOK, Straight,
         Answers, TargetFrom,
         TargetName, Legible, AllSafe, RestoredKeys;
    SuccessStays(before, after, id, i);
    Reached(before, after);
    var t, spec := Run(Empty, before + after), Run(Empty, before).requests[id].versions[i].spec;
    p :| SignedFor(t, p, id, spec, t.keys[spec.signer][0].root);
    LastRoot(t, spec.signer);
    var versions, name := t.keys[spec.signer], TargetName(spec);
    var j :| 0 <= j < |versions| && name in versions[j].Entries() && TargetFrom(t.pods[p], versions[j].Entries()[name]);
    k := versions[j].Entries()[name];
    assert StoredUnder(versions[j], name, k);
    SameSpec(t.workers[t.pods[p].owner], id, spec);
    MeantThere(t.workers[t.pods[p].owner].job, t.pods[p], spec, k);
  }

  predicate StoredUnder(key: SignerKeySpec, name: string, k: TrustKey) { name in key.Entries() && key.Entries()[name] == k }

  lemma SameSpec(wk: Worker, id: RequestId, spec: ImageSignRequestSpec)
    requires Answers(wk, id, spec)
    ensures wk.job.SignJob? && wk.job.spec == spec
  {
  }

  lemma StraightBefore(opt: CommandOpt, a: seq<Executed>, b: seq<Executed>)
    requires a <= b && !Astray(opt, b)
    ensures !Astray(opt, a)
  {
    hide AllSafe, RestoredKeys, ReadAsMeant;
    forall i | 0 <= i < |a| ensures ReadAsMeant(a[i].command) {
      assert a[i] == b[i];
    }
  }

  lemma MeantThere(job: Job, pod: Pod, spec: ImageSignRequestSpec, k: TrustKey)
    requires job.SignJob? && job.spec == spec && PodOK(pod) && Straight(job, pod) && TargetFrom(pod, k)
    ensures AllSafe(RestoredKeys(pod.opt)) && Legible(spec, pod.registry) ==>
              && (forall j :: 0 <= j < |pod.trace| ==> ReadAsMeant(pod.trace[j].command))
              && (forall j :: 0 <= j < |pod.trace| && pod.trace[j].ok ==> Takes(pod.opt, pod.trace[j].command))
              && (pod.opt.targetKey == Some(k) || Holds(pod, k, Target))
  {
    hide AllSafe, RestoredKeys, Legible, ReadAsMeant, Takes, Holds;
    if AllSafe(RestoredKeys(pod.opt)) && Legible(spec, pod.registry) {
      forall j | 0 <= j < |pod.trace| && pod.trace[j].ok ensures Takes(pod.opt, pod.trace[j].command) {
        StraightBefore(pod.opt, pod.trace[..j + 1], pod.trace);
      }
    }
  }

  /** Over all runs: with legible requests and safe keys, and for root keys always, every text does just what is meant. */
  lemma TextsReadAsMeant(events: seq<Event>, p: NamespacedName)
    requires p in Run(Empty, events).pods
    ensures var s := Run(Empty, events);
            var pod := s.pods[p];
            && pod.owner in s.workers
            && var job := s.workers[pod.owner].job;
               ((job.SignJob? ==> AllSafe(RestoredKeys(pod.opt)) && Legible(job.spec, pod.registry)) ==>
                  AllSafe(RestoredKeys(pod.opt)) && forall i :: 0 <= i < |pod.trace| ==> ReadAsMeant(pod.trace[i].command))
  {
    hide Run, HistoriesOK, KeysOK, ResponsesOK, StatesOK, NamesOK, WorkersOK, Extends, RunsGrow, PodOK, Legible,
         AllSafe, RestoredKeys,
         ReadAsMeant;
    Reached(events, []);
    assert events + [] == events;
    assert PodDuty(Run(Empty, events), p);
  }

  lemma LastRoot(s: State, n: string)
    requires HistoriesOK(s) && n in s.keys
    ensures s.keys[n] != [] && forall i :: 0 <= i < |s.keys[n]| ==> s.keys[n][i].root == s.keys[n][0].root
  {
    assert KeyHistory(s.keys[n]);
    forall i | 0 <= i < |s.keys[n]| ensures s.keys[n][i].root == s.keys[n][0].root {
      assert KeyGrows(s.keys[n][0], s.keys[n][i]);
    }
  }

  // ---------------------------------------------------------------- roots

  /** A signer's root never changes, whatever lookups were stale or failed. */
  lemma RootImmutable(before: seq<Event>, after: seq<Event>, n: string, i: nat)
    requires n in Run(Empty, before).keys && i < |Run(Empty, before).keys[n]|
    ensures var root := Run(Empty, before).keys[n][i].root;
            var t := Run(Empty, before + after);
            n in t.keys && t.keys[n] != [] && forall j :: 0 <= j < |t.keys[n]| ==> t.keys[n][j].root == root
  {
    hide Run, KeysOK, ResponsesOK, StatesOK, PodsOK, NamesOK, WorkersOK, PodGrows, RunsGrow;
    Reached(before, after);
    LastRoot(Run(Empty, before + after), n);
  }

  /** A signer whose status says created stays so, with the same key ID, and that is the ID of the stored root. */
  lemma CreatedMeansStored(before: seq<Event>, after: seq<Event>, n: string, i: nat)
    requires n in Run(Empty, before).signers && i < |Run(Empty, before).signers[n]|
    requires Created(Run(Empty, before).signers[n][i])
    ensures var state := Run(Empty, before).signers[n][i];
            var t := Run(Empty, before + after);
            && n in t.signers && (forall j :: i <= j < |t.signers[n]| ==> t.signers[n][j] == state)
            && n in t.keys && t.keys[n] != [] && Last(t.keys[n]).root.id == state.value.rootKeyID
  {
    hide Run, KeysOK, ResponsesOK, PodsOK, NamesOK, WorkersOK, PodGrows, RunsGrow;
    Reached(before, after);
    var s, t := Run(Empty, before), Run(Empty, before + after);
    assert StateHistory(t.signers[n]);
    assert t.signers[n][i] == s.signers[n][i];
    assert RootMatches(t, n, t.signers[n][i]);
    LastRoot(t, n);
  }

  // ---------------------------------------------------------------- where keys come from

  /**
   Every stored root, and every stored target key that the operator took as it was meant to, came whole from one file
   that was generated in one pod, as a terminal prints it, with the passphrase that pod's environment held for its role;
   and `Start` restores it.
   */
  lemma KeyProvenance(events: seq<Event>, n: string, i: nat)
    requires n in Run(Empty, events).keys && i < |Run(Empty, events).keys[n]|
    ensures var s := Run(Empty, events);
            var spec := s.keys[n][i];
            && FromPod(s.pods, spec.root, Root) && Restorable(Some(spec.root)) == [spec.root] && ShellSafe(spec.root)
            && |spec.root.passPhrase| == PassLength
            && forall t :: t in spec.Entries() && spec.Entries()[t] !in s.outside ==>
                 var k := spec.Entries()[t];
                 && FromPod(s.pods, k, Target) && Restorable(Some(k)) == [k] && ShellSafe(k) && |k.passPhrase| == PassLength
                 && KeyPath(k.id) != KeyPath(spec.root.id)
  {
    hide Run, HistoriesOK, ResponsesOK, StatesOK, PodsOK, NamesOK, WorkersOK, Extends, RunsGrow, FromPod, GoodKey,
         Restorable, ShellSafe;
    Reached(events, []);
    assert events + [] == events;
    var s := Run(Empty, events);
    var spec := s.keys[n][i];
    assert SpecOK(s, spec);
    GoodKeyRestores(spec.root, Root);
    GoodKeyLength(spec.root, Root);
    forall t | t in spec.Entries() && spec.Entries()[t] !in s.outside
      ensures var k := spec.Entries()[t];
              FromPod(s.pods, k, Target) && Restorable(Some(k)) == [k] && ShellSafe(k) && |k.passPhrase| == PassLength
              && KeyPath(k.id) != KeyPath(spec.root.id)
    {
      GoodKeyRestores(spec.Entries()[t], Target);
      GoodKeyLength(spec.Entries()[t], Target);
    }
  }

  lemma GoodKeyLength(k: TrustKey, r: Role)
    requires GoodKey(k, r)
    ensures |k.passPhrase| == PassLength
  {
  }

  /**
   So a later signing pod gets its keys back: `Start` hands it the signer's root key and, if there is one, the target
   key, and its post-start script, run by a shell, leaves each of them where ReadKey looks, neither over the other.
   */
  lemma SigningPodRestored(events: seq<Event>, w: nat, files: map<string, string>)
    requires var s := Run(Empty, events);
             && w in s.workers && s.workers[w].job.SignJob? && InPod(s.workers[w].pc)
             && (s.workers[w].opt.targetKey.Some? ==> s.workers[w].opt.targetKey.value !in s.outside)
             && (s.workers[w].opt.registryLoginSecret != "" ==> Login.words[1] in files)
    ensures var s := Run(Empty, events);
            var wk := s.workers[w];
            var n := wk.job.spec.signer;
            var stored := files + KeyFiles(RestoredKeys(wk.opt));
            && wk.pod.Some? && wk.pod.value in s.pods && PodOf(s.pods[wk.pod.value], wk)
            && n in s.keys && s.keys[n] != [] && wk.opt.targetKey.Some?
            && RestoredKeys(wk.opt) == [Last(s.keys[n]).root] + (if wk.added then [] else [wk.opt.targetKey.value])
            && wk.key.Some? && wk.key.value in s.keys[n]
            && (!wk.added ==> TargetName(wk.job.spec) in wk.key.value.Entries()
                              && wk.opt.targetKey.value == wk.key.value.Entries()[TargetName(wk.job.spec)])
            && RunScript(files, Script(wk.opt)) ==
                 Some(if wk.opt.registryLoginSecret == "" then stored else stored[Login.words[2] := stored[Login.words[1]]])
            && forall k :: k in RestoredKeys(wk.opt) ==> KeyPath(k.id) in stored && stored[KeyPath(k.id)] == k.key + "\n"
  {
    hide Run, HistoriesOK, KeysOK, ResponsesOK, StatesOK, PodsOK, NamesOK, Extends, RunsGrow, PointOK, ChoiceOK,
         JobOK, RunScript, Script,
         RestoredKeys, KeyFiles, KeyPath, TargetName;
    Reached(events, []);
    assert events + [] == events;
    var s := Run(Empty, events);
    var wk := s.workers[w];
    assert WorkerOK(s, w, wk);
    OwnKeysSafe(s, wk);
    ScriptRestoresKeys(wk.opt, files);
    LastHasRoot(s, wk.job.spec.signer);
    TwoFiles(wk.opt);
  }

  /** Keys with files in different places all end up in their places. */
  lemma TwoFiles(opt: CommandOpt)
    requires var keys := RestoredKeys(opt);
             |keys| <= 2 && (|keys| == 2 ==> KeyPath(keys[0].id) != KeyPath(keys[1].id))
    ensures var keys := RestoredKeys(opt);
            forall k :: k in keys ==> KeyPath(k.id) in KeyFiles(keys) && KeyFiles(keys)[KeyPath(k.id)] == k.key + "\n"
  {
    hide KeyPath, RestoredKeys, KeyFiles;
    var keys := RestoredKeys(opt);
    forall k | k in keys ensures KeyPath(k.id) in KeyFiles(keys) && KeyFiles(keys)[KeyPath(k.id)] == k.key + "\n" {
      var i :| 0 <= i < |keys| && keys[i] == k;
      KeyFileOf(keys, i);
    }
  }

  lemma OwnKeysSafe(s: State, wk: Worker)
    requires HistoriesOK(s) && KeysOK(s) && wk.job.SignJob? && ChoiceOK(s, wk)
    requires wk.opt.targetKey.Some? ==> wk.opt.targetKey.value !in s.outside
    ensures wk.opt.targetKey.Some? && wk.job.spec.signer in s.keys && s.keys[wk.job.spec.signer] != []
    ensures RestoredKeys(wk.opt) == [s.keys[wk.job.spec.signer][0].root] + (if wk.added then [] else [wk.opt.targetKey.value])
    ensures wk.key.Some? && wk.key.value in s.keys[wk.job.spec.signer]
    ensures !wk.added ==> TargetName(wk.job.spec) in wk.key.value.Entries()
                          && wk.opt.targetKey.value == wk.key.value.Entries()[TargetName(wk.job.spec)]
    ensures AllSafe(RestoredKeys(wk.opt))
    ensures !wk.added ==> KeyPath(s.keys[wk.job.spec.signer][0].root.id) != KeyPath(wk.opt.targetKey.value.id)
  {
    hide GoodKey, ShellSafe, NewPhrase, FromPod, TargetName, KeyPath;
    var versions := s.keys[wk.job.spec.signer];
    var i :| 0 <= i < |versions| && versions[i] == wk.key.value;
    assert SpecOK(s, versions[i]);
    RootChosen(s, wk);
    GoodKeyRestores(wk.key.value.root, Root);
    if wk.added {
      NoKeyYet(wk.opt.targetKey.value);
    } else {
      TargetOf(s, wk);
      GoodKeyRestores(wk.opt.targetKey.value, Target);
    }
  }

  lemma NoKeyYet(k: TrustKey)
    requires NewPhrase(k)
    ensures Restorable(Some(k)) == []
  {
  }

  lemma TargetOf(s: State, wk: Worker)
    requires wk.job.SignJob? && ChoiceOK(s, wk) && !wk.added && SpecOK(s, wk.key.value)
    requires wk.opt.targetKey.value !in s.outside
    ensures GoodKey(wk.opt.targetKey.value, Target)
    ensures KeyPath(wk.opt.targetKey.value.id) != KeyPath(wk.key.value.root.id)
  {
    hide GoodKey, KeyPath, TargetName;
  }

  // ---------------------------------------------------------------- pods

  /**
   A live signing pod belongs to a run that has still to delete it, failed to delete it, or died; and a run that is
   over asked for the deletion of its pod, however it ended.
   */
  lemma PodConservation(events: seq<Event>, p: NamespacedName)
    requires p in Run(Empty, events).pods
    ensures var s := Run(Empty, events);
            var pod := s.pods[p];
            && pod.owner in s.workers && s.workers[pod.owner].pod == Some(p)
            && (pod.live ==> Responsible(s.workers[pod.owner]))
            && (s.workers[pod.owner].pc.Done? ==> s.workers[pod.owner].deleted.Some?)
  {
    hide Run, HistoriesOK, KeysOK, ResponsesOK, StatesOK, NamesOK, Extends, RunsGrow, PodOK, InPodOK, ChoiceOK, JobOK;
    Reached(events, []);
    assert events + [] == events;
    var s := Run(Empty, events);
    assert PodDuty(s, p);
    assert WorkerOK(s, s.pods[p].owner, s.workers[s.pods[p].owner]);
  }
}
