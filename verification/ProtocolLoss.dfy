/** What can be lost: stored target keys, the mark of a created signer, and pods of others. */
module ProtocolLoss {
  import opened Wrappers
  import opened ApiTypes
  import opened Naming
  import opened Protocol
  import opened ProtocolInvariant
  import opened ProtocolActs
  import opened ProtocolKeys
  import opened ProtocolRuns
  import opened ProtocolFlow
  import opened ProtocolLimits
  import opened ProtocolTheorems

  // ---------------------------------------------------------------- target keys

  /** The key stored under a target name. */
  function EntryOf(s: State, n: string, t: string): Option<TrustKey> {
    if n in s.keys && s.keys[n] != [] && t in Last(s.keys[n]).Entries() then Some(Last(s.keys[n]).Entries()[t]) else None
  }

  /** Run `w` is about to patch the key of this signer under this name. */
  predicate Patching(s: State, w: nat, n: string, t: string) {
    && w in s.workers && s.workers[w].pc.PatchKey? && s.workers[w].job.SignJob?
    && s.workers[w].job.spec.signer == n && TargetName(s.workers[w].job.spec) == t
  }

  /** The key an event writes under a name: an outside write, or the patch of a run, whose reply may get lost. */
  function Written(s: State, e: Event, n: string, t: string): Option<TrustKey> {
    match e
    case WriteTargets(m, targets) =>
      if m == n && n in s.keys && s.keys[n] != [] && Last(s.keys[n]).Entries().Keys <= targets.Keys && t in targets
      then Some(targets[t])
      else None
    case Do(w, a) => if Patching(s, w, n, t) && (a.Accepted? || a.Lost?) then Some(s.workers[w].pc.found) else None
    case _ => None
  }

  /** Exactly such an event changes what is stored under a name, and to exactly this key. */
  lemma StepEntry(s: State, e: Event, n: string, t: string)
    requires Inv(s)
    ensures EntryOf(Step(s, e), n, t) == if Written(s, e, n, t).Some? then Written(s, e, n, t) else EntryOf(s, n, t)
  {
    hide Act, Inv, TargetName;
    if e.Do? {
      DoEntry(s, e.w, e.answer, n, t);
    } else if !ByOperator(e) {
      OutsideEntry(s, e, n, t);
    }
  }

  lemma OutsideEntry(s: State, e: Event, n: string, t: string)
    requires !ByOperator(e)
    ensures EntryOf(StepOutside(s, e), n, t) == if Written(s, e, n, t).Some? then Written(s, e, n, t) else EntryOf(s, n, t)
  {
  }

  lemma DoEntry(s: State, w: nat, a: Answer, n: string, t: string)
    requires Inv(s)
    ensures EntryOf(Step(s, Do(w, a)), n, t) ==
            if Written(s, Do(w, a), n, t).Some? then Written(s, Do(w, a), n, t) else EntryOf(s, n, t)
  {
    hide Act, Inv, TargetName;
    if w in s.workers && s.workers[w].pc.PatchKey? && s.workers[w].job.SignJob? {
      PatchEntry(s, w, a, n, t);
    } else if w in s.workers && Act(s, w, s.workers[w], a).Some? {
      KeyEffects(s, w, s.workers[w], a);
      NewKeyIsNew(s, w, s.workers[w], a);
      OtherEntry(s, w, Act(s, w, s.workers[w], a).value.0, Act(s, w, s.workers[w], a).value.1, n, t);
    }
  }

  /** A key is created only where there was none. */
  lemma NewKeyIsNew(s: State, w: nat, wk: Worker, a: Answer)
    requires Act(s, w, wk, a).Some?
    ensures Act(s, w, wk, a).value.1.NewKey? ==> wk.job.Signer() !in s.keys
  {
    hide Act;
    ActOutline(s, w, wk, a);
    if wk.pc.CreateKey? {
      CreatesNew(s, w, wk, a);
    }
  }

  lemma CreatesNew(s: State, w: nat, wk: Worker, a: Answer)
    requires wk.pc.CreateKey? && Act(s, w, wk, a).Some?
    ensures Act(s, w, wk, a).value.1.NewKey? ==> wk.job.Signer() !in s.keys
  {
  }

  lemma OtherEntry(s: State, w: nat, wk: Worker, e: Effect, n: string, t: string)
    requires !e.AddKeyVersion? && (e.NewKey? ==> e.spec.targets == None && wk.job.Signer() !in s.keys)
    ensures EntryOf(ApplyAct(s, w, wk, e), n, t) == EntryOf(s, n, t)
  {
  }

  lemma PatchEntry(s: State, w: nat, a: Answer, n: string, t: string)
    requires Inv(s) && w in s.workers && s.workers[w].pc.PatchKey? && s.workers[w].job.SignJob?
    ensures EntryOf(Step(s, Do(w, a)), n, t) ==
            if Written(s, Do(w, a), n, t).Some? then Written(s, Do(w, a), n, t) else EntryOf(s, n, t)
  {
    hide Inv, Act, TargetName, ApplyEffect;
    var wk := s.workers[w];
    PatchOutcome(s, w, a);
    if a.Accepted? || a.Lost? {
      EntryAfter(s, w, Act(s, w, wk, a).value.0, PatchedSpec(s, wk), Strange(s, wk, wk.pc.found), n, t);
      PatchedEntry(s, wk, n, t);
    } else if Act(s, w, wk, a).Some? {
      RefusedEntry(s, w, Act(s, w, wk, a).value.0, n, t);
    }
  }

  lemma PatchedEntry(s: State, wk: Worker, n: string, t: string)
    requires wk.job.SignJob? && wk.pc.PatchKey? && wk.job.spec.signer in s.keys && s.keys[wk.job.spec.signer] != []
    ensures wk.job.spec.signer == n ==>
              (if t in PatchedSpec(s, wk).Entries() then Some(PatchedSpec(s, wk).Entries()[t]) else None) ==
              if t == TargetName(wk.job.spec) then Some(wk.pc.found) else EntryOf(s, n, t)
  {
    hide TargetName;
  }

  lemma PatchReady(s: State, w: nat, wk: Worker)
    requires Local(s, w, wk) && wk.pc.PatchKey? && wk.job.SignJob?
    ensures wk.key.Some? && wk.job.spec.signer in s.keys && s.keys[wk.job.spec.signer] != []
    ensures SignerKeyJson.Patched(wk.key.value, TargetName(wk.job.spec), wk.pc.found, Last(s.keys[wk.job.spec.signer]))
         == Some(PatchedSpec(s, wk))
  {
    hide Local, HistoriesOK, KeysOK, InPodOK, ChoiceOK, PodOK, TargetName, PatchedSpec, SignerKeyJson.Patched;
    PatchParts(s, w, wk);
    PatchEffect(s, w, wk);
  }

  lemma PatchOutcome(s: State, w: nat, a: Answer)
    requires Inv(s) && w in s.workers && s.workers[w].pc.PatchKey? && s.workers[w].job.SignJob?
    ensures var wk, r := s.workers[w], Act(s, w, s.workers[w], a);
            && wk.job.spec.signer in s.keys && s.keys[wk.job.spec.signer] != []
            && (if a.Accepted? || a.Lost? then
                  && r.Some? && r.value.1 == AddKeyVersion(PatchedSpec(s, wk), Strange(s, wk, wk.pc.found))
                  && SameJob(wk.job, r.value.0.job)
                else r.Some? ==> r.value.1 == NoEffect)
  {
    hide Inv, Local, ActPatchKey, TargetName, PatchedSpec, SignerKeyJson.Patched;
    var wk := s.workers[w];
    InvLocal(s, w);
    PatchReady(s, w, wk);
    if a.Accepted? || a.Lost? {
      PatchGoes(s, wk, a);
      PatchCases(s, wk, a);
    } else if ActPatchKey(s, wk, wk.pc.found, a).Some? {
      OtherwiseNothing(s, wk, a);
    }
  }

  lemma OtherwiseNothing(s: State, wk: Worker, a: Answer)
    requires wk.pc.PatchKey? && !a.Accepted? && !a.Lost? && ActPatchKey(s, wk, wk.pc.found, a).Some?
    ensures ActPatchKey(s, wk, wk.pc.found, a).value.1 == NoEffect
  {
    hide SignerKeyJson.Patched, TargetName;
  }

  lemma PatchParts(s: State, w: nat, wk: Worker)
    requires Local(s, w, wk) && wk.pc.PatchKey?
    ensures HistoriesOK(s) && KeysOK(s) && InPodOK(s, w, wk) && ChoiceOK(s, wk)
    ensures PodOK(s.pods[wk.pod.value]) && PodOf(s.pods[wk.pod.value], wk)
  {
    hide HistoriesOK, KeysOK, PodOK, PointOK, ChoiceOK, JobOK;
  }

  /** The API server has no reason of its own to refuse the patch. */
  lemma PatchGoes(s: State, wk: Worker, a: Answer)
    requires wk.pc.PatchKey? && wk.job.SignJob? && wk.key.Some? && wk.job.spec.signer in s.keys
             && s.keys[wk.job.spec.signer] != []
    requires SignerKeyJson.Patched(wk.key.value, TargetName(wk.job.spec), wk.pc.found, Last(s.keys[wk.job.spec.signer])).Some?
    requires a.Accepted? || a.Lost?
    ensures ActPatchKey(s, wk, wk.pc.found, a).Some?
  {
    hide SignerKeyJson.Patched, TargetName;
  }

  lemma EntryAfter(s: State, w: nat, wk: Worker, spec: SignerKeySpec, strange: set<TrustKey>, n: string, t: string)
    requires wk.job.Signer() in s.keys && s.keys[wk.job.Signer()] != []
    ensures EntryOf(ApplyAct(s, w, wk, AddKeyVersion(spec, strange)), n, t) ==
            if n != wk.job.Signer() then EntryOf(s, n, t)
            else if t in spec.Entries() then Some(spec.Entries()[t]) else None
  {
  }

  lemma RefusedEntry(s: State, w: nat, wk: Worker, n: string, t: string)
    ensures EntryOf(ApplyAct(s, w, wk, NoEffect), n, t) == EntryOf(s, n, t)
  {
  }

  /** The last key written under a name in the course of these events. */
  function LastWritten(s: State, events: seq<Event>, n: string, t: string): Option<TrustKey>
    decreases |events|
  {
    if events == [] then None
    else
      var later := LastWritten(Step(s, events[0]), events[1..], n, t);
      if later.Some? then later else Written(s, events[0], n, t)
  }

  lemma {:induction false} RunEntry(s: State, events: seq<Event>, n: string, t: string)
    requires Inv(s)
    ensures EntryOf(Run(s, events), n, t) ==
            if LastWritten(s, events, n, t).Some? then LastWritten(s, events, n, t) else EntryOf(s, n, t)
    decreases |events|
  {
    hide Inv, Step, Written, EntryOf;
    if events != [] {
      StepKeepsInv(s, events[0]);
      StepEntry(s, events[0], n, t);
      RunEntry(Step(s, events[0]), events[1..], n, t);
    }
  }

  /**
   Over all runs: what is stored under a target name is the last key that was written under it, by an outside write or
   by a run that found no key there when it looked; without such a write it stays as it is.
   */
  lemma EntryIsLastWritten(before: seq<Event>, after: seq<Event>, n: string, t: string)
    ensures var s := Run(Empty, before);
            EntryOf(Run(Empty, before + after), n, t) ==
            if LastWritten(s, after, n, t).Some? then LastWritten(s, after, n, t) else EntryOf(s, n, t)
  {
    hide Inv, Run, EntryOf, LastWritten, Extends;
    Reached(before, after);
    RunEntry(Run(Empty, before), after, n, t);
  }

  /** The run that patches had looked at a version of the signer key without this name, which may have been stale. */
  lemma PatcherLooked(events: seq<Event>, w: nat, n: string, t: string)
    requires Patching(Run(Empty, events), w, n, t)
    ensures var s := Run(Empty, events);
            var wk := s.workers[w];
            && n in s.keys && wk.key.Some? && wk.key.value in s.keys[n] && t !in wk.key.value.Entries()
            && wk.key.value.targets.Some?
  {
    hide Run, Inv, Local, HistoriesOK, KeysOK, TargetName, PodOK, Extends;
    Reached(events, []);
    assert events + [] == events;
    InvLocal(Run(Empty, events), w);
    PatcherSaw(Run(Empty, events), w, Run(Empty, events).workers[w]);
  }

  lemma PatcherSaw(s: State, w: nat, wk: Worker)
    requires Local(s, w, wk) && wk.pc.PatchKey? && wk.job.SignJob?
    ensures wk.key.Some? && wk.key.value.targets.Some? && wk.job.spec.signer in s.keys
            && wk.key.value in s.keys[wk.job.spec.signer]
    ensures TargetName(wk.job.spec) !in wk.key.value.Entries()
  {
    hide HistoriesOK, KeysOK, TargetName, PodOK, JobOK, GoodKey, Holds, Signed;
  }

  /** A Success keeps the key it came with for as long as nobody writes under its target name. */
  lemma SuccessKeepsKey(before: seq<Event>, after: seq<Event>, id: RequestId, i: nat)
    requires id in Run(Empty, before).requests && i < |Run(Empty, before).requests[id].versions|
    requires IsSuccess(Run(Empty, before).requests[id].versions[i].status)
    requires var spec := Run(Empty, before).requests[id].versions[i].spec;
             LastWritten(Run(Empty, before), after, spec.signer, TargetName(spec)) == None
    ensures var spec := Run(Empty, before).requests[id].versions[i].spec;
            var was := EntryOf(Run(Empty, before), spec.signer, TargetName(spec));
            was.Some? && EntryOf(Run(Empty, before + after), spec.signer, TargetName(spec)) == was
  {
    hide Run, TargetName, LastWritten;
    var spec := Run(Empty, before).requests[id].versions[i].spec;
    SuccessImpliesStoredKey(before, [], id, i);
    assert before + [] == before;
    EntryIsLastWritten(before, after, spec.signer, TargetName(spec));
  }

  /** And the key that a run patches in is the one stored from then on, for as long as nobody writes there again. */
  lemma PatchedKeyStays(before: seq<Event>, w: nat, a: Answer, after: seq<Event>, n: string, t: string)
    requires Patching(Run(Empty, before), w, n, t) && (a.Accepted? || a.Lost?)
    requires LastWritten(Run(Empty, before + [Do(w, a)]), after, n, t) == None
    ensures EntryOf(Run(Empty, before + [Do(w, a)] + after), n, t) == Some(Run(Empty, before).workers[w].pc.found)
  {
    hide Step, Inv, TargetName, EntryOf, Extends, Patching;
    var s, e := Run(Empty, before), Do(w, a);
    Reached(before, [e]);
    assert [e][1..] == [] && Run(s, [e]) == Run(Step(s, e), []);
    StepEntry(s, e, n, t);
    EntryIsLastWritten(before + [e], after, n, t);
  }

  // ---------------------------------------------------------------- keys of which nothing is known

  /** The pod of this run has gone astray. */
  predicate RunAstray(s: State, wk: Worker) {
    wk.pod.Some? && wk.pod.value in s.pods && Astray(s.pods[wk.pod.value].opt, s.pods[wk.pod.value].trace)
  }

  /** The keys that an outside write brings in. */
  function BroughtIn(s: State, e: Event): set<TrustKey> {
    if e.WriteTargets? && e.signer in s.keys && s.keys[e.signer] != [] && Last(s.keys[e.signer]).Entries().Keys <= e.targets.Keys
    then Changed(Last(s.keys[e.signer]).Entries(), e.targets)
    else {}
  }

  /** A key becomes exempt exactly by an outside write that brings it in, or by the patch of a run whose pod went astray. */
  lemma ExemptIff(s: State, e: Event, k: TrustKey)
    requires Inv(s)
    ensures k in Step(s, e).outside <==>
              || k in s.outside || k in BroughtIn(s, e)
              || (e.Do? && e.w in s.workers && s.workers[e.w].pc == PatchKey(k) && s.workers[e.w].job.SignJob?
                  && RunAstray(s, s.workers[e.w]) && (e.answer.Accepted? || e.answer.Lost?))
  {
    hide Act, Inv, Astray, StepOutside;
    if e.Do? && e.w in s.workers {
      DoExempts(s, e.w, e.answer, k);
    } else if !ByOperator(e) {
      WriteExempts(s, e);
    }
  }

  lemma WriteExempts(s: State, e: Event)
    requires !ByOperator(e)
    ensures StepOutside(s, e).outside == s.outside + BroughtIn(s, e)
  {
    hide Changed, Mountable, RequestNamed;
  }

  lemma DoExempts(s: State, w: nat, a: Answer, k: TrustKey)
    requires Inv(s) && w in s.workers
    ensures k in Step(s, Do(w, a)).outside <==>
              || k in s.outside
              || (s.workers[w].pc == PatchKey(k) && s.workers[w].job.SignJob? && RunAstray(s, s.workers[w])
                  && (a.Accepted? || a.Lost?))
  {
    hide Act, Inv, Astray, PatchedSpec;
    var wk := s.workers[w];
    if wk.pc.PatchKey? && wk.job.SignJob? {
      PatchOutcome(s, w, a);
    } else if Act(s, w, wk, a).Some? {
      ActOutline(s, w, wk, a);
    }
  }

  // ---------------------------------------------------------------- created signers

  /** A run on its way out that still has to say the signer is created, and still can. */
  predicate WillMark(s: State, w: nat, n: string) {
    && w in s.workers && s.workers[w].job.RootJob? && s.workers[w].job.signer == n && Created(s.workers[w].job.state)
    && (s.workers[w].pc.Close? || s.workers[w].pc.Respond?) && Current(s, s.workers[w].job)
  }

  /** The signer's key is stored, it is not marked created, and nobody is about to mark it. */
  ghost predicate Unmarked(s: State, n: string) {
    && n in s.keys && n in s.signers && s.signers[n] != [] && !Created(Last(s.signers[n]))
    && forall w :: w in s.workers ==> !WillMark(s, w, n)
  }

  lemma RunOK(s: State, w: nat)
    requires Inv(s) && w in s.workers
    ensures WorkerOK(s, w, s.workers[w])
    ensures var job := s.workers[w].job; job.RootJob? ==> job.signer in s.signers && job.version < |s.signers[job.signer]|
  {
    hide HistoriesOK, KeysOK, ResponsesOK, StatesOK, PodsOK, NamesOK, WorkerOK;
    assert WorkerOK(s, w, s.workers[w]);
    if s.workers[w].job.RootJob? {
      VersionRead(s, w, s.workers[w]);
    }
  }

  lemma VersionRead(s: State, w: nat, wk: Worker)
    requires WorkerOK(s, w, wk) && wk.job.RootJob?
    ensures wk.job.signer in s.signers && wk.job.version < |s.signers[wk.job.signer]|
  {
    hide ChoiceOK, InPodOK, RootMatches;
  }

  /** While the key exists a run comes by a created status only at the exit, and keeps it. */
  lemma MarkFollows(s: State, w: nat, wk: Worker, next: Worker, e: Effect)
    requires WorkerOK(s, w, wk) && wk.job.RootJob? && Outline(wk, next, e) && !e.NewKey? && !wk.pc.Done? && !wk.pc.Crashed?
    ensures SameJob(wk.job, next.job)
    ensures Created(next.job.state) ==> next.job == wk.job && (wk.pc.Close? || wk.pc.Respond?)
  {
    hide JobOK, ChoiceOK, InPodOK;
  }

  lemma SignersAfter(s: State, w: nat, wk: Worker, e: Effect, n: string)
    requires n in s.signers && s.signers[n] != []
    ensures var t := ApplyAct(s, w, wk, e);
            && n in t.signers && t.signers[n] != [] && t.workers == s.workers[w := wk] && |t.signers[n]| >= |s.signers[n]|
            && (n in s.keys ==> n in t.keys)
            && (t.signers[n] == s.signers[n]
                || (e.SetState? && wk.job.RootJob? && wk.job.signer == n && Last(t.signers[n]) == wk.job.state))
  {
  }

  lemma DoStaysUnmarked(s: State, w: nat, a: Answer, n: string)
    requires Inv(s) && Unmarked(s, n) && w in s.workers && Act(s, w, s.workers[w], a).Some?
    ensures Unmarked(Step(s, Do(w, a)), n)
  {
    hide Inv, Act, ApplyEffect, WorkerOK;
    var wk, r := s.workers[w], Act(s, w, s.workers[w], a).value;
    var t := ApplyAct(s, w, r.0, r.1);
    SignersAfter(s, w, r.0, r.1, n);
    ActOutline(s, w, wk, a);
    CallIsMade(s, w, wk, a);
    if wk.job.RootJob? && wk.job.signer == n {
      NewKeyIsNew(s, w, wk, a);
      RunOK(s, w);
      MarkFollows(s, w, wk, r.0, r.1);
    }
    if r.1.SetState? {
      StateSetCurrent(s, w, wk, a);
    }
    forall x | x in t.workers ensures !WillMark(t, x, n) {
      if x != w {
        assert !WillMark(s, x, n);
        RunOK(s, x);
        StaysBehind(s, t, x, s.workers[x].job, n);
      } else {
        assert !WillMark(s, w, n);
        RunOK(s, w);
        StaysBehind(s, t, w, r.0.job, n);
      }
    }
  }

  lemma CallIsMade(s: State, w: nat, wk: Worker, a: Answer)
    requires Act(s, w, wk, a).Some?
    ensures !wk.pc.Done? && !wk.pc.Crashed?
  {
    hide ActGetSigner, ActGetKey, ActCheckKey, ActNewController, ActCreatePod, ActWaitPod, ActCommand, ActPatchKey,
         ActCreateKey, ActClose, ActRespond;
    if wk.pc.Done? || wk.pc.Crashed? {
      NoCommand(s, wk, a);
    }
  }

  lemma StateSetCurrent(s: State, w: nat, wk: Worker, a: Answer)
    requires Act(s, w, wk, a).Some? && wk.pc.Respond? && Act(s, w, wk, a).value.1.SetState?
    ensures wk.job.RootJob? && Current(s, wk.job)
  {
  }

  /** A run that worked on an old version never catches up. */
  lemma StaysBehind(s: State, t: State, w: nat, job: Job, n: string)
    requires job.RootJob? && job.signer == n && n in s.signers ==>
               job.version < |s.signers[n]| && n in t.signers && |t.signers[n]| >= |s.signers[n]|
    ensures job.RootJob? && job.signer == n && n in s.signers && !Current(s, job) ==> !Current(t, job)
  {
  }

  lemma StepStaysUnmarked(s: State, e: Event, n: string)
    requires Inv(s) && Unmarked(s, n)
    ensures Unmarked(Step(s, e), n)
  {
    hide Inv, Act;
    if e.Do? && e.w in s.workers && Act(s, e.w, s.workers[e.w], e.answer).Some? {
      DoStaysUnmarked(s, e.w, e.answer, n);
    } else {
      QuietUnmarked(s, e, n);
    }
  }

  lemma QuietUnmarked(s: State, e: Event, n: string)
    requires Inv(s) && Unmarked(s, n)
    requires !(e.Do? && e.w in s.workers && Act(s, e.w, s.workers[e.w], e.answer).Some?)
    ensures Unmarked(Step(s, e), n)
  {
    hide Inv, Step, WorkerOK;
    var t := Step(s, e);
    QuietSigners(s, e, n);
    forall x | x in t.workers ensures !WillMark(t, x, n) {
      if t.workers[x].pc.Close? || t.workers[x].pc.Respond? {
        assert !WillMark(s, x, n);
        RunOK(s, x);
        StaysBehind(s, t, x, s.workers[x].job, n);
      }
    }
  }

  lemma QuietSigners(s: State, e: Event, n: string)
    requires n in s.signers && s.signers[n] != []
    requires !(e.Do? && e.w in s.workers && Act(s, e.w, s.workers[e.w], e.answer).Some?)
    ensures var t := Step(s, e);
            && (forall x :: x in t.workers && (t.workers[x].pc.Close? || t.workers[x].pc.Respond?) ==>
                  x in s.workers && s.workers[x] == t.workers[x])
            && n in t.signers && t.signers[n] != [] && Last(t.signers[n]) == Last(s.signers[n])
            && |t.signers[n]| >= |s.signers[n]|
            && (n in s.keys ==> n in t.keys)
  {
    hide Act, StepOutside;
    if !ByOperator(e) {
      OutsideWorkers(s, e);
      OutsideSigners(s, e, n);
    }
  }

  lemma OutsideSigners(s: State, e: Event, n: string)
    requires n in s.signers && s.signers[n] != [] && !ByOperator(e)
    ensures var t := StepOutside(s, e);
            && n in t.signers && t.signers[n] != [] && Last(t.signers[n]) == Last(s.signers[n])
            && |t.signers[n]| >= |s.signers[n]|
            && (n in s.keys ==> n in t.keys)
  {
  }

  lemma {:induction false} RunStaysUnmarked(s: State, events: seq<Event>, n: string)
    requires Inv(s) && Unmarked(s, n)
    ensures Unmarked(Run(s, events), n)
    decreases |events|
  {
    hide Inv, Step, Unmarked;
    if events != [] {
      StepKeepsInv(s, events[0]);
      StepStaysUnmarked(s, events[0], n);
      RunStaysUnmarked(Step(s, events[0]), events[1..], n);
    }
  }

  /**
   A signer whose key is stored can still come to be marked created exactly if it is marked, or a run on its way out
   holds the mark and the version it read is still the last. After a lost reply to Create, a conflict, or the death of
   that run it never is: every later run finds the key and leaves the status as it was.
   */
  lemma CreatedWithinReachIff(before: seq<Event>, n: string)
    requires n in Run(Empty, before).keys && n in Run(Empty, before).signers
    ensures var s := Run(Empty, before);
            s.signers[n] != [] &&
            ((exists after :: MarkedAfter(s, after, n)) <==>
             Created(Last(s.signers[n])) || exists w :: w in s.workers && WillMark(s, w, n))
  {
    hide Run, Inv, Extends, Unmarked, WillMark, HistoriesOK;
    Reached(before, []);
    assert before + [] == before;
    var s := Run(Empty, before);
    SomeVersion(s, n);
    if Created(Last(s.signers[n])) {
      NothingMore(s, n);
    } else if exists w :: w in s.workers && WillMark(s, w, n) {
      var w :| w in s.workers && WillMark(s, w, n);
      var after := Marks(s, w, n);
    } else {
      forall after ensures !MarkedAfter(s, after, n) {
        NeverMarked(s, after, n);
      }
    }
  }

  ghost predicate MarkedAfter(s: State, after: seq<Event>, n: string) {
    n in Run(s, after).signers && Run(s, after).signers[n] != [] && Created(Last(Run(s, after).signers[n]))
  }

  lemma SomeVersion(s: State, n: string)
    requires Inv(s) && n in s.signers
    ensures s.signers[n] != []
  {
    hide KeysOK, ResponsesOK, StatesOK, PodsOK, NamesOK, WorkersOK;
    assert StateHistory(s.signers[n]);
  }

  lemma NothingMore(s: State, n: string)
    requires n in s.signers && s.signers[n] != [] && Created(Last(s.signers[n]))
    ensures MarkedAfter(s, [], n)
  {
  }

  lemma NeverMarked(s: State, after: seq<Event>, n: string)
    requires Inv(s) && n in s.keys && n in s.signers && s.signers[n] != [] && !Created(Last(s.signers[n]))
    requires forall w :: w in s.workers ==> !WillMark(s, w, n)
    ensures !MarkedAfter(s, after, n)
  {
    hide Run, Inv, WillMark;
    RunStaysUnmarked(s, after, n);
  }

  lemma ClosesOn(s: State, w: nat, n: string)
    requires WillMark(s, w, n) && s.workers[w].pc.Close?
    ensures var t := Step(s, Do(w, Accepted)); WillMark(t, w, n) && t.workers[w].pc.Respond? && t.signers == s.signers
  {
    hide Act, StepOutside;
    CloseAnswered(s, w, s.workers[w]);
  }

  lemma CloseAnswered(s: State, w: nat, wk: Worker)
    requires wk.pc.Close?
    ensures var r := Act(s, w, wk, Accepted);
            && r.Some? && r.value.0 == wk.(deleted := Some(true), pc := Respond)
            && (r.value.1.NoEffect? || r.value.1.PutPod? || r.value.1.DeleteForeign?)
  {
  }

  lemma MarksNow(s: State, w: nat, n: string)
    requires WillMark(s, w, n) && s.workers[w].pc.Respond? && n in s.signers && s.signers[n] != []
    ensures var t := Step(s, Do(w, Accepted));
            n in t.signers && t.signers[n] != [] && Created(Last(t.signers[n]))
  {
  }

  lemma Marks(s: State, w: nat, n: string) returns (after: seq<Event>)
    requires WillMark(s, w, n) && n in s.signers && s.signers[n] != []
    ensures MarkedAfter(s, after, n)
  {
    ExitPc(s, w, n);
    hide Step, WillMark;
    var e, t := Do(w, Accepted), Step(s, Do(w, Accepted));
    assert [e][1..] == [] && Run(s, [e]) == Run(t, []) && [e] + [] == [e];
    if s.workers[w].pc.Close? {
      ClosesOn(s, w, n);
      MarksNow(t, w, n);
      after := [e, e];
      assert after[1..] == [e];
      assert Run(t, [e]) == Run(Step(t, e), []);
      assert Run(s, after) == Run(t, [e]) == Step(t, e);
    } else {
      MarksNow(s, w, n);
      after := [e];
      assert Run(s, after) == t;
    }
  }

  lemma ExitPc(s: State, w: nat, n: string)
    requires WillMark(s, w, n)
    ensures w in s.workers && (s.workers[w].pc.Close? || s.workers[w].pc.Respond?)
  {
  }

  // ---------------------------------------------------------------- pods of others

  /**
   A pod that somebody else has created is deleted by the operator exactly when a run closes whose own pod was never
   created and whose pod's name it has.
   */
  lemma ForeignPodDeletedIff(s: State, e: Event, p: NamespacedName)
    requires p in s.foreign
    ensures p !in Step(s, e).foreign <==>
              && e.Do? && e.w in s.workers && s.workers[e.w].pc.Close? && s.workers[e.w].pod == Some(p) && p !in s.pods
              && (e.answer.Accepted? || e.answer.Lost?)
  {
    hide Act, Follows;
    if e.Do? && e.w in s.workers && Act(s, e.w, s.workers[e.w], e.answer).Some? {
      if s.workers[e.w].pc.Close? {
        CloseDeletes(s, e.w, s.workers[e.w], e.answer, p);
      } else {
        ActOutline(s, e.w, s.workers[e.w], e.answer);
      }
    } else if e.Do? && e.w in s.workers && s.workers[e.w].pc.Close? {
      ClosePossible(s, e.w, s.workers[e.w], e.answer);
    }
  }

  lemma ClosePossible(s: State, w: nat, wk: Worker, a: Answer)
    requires wk.pc.Close?
    ensures a.Accepted? || a.Lost? ==> Act(s, w, wk, a).Some?
  {
  }

  lemma CloseDeletes(s: State, w: nat, wk: Worker, a: Answer, p: NamespacedName)
    requires p in s.foreign && wk.pc.Close? && Act(s, w, wk, a).Some?
    ensures var r := Act(s, w, wk, a).value;
            p !in ApplyAct(s, w, r.0, r.1).foreign <==> wk.pod == Some(p) && p !in s.pods && (a.Accepted? || a.Lost?)
  {
  }
}
