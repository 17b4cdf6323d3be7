/** What the operator cannot do by itself. */
module ProtocolLimits {
  import opened Wrappers
  import opened Naming
  import opened Protocol
  import opened ProtocolInvariant
  import opened ProtocolRuns
  import opened ProtocolFlow

  // ---------------------------------------------------------------- nil targets

  ghost predicate NilTargets(s: State, n: string) {
    n in s.keys ==> forall i :: 0 <= i < |s.keys[n]| ==> s.keys[n][i].targets == None
  }

  /** Nobody but the operator writes this signer's targets. */
  predicate OperatorOnly(events: seq<Event>, n: string) {
    forall i :: 0 <= i < |events| ==> !(events[i].WriteTargets? && events[i].signer == n)
  }

  /** Which calls touch keys: CreateKey, with no targets, and PatchKey. */
  lemma KeyEffects(s: State, w: nat, wk: Worker, a: Answer)
    requires Act(s, w, wk, a).Some?
    ensures var e := Act(s, w, wk, a).value.1;
            (e.NewKey? ==> e.spec.targets == None) && (e.AddKeyVersion? ==> wk.pc.PatchKey? && wk.job.SignJob?)
    ensures SameJob(wk.job, Act(s, w, wk, a).value.0.job)
  {
    hide Act;
    ActOutline(s, w, wk, a);
  }

  lemma PatchNeedsTargets(s: State, w: nat)
    requires Inv(s) && w in s.workers && s.workers[w].pc.PatchKey? && s.workers[w].job.SignJob?
    ensures !NilTargets(s, s.workers[w].job.spec.signer)
  {
    hide HistoriesOK, KeysOK, ResponsesOK, StatesOK, PodsOK, NamesOK, TraceOK, GoodKey, Holds, NewPhrase, TargetName,
         JobOK, Astray;
    var wk := s.workers[w];
    assert WorkerOK(s, w, wk);
    var versions := s.keys[wk.job.spec.signer];
    var i :| 0 <= i < |versions| && versions[i] == wk.key.value;
  }

  lemma StepKeepsNil(s: State, e: Event, n: string)
    requires Inv(s) && NilTargets(s, n) && !(e.WriteTargets? && e.signer == n)
    ensures NilTargets(Step(s, e), n)
  {
    hide Act, HistoriesOK, KeysOK, ResponsesOK, StatesOK, PodsOK, NamesOK, WorkersOK;
    if e.Do? && e.w in s.workers && Act(s, e.w, s.workers[e.w], e.answer).Some? {
      DoKeepsNil(s, e.w, e.answer, n);
    }
  }

  lemma DoKeepsNil(s: State, w: nat, a: Answer, n: string)
    requires Inv(s) && NilTargets(s, n) && w in s.workers && Act(s, w, s.workers[w], a).Some?
    ensures NilTargets(Step(s, Do(w, a)), n)
  {
    hide Act, Inv;
    KeyEffects(s, w, s.workers[w], a);
    var r := Act(s, w, s.workers[w], a).value;
    if r.1.AddKeyVersion? {
      PatchNeedsTargets(s, w);
      assert r.0.job.Signer() != n;
    }
  }

  lemma {:induction false} RunKeepsNil(s: State, events: seq<Event>, n: string)
    requires Inv(s) && NilTargets(s, n) && OperatorOnly(events, n)
    ensures NilTargets(Run(s, events), n)
    decreases |events|
  {
    hide Inv, Step, NilTargets;
    if events != [] {
      StepKeepsInv(s, events[0]);
      StepKeepsNil(s, events[0], n);
      RunKeepsNil(Step(s, events[0]), events[1..], n);
    }
  }

  /**
   Left to itself the operator never makes a Targets map, so AddTargetKey panics and no request for the signer is
   ever answered with Success.
   */
  lemma NoSuccessWithoutOutsideTargets(events: seq<Event>, n: string)
    requires OperatorOnly(events, n)
    ensures var s := Run(Empty, events);
            && (n in s.keys ==> forall i :: 0 <= i < |s.keys[n]| ==> s.keys[n][i].targets == None)
            && forall id, i :: id in s.requests && 0 <= i < |s.requests[id].versions|
                               && s.requests[id].versions[i].spec.signer == n ==>
                 !IsSuccess(s.requests[id].versions[i].status)
  {
    hide HistoriesOK, KeysOK, StatesOK, PodsOK, NamesOK, WorkersOK, Extends, RunsGrow, Run, SignedFor, TargetName;
    EmptyInv();
    RunKeepsInv(Empty, events);
    RunKeepsNil(Empty, events, n);
    var s := Run(Empty, events);
    forall id, i | id in s.requests && 0 <= i < |s.requests[id].versions| && s.requests[id].versions[i].spec.signer == n
      ensures !IsSuccess(s.requests[id].versions[i].status)
    {
      assert IsSuccess(s.requests[id].versions[i].status) ==> SuccessOK(s, id, s.requests[id].versions[i].spec);
    }
  }
}
