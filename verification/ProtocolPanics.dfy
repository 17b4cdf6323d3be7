/** Exactly which sign runs panic. */
module ProtocolPanics {
  import opened Wrappers
  import opened Strings
  import opened Naming
  import opened Protocol
  import opened ProtocolInvariant
  import opened ProtocolSteps
  import opened ProtocolActs
  import opened ProtocolRuns
  import opened ProtocolFlow
  import opened ProtocolAnswers

  /**
   The last command of the run succeeded, and the next statement fails: the images are listed and there is no registry to
   ask for its endpoint, or the target key is read and there is no map to put it into.
   */
  predicate LastPanics(wk: Worker, trace: seq<Executed>) {
    && wk.job.SignJob? && trace != [] && Last(trace).ok
    && match Last(trace).command
       case Images => Fields(Last(trace).output) != [] && wk.regctl == None
       case Cat(_) => Contains(Last(trace).output, RoleLine(Target)) && (wk.key.Some? ==> wk.key.value.targets == None)
       case _ => false
  }

  predicate HasPanicked(s: State, wk: Worker) {
    wk.pod.Some? && wk.pod.value in s.pods && LastPanics(wk, s.pods[wk.pod.value].trace)
  }

  /** The flag of a run tells exactly this. */
  predicate PanicOK(s: State, wk: Worker) { wk.job.SignJob? ==> (wk.panicked <==> HasPanicked(s, wk)) }

  ghost predicate PanicsOK(s: State) { forall w :: w in s.workers ==> PanicOK(s, s.workers[w]) }

  // ---------------------------------------------------------------- the run's own steps

  lemma CommandPanics(wk: Worker, trace: seq<Executed>, ok: bool, text: string)
    requires wk.job.SignJob? && !wk.panicked && NextCommand(wk).Some?
    ensures var next := AfterCommand(wk, ok, text);
            next.panicked <==> LastPanics(wk, trace + [Executed(NextCommand(wk).value, ok, text)])
  {
    hide ArchivePath, ImageRef, Fields, Contains, RoleLine, PassOf, TargetName;
    var e := Executed(NextCommand(wk).value, ok, text);
    assert Last(trace + [e]) == e;
  }

  lemma CommandStays(wk: Worker, ok: bool, text: string)
    requires NextCommand(wk).Some?
    ensures SameRun(wk, AfterCommand(wk, ok, text))
  {
    hide LoadCmd, ImageRef, Fields, AfterRead, Scan;
    if ok && wk.pc.ListKeys? {
      ScanStays(wk, Fields(text));
    } else if ok && wk.pc.ReadKeys? {
      ReadStays(wk, wk.pc.names, text);
    }
  }

  lemma ScanStays(wk: Worker, names: seq<string>)
    ensures SameRun(wk, Scan(wk, names))
  {
  }

  lemma ReadStays(wk: Worker, names: seq<string>, text: string)
    requires names != []
    ensures SameRun(wk, AfterRead(wk, names, text))
  {
    hide Contains, RoleLine, PassOf, Scan;
    ScanStays(wk, names[1..]);
  }

  lemma SameLast(a: Worker, b: Worker, trace: seq<Executed>)
    requires a.key == b.key && a.regctl == b.regctl && SameJob(a.job, b.job)
    ensures LastPanics(a, trace) <==> LastPanics(b, trace)
  {
    hide Fields, Contains, RoleLine;
  }

  lemma CommandKeeps(s: State, w: nat, wk: Worker, a: Answer)
    requires PanicOK(s, wk) && wk.job.SignJob? && !wk.panicked && ActCommand(s, wk, a).Some?
    ensures var r := ActCommand(s, wk, a).value; PanicOK(ApplyAct(s, w, r.0, r.1), r.0)
  {
    hide NextCommand, AfterCommand, LastPanics, Astray, Plausible;
    var r, pod := ActCommand(s, wk, a).value, s.pods[wk.pod.value];
    CommandPanics(wk, pod.trace, a.ok, a.text);
    CommandStays(wk, a.ok, a.text);
    SameLast(wk, r.0, pod.trace);
    SameLast(wk, r.0, pod.trace + [Executed(NextCommand(wk).value, a.ok, a.text)]);
    if !(pod.live && pod.running) {
      CommandEndsBadly(wk, a.text);
    }
  }

  lemma CommandEndsBadly(wk: Worker, text: string)
    requires NextCommand(wk).Some?
    ensures AfterCommand(wk, false, text).panicked == wk.panicked
  {
    hide NextCommand;
  }

  /** What the other calls leave as it is. */
  predicate Quiet(s: State, wk: Worker, next: Worker, e: Effect) {
    && next.panicked == wk.panicked && next.key == wk.key && next.regctl == wk.regctl && next.pod == wk.pod
    && SameJob(wk.job, next.job)
    && (e.PutPod? ==> if wk.pod.Some? && wk.pod.value in s.pods
        then e.pod.trace == s.pods[wk.pod.value].trace else e.pod.trace == [])
  }

  lemma OtherCalls(s: State, w: nat, wk: Worker, a: Answer)
    requires NextCommand(wk).None? && !Looking(wk.pc) && Act(s, w, wk, a).Some?
    ensures var r := Act(s, w, wk, a).value; Quiet(s, wk, r.0, r.1)
  {
    hide Act, Quiet, ActCommand, NextCommand;
    if wk.pc.CreatePod? {
      CreateQuiet(s, w, wk, a);
    } else if wk.pc.Close? {
      CloseQuiet(s, w, wk, a);
    } else {
      NotCommands(s, w, wk, a);
    }
  }

  lemma CreateQuiet(s: State, w: nat, wk: Worker, a: Answer)
    requires wk.pc.CreatePod? && Act(s, w, wk, a).Some?
    ensures var r := Act(s, w, wk, a).value; Quiet(s, wk, r.0, r.1)
  {
    hide InitialFiles, PodNamed;
  }

  lemma CloseQuiet(s: State, w: nat, wk: Worker, a: Answer)
    requires wk.pc.Close? && Act(s, w, wk, a).Some?
    ensures var r := Act(s, w, wk, a).value; Quiet(s, wk, r.0, r.1)
  {
  }

  lemma NotCommands(s: State, w: nat, wk: Worker, a: Answer)
    requires NextCommand(wk).None? && !Looking(wk.pc) && !wk.pc.CreatePod? && !wk.pc.Close? && Act(s, w, wk, a).Some?
    ensures var r := Act(s, w, wk, a).value; Quiet(s, wk, r.0, r.1)
  {
    hide ActCommand, ActGetSigner, ActGetKey, ActCheckKey, ActNewController, ActCreatePod, ActClose, LoadCmd, ImageRef,
         SignerKeyJson.Patched, TargetName, Strange;
    if wk.pc.LoadImage? || wk.pc.ListImages? || wk.pc.TagImage? || wk.pc.Sign? || wk.pc.MakeDir? || wk.pc.Generate?
       || wk.pc.ListKeys? || wk.pc.ReadKeys? || wk.pc.Done? || wk.pc.Crashed? {
      Unanswerable(s, wk, a);
    }
  }

  lemma Unanswerable(s: State, wk: Worker, a: Answer)
    requires NextCommand(wk).None?
    ensures ActCommand(s, wk, a) == None
  {
  }

  lemma QuietKeeps(s: State, w: nat, wk: Worker, next: Worker, e: Effect)
    requires PanicOK(s, wk) && Quiet(s, wk, next, e)
    ensures PanicOK(ApplyAct(s, w, next, e), next)
  {
    hide LastPanics;
    if wk.pod.Some? && wk.pod.value in s.pods {
      SameLast(wk, next, s.pods[wk.pod.value].trace);
    }
    NoTrace(next);
  }

  lemma NoTrace(wk: Worker)
    ensures !LastPanics(wk, [])
  {
  }

  /** Before its pod a run cannot have panicked. */
  lemma LooksKeep(s: State, w: nat, wk: Worker, a: Answer)
    requires Local(s, w, wk) && AnswerOK(wk) && Looking(wk.pc) && wk.job.SignJob? && Act(s, w, wk, a).Some?
    ensures var r := Act(s, w, wk, a).value; PanicOK(ApplyAct(s, w, r.0, r.1), r.0)
  {
    hide Act, ActOK, Local, HistoriesOK, KeysOK, WorkerOK, LastPanics;
    EveryActOK(s, w, wk, a);
    ActFollows(s, w, wk, a);
    NoPodYet(s, w, wk);
    var r := Act(s, w, wk, a).value;
    PodIsFresh(s, w, wk, r.0, r.1);
    LookingQuiet(wk, r.0, r.1);
  }

  lemma NoPodYet(s: State, w: nat, wk: Worker)
    requires Local(s, w, wk) && Looking(wk.pc)
    ensures wk.pod == None
  {
    hide HistoriesOK, KeysOK, JobOK;
  }

  lemma PodIsFresh(s: State, w: nat, wk: Worker, next: Worker, e: Effect)
    requires ActOK(s, w, wk, next, e) && wk.pod == None
    ensures next.pod.Some? ==> next.pod.value !in s.pods
  {
    hide WorkerOK, DutyOK, EffectOK;
  }

  lemma LookingQuiet(wk: Worker, next: Worker, e: Effect)
    requires Looking(wk.pc) && Follows(wk, next, e) && AnswerOK(wk) && wk.job.SignJob?
    ensures e == NoEffect && !next.panicked
  {
  }

  lemma OwnKeeps(s: State, w: nat, wk: Worker, a: Answer)
    requires Local(s, w, wk) && AnswerOK(wk) && PanicOK(s, wk) && Act(s, w, wk, a).Some?
    ensures var r := Act(s, w, wk, a).value; PanicOK(ApplyAct(s, w, r.0, r.1), r.0)
  {
    hide Act, ActCommand, NextCommand, PanicOK, Local;
    if wk.job.RootJob? {
      ActOutline(s, w, wk, a);
      RootsAreQuiet(ApplyAct(s, w, Act(s, w, wk, a).value.0, Act(s, w, wk, a).value.1), Act(s, w, wk, a).value.0);
    } else if NextCommand(wk).Some? {
      CommandPoint(s, w, wk, a);
      InPodThen(wk);
      CommandKeeps(s, w, wk, a);
    } else if Looking(wk.pc) {
      LooksKeep(s, w, wk, a);
    } else {
      OtherCalls(s, w, wk, a);
      QuietKeeps(s, w, wk, Act(s, w, wk, a).value.0, Act(s, w, wk, a).value.1);
    }
  }

  lemma RootsAreQuiet(s: State, wk: Worker)
    requires wk.job.RootJob?
    ensures PanicOK(s, wk)
  {
  }

  lemma InPodThen(wk: Worker)
    requires NextCommand(wk).Some? && AnswerOK(wk) && wk.job.SignJob?
    ensures !wk.panicked
  {
    hide LoadCmd, ImageRef;
  }

  // ---------------------------------------------------------------- everybody else's

  lemma OthersKeep(s: State, t: State, wk: Worker)
    requires PanicOK(s, wk)
    requires wk.pod.Some? ==>
               && (wk.pod.value in t.pods <==> wk.pod.value in s.pods)
               && (wk.pod.value in s.pods ==> t.pods[wk.pod.value].trace == s.pods[wk.pod.value].trace)
    ensures PanicOK(t, wk)
  {
    hide LastPanics;
  }

  lemma DoKeepsPanics(s: State, w: nat, a: Answer)
    requires Inv(s) && RunsOK(s) && PanicsOK(s) && w in s.workers && Act(s, w, s.workers[w], a).Some?
    ensures PanicsOK(Step(s, Do(w, a)))
  {
    hide Inv, Act, Local, ActOK, AnswerOK, Able, PanicOK, ApplyEffect;
    var wk, r := s.workers[w], Act(s, w, s.workers[w], a).value;
    var t := ApplyAct(s, w, r.0, r.1);
    InvLocal(s, w);
    EveryActOK(s, w, wk, a);
    OwnKeeps(s, w, wk, a);
    SignersStay(s, w, r.0, r.1);
    EffectPodsOnly(s, w, r.0, r.1);
    forall x | x in t.workers ensures PanicOK(t, t.workers[x]) {
      if x != w {
        OtherPodsDiffer(s, w, r.0, r.1, x);
        OthersKeep(s, t, s.workers[x]);
      }
    }
  }

  lemma OtherPodsDiffer(s: State, w: nat, next: Worker, e: Effect, x: nat)
    requires Inv(s) && w in s.workers && x in s.workers && x != w && ActOK(s, w, s.workers[w], next, e)
    ensures s.workers[x].pod.Some? ==> s.workers[x].pod != next.pod
  {
    hide HistoriesOK, KeysOK, ResponsesOK, StatesOK, PodsOK, WorkersOK, WorkerOK, DutyOK, EffectOK;
    if s.workers[x].pod.Some? {
      NamesDiffer(s, w, s.workers[w], next, x);
    }
  }

  lemma StepKeepsPanics(s: State, e: Event)
    requires Inv(s) && RunsOK(s) && PanicsOK(s)
    ensures PanicsOK(Step(s, e))
  {
    hide Inv, Act, RunsOK, PanicOK, StepOutside;
    if !ByOperator(e) {
      OutsideWorkers(s, e);
      PodsUntouched(s, e);
      forall w | w in s.workers ensures PanicOK(StepOutside(s, e), s.workers[w]) {
        OthersKeep(s, StepOutside(s, e), s.workers[w]);
      }
    } else if e.Do? {
      if e.w in s.workers && Act(s, e.w, s.workers[e.w], e.answer).Some? {
        DoKeepsPanics(s, e.w, e.answer);
      }
    } else {
      forall w | w in Step(s, e).workers ensures PanicOK(Step(s, e), Step(s, e).workers[w]) {
        NewOrDead(s, e, w);
      }
    }
  }

  lemma NewOrDead(s: State, e: Event, w: nat)
    requires PanicsOK(s) && ByOperator(e) && !e.Do? && w in Step(s, e).workers
    ensures PanicOK(Step(s, e), Step(s, e).workers[w])
  {
    hide LastPanics;
    if w in s.workers {
      assert PanicOK(s, s.workers[w]);
      SameStory(s.workers[w], Step(s, e).workers[w], s);
    }
  }

  lemma SameStory(a: Worker, b: Worker, s: State)
    requires a.key == b.key && a.regctl == b.regctl && a.job == b.job && a.pod == b.pod
    ensures HasPanicked(s, a) <==> HasPanicked(s, b)
  {
    hide Fields, Contains, RoleLine;
  }

  lemma {:induction false} RunKeepsPanics(s: State, events: seq<Event>)
    requires Inv(s) && RunsOK(s) && PanicsOK(s)
    ensures PanicsOK(Run(s, events))
    decreases |events|
  {
    hide Inv, Step, RunsOK, PanicsOK, Extends, RunsGrow;
    if events != [] {
      StepKeepsInv(s, events[0]);
      StepRuns(s, events[0]);
      StepKeepsPanics(s, events[0]);
      RunKeepsPanics(Step(s, events[0]), events[1..]);
    }
  }

  /**
   A sign run that is over has no answer exactly if it found its pod's name taken, or panicked; and it panicked exactly
   if the last command in its pod listed images and there was no registry, or read the target key and there was no map.
   */
  lemma NoAnswerIff(events: seq<Event>, w: nat)
    requires w in Run(Empty, events).workers && Run(Empty, events).workers[w].job.SignJob?
    requires Run(Empty, events).workers[w].pc.Done?
    ensures var s := Run(Empty, events);
            var wk := s.workers[w];
            && (wk.job.response == None <==> wk.taken || HasPanicked(s, wk))
            && (wk.panicked <==> HasPanicked(s, wk))
  {
    hide Run, Able, HasPanicked;
    EmptyInv();
    EmptyRuns();
    RunRuns(Empty, events);
    RunKeepsPanics(Empty, events);
    assert PanicOK(Run(Empty, events), Run(Empty, events).workers[w]);
  }
}
