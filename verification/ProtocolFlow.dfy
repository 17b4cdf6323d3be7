/** The control flow of a run, without the data: which point follows which, and what may have happened in between. */
module ProtocolFlow {
  import opened Wrappers
  import opened Strings
  import opened ApiTypes
  import opened Naming
  import opened Shell
  import opened Protocol
  import opened ProtocolInvariant
  import opened ProtocolActs

  /** The names for which NewRegCtl returns nil without looking. */
  predicate NoRegistry(spec: ImageSignRequestSpec) { spec.registryLogin.name == "" || spec.registryLogin.namespace == "" }

  /** Given up: on to the exit with a failure in hand. */
  predicate Failed(wk: Worker, next: Worker, exit: Pc) {
    SameRun(wk, next) && next == wk.(job := next.job, pc := exit) && !Successful(next.job) && !Unset(next.job)
  }

  /** No status in hand at all. */
  predicate Unset(job: Job) { if job.SignJob? then job.response == None else job.state == None }

  predicate CommandEffect(e: Effect) { e.NoEffect? || e.PutPod? }

  /** `next` may come after `wk`, by a call with this effect. */
  predicate Follows(wk: Worker, next: Worker, e: Effect) {
    if Signing(wk.pc) then FollowsSigning(wk, next, e)
    else if KeyWork(wk.pc) then FollowsKeyWork(wk, next, e)
    else FollowsOutside(wk, next, e)
  }

  predicate Signing(pc: Pc) { pc.LoadImage? || pc.ListImages? || pc.TagImage? || pc.Sign? }

  predicate KeyWork(pc: Pc) {
    pc.MakeDir? || pc.Generate? || pc.ListKeys? || pc.ReadKeys? || pc.PatchKey? || pc.CreateKey?
  }

  predicate Looking(pc: Pc) { pc.GetSigner? || pc.GetKey? || pc.CheckKey? || pc.NewController? }

  predicate FollowsOutside(wk: Worker, next: Worker, e: Effect) {
    if Looking(wk.pc) then FollowsLooking(wk, next, e) else FollowsPod(wk, next, e)
  }

  predicate FollowsLooking(wk: Worker, next: Worker, e: Effect) {
    match wk.pc
    case GetSigner => e == NoEffect && (next == wk.(pc := GetKey) || Failed(wk, next, Respond))
    case GetKey => e == NoEffect && (next == wk.(key := next.key, pc := NewController) || Failed(wk, next, Respond))
    case CheckKey => e == NoEffect && (next == wk.(pc := NewController) || next == wk.(pc := Respond))
    case NewController =>
      && e == NoEffect && next.pc.CreatePod? && next.job == wk.job && next.deleted == wk.deleted && next.panicked == wk.panicked
      && next.taken == wk.taken && next.key == wk.key
      && (wk.job.SignJob? && NoRegistry(wk.job.spec) ==> next.regctl == None)
    case _ => false
  }

  predicate FollowsPod(wk: Worker, next: Worker, e: Effect) {
    match wk.pc
    case CreatePod =>
      CommandEffect(e) &&
      (next == wk.(pc := WaitPod(0)) || next == NameTaken(wk) || Failed(wk, next, Close))
    case WaitPod(tries) =>
      e == NoEffect &&
      ((tries + 1 < MaxRetryCount && next == wk.(pc := WaitPod(tries + 1)))
       || next == wk.(pc := if wk.job.SignJob? then LoadImage else MakeDir) || Failed(wk, next, Close))
    case Close =>
      (CommandEffect(e) || e.DeleteForeign?) && next.deleted.Some? && next == wk.(pc := Respond, deleted := next.deleted)
    case Respond => (e.NoEffect? || e.SetResponse? || e.SetState?) && next == wk.(pc := Done)
    case _ => false
  }

  predicate FollowsSigning(wk: Worker, next: Worker, e: Effect) {
    match wk.pc
    case LoadImage => CommandEffect(e) && (next == wk.(pc := ListImages) || Failed(wk, next, Close))
    case ListImages =>
      CommandEffect(e) &&
      ((next.pc.TagImage? && wk.regctl.Some? && next == wk.(pc := next.pc))
       || (wk.regctl == None && next == wk.Panic()) || Failed(wk, next, Close))
    case TagImage(_) => CommandEffect(e) && (next == wk.(pc := Sign) || Failed(wk, next, Close))
    case Sign =>
      CommandEffect(e) && wk.job.SignJob? &&
      ((wk.added && next == wk.(pc := ListKeys)) || (!wk.added && next == Succeed(wk)) || Failed(wk, next, Close))
    case _ => false
  }

  predicate FollowsKeyWork(wk: Worker, next: Worker, e: Effect) {
    match wk.pc
    case MakeDir => CommandEffect(e) && (next == wk.(pc := Generate) || Failed(wk, next, Close))
    case Generate => CommandEffect(e) && (next == wk.(pc := ListKeys) || Failed(wk, next, Close))
    case ListKeys => CommandEffect(e) && ((next.pc.ReadKeys? && next == wk.(pc := next.pc)) || Failed(wk, next, Close))
    case ReadKeys(names) =>
      CommandEffect(e) &&
      ((names != [] && next == wk.(pc := ReadKeys(names[1..])))
       || (wk.job.SignJob? && wk.key.Some? && wk.key.value.targets.Some? && next.pc.PatchKey? && next == wk.(pc := next.pc))
       || (wk.job.RootJob? && next.pc.CreateKey? && next == wk.(pc := next.pc))
       || (wk.job.SignJob? && (wk.key.Some? ==> wk.key.value.targets == None) && next == wk.Panic())
       || Failed(wk, next, Close))
    case PatchKey(_) =>
      || (e == NoEffect && Failed(wk, next, Close))
      || (e.AddKeyVersion? && wk.job.SignJob? && (next == Succeed(wk) || Failed(wk, next, Close)))
    case CreateKey(found) =>
      || (e == NoEffect && Failed(wk, next, Close))
      || (e == NewKey(SignerKeySpec(found, None)) && wk.job.RootJob? &&
          (Failed(wk, next, Close) ||
           next == wk.(job := wk.job.(state := Some(MakeSignerState(true, "", "", found.id))), pc := Close)))
    case _ => false
  }

  lemma EarlyFlow(s: State, w: nat, wk: Worker, a: Answer)
    requires wk.pc.GetSigner? || wk.pc.GetKey? || wk.pc.CheckKey?
    requires Act(s, w, wk, a).Some?
    ensures var r := Act(s, w, wk, a).value; Follows(wk, r.0, r.1)
  {
  }

  lemma NewControllerFlow(s: State, w: nat, wk: Worker, a: Answer)
    requires wk.pc.NewController? && Act(s, w, wk, a).Some?
    ensures var r := Act(s, w, wk, a).value; Follows(wk, r.0, r.1)
  {
    hide RandomString, TargetName, PodName, FreshName;
  }

  lemma CreateFlow(s: State, w: nat, wk: Worker, a: Answer)
    requires wk.pc.CreatePod? && Act(s, w, wk, a).Some?
    ensures var r := Act(s, w, wk, a).value; Follows(wk, r.0, r.1)
  {
    hide NewPod, PodNamed, FollowsSigning, FollowsKeyWork, FollowsLooking, ActCommand;
  }

  lemma WaitFlow(s: State, w: nat, wk: Worker, a: Answer)
    requires wk.pc.WaitPod? && Act(s, w, wk, a).Some?
    ensures var r := Act(s, w, wk, a).value; Follows(wk, r.0, r.1)
  {
  }

  lemma ImagesFlow(wk: Worker, ids: seq<string>)
    ensures var next := AfterImages(wk, ids);
            || (next.pc.TagImage? && wk.regctl.Some? && next == wk.(pc := next.pc))
            || (wk.regctl == None && next == wk.Panic()) || Failed(wk, next, Close)
  {
  }

  lemma ScanFlow(wk: Worker, names: seq<string>)
    ensures var next := Scan(wk, names); (next.pc.ReadKeys? && next == wk.(pc := next.pc)) || Failed(wk, next, Close)
  {
  }

  lemma FailFlow(wk: Worker, reason: string, exit: Pc)
    ensures Failed(wk, wk.Fail(reason, exit), exit)
  {
  }

  /** Where commands lead. */
  lemma AfterFlow(wk: Worker, text: string, e: Effect)
    requires NextCommand(wk).Some? && CommandEffect(e)
    ensures Follows(wk, AfterCommand(wk, true, text), e)
  {
    hide LoadCmd, ImageRef, Fields, Failed, AfterImages, Scan, KeyPath, Contains, RoleLine, PassOf, TargetName;
    match wk.pc
    case ListImages => ImagesFlow(wk, Fields(text));
    case ListKeys => ScanFlow(wk, Fields(text));
    case ReadKeys(names) =>
      ScanFlow(wk, names[1..]);
      RestFlow(wk, names, text);
    case _ =>
  }

  lemma RestFlow(wk: Worker, names: seq<string>, text: string)
    requires wk.pc == ReadKeys(names) && names != []
    ensures !Contains(text, RoleLine(wk.job.Role())) ==>
              var next := AfterRead(wk, names, text); next == wk.(pc := ReadKeys(names[1..])) || Failed(wk, next, Close)
  {
    hide Contains, RoleLine;
  }

  lemma CommandFlow(s: State, w: nat, wk: Worker, a: Answer)
    requires ActCommand(s, wk, a).Some?
    ensures var r := ActCommand(s, wk, a).value; Follows(wk, r.0, r.1)
  {
    hide NextCommand, AfterCommand, Follows, Failed, Astray, Plausible;
    var r := ActCommand(s, wk, a).value;
    if a.ok {
      AfterFlow(wk, a.text, r.1);
    } else {
      FailFlow(wk, a.text, Close);
      FailedFlow(wk, a.text, r.1);
    }
  }

  lemma FailedFlow(wk: Worker, text: string, e: Effect)
    requires NextCommand(wk).Some? && CommandEffect(e) && Failed(wk, wk.Fail(text, Close), Close)
    ensures AfterCommand(wk, false, text) == wk.Fail(text, Close) && Follows(wk, wk.Fail(text, Close), e)
  {
    hide Failed, LoadCmd, ImageRef;
  }

  lemma StoreFlow(s: State, w: nat, wk: Worker, a: Answer)
    requires (wk.pc.PatchKey? || wk.pc.CreateKey?) && Act(s, w, wk, a).Some?
    ensures var r := Act(s, w, wk, a).value; Follows(wk, r.0, r.1)
  {
    hide SignerKeyJson.Patched, TargetName;
  }

  lemma ExitFlow(s: State, w: nat, wk: Worker, a: Answer)
    requires (wk.pc.Close? || wk.pc.Respond?) && Act(s, w, wk, a).Some?
    ensures var r := Act(s, w, wk, a).value; Follows(wk, r.0, r.1)
  {
  }

  /** Every call of a run follows this flow. */
  lemma ActFollows(s: State, w: nat, wk: Worker, a: Answer)
    requires Act(s, w, wk, a).Some?
    ensures var r := Act(s, w, wk, a).value; Follows(wk, r.0, r.1)
  {
    hide Follows, ActGetSigner, ActGetKey, ActCheckKey, ActNewController, ActCreatePod, ActWaitPod, ActCommand,
         ActPatchKey, ActCreateKey, ActClose, ActRespond;
    match wk.pc
    case GetSigner => EarlyFlow(s, w, wk, a);
    case GetKey => EarlyFlow(s, w, wk, a);
    case CheckKey => EarlyFlow(s, w, wk, a);
    case NewController => NewControllerFlow(s, w, wk, a);
    case CreatePod => CreateFlow(s, w, wk, a);
    case WaitPod(_) => WaitFlow(s, w, wk, a);
    case PatchKey(_) => StoreFlow(s, w, wk, a);
    case CreateKey(_) => StoreFlow(s, w, wk, a);
    case Close => ExitFlow(s, w, wk, a);
    case Respond => ExitFlow(s, w, wk, a);
    case _ => CommandFlow(s, w, wk, a);
  }

  /** What the flow comes to for the run's job, its choices and the store. */
  predicate Outline(wk: Worker, next: Worker, e: Effect) {
    && SameJob(wk.job, next.job)
    && (next.job == wk.job || !Successful(next.job) || wk.job.SignJob? || (wk.pc.CreateKey? && e.NewKey?))
    && (wk.pc.Close? || wk.pc.Respond? ==> next.job == wk.job)
    && (!wk.pc.NewController? ==> next.regctl == wk.regctl && next.pod == wk.pod)
    && (next.pc.GetKey? ==> wk.pc.GetSigner?)
    && (e.SetResponse? || e.SetState? ==> wk.pc.Respond?)
    && (e.NewKey? ==> wk.pc.CreateKey? && e.spec.targets == None)
    && (e.AddKeyVersion? ==> wk.pc.PatchKey? && wk.job.SignJob?)
    && (e.DeleteForeign? ==> wk.pc.Close?)
  }

  lemma ActOutline(s: State, w: nat, wk: Worker, a: Answer)
    requires Act(s, w, wk, a).Some?
    ensures var r := Act(s, w, wk, a).value; Outline(wk, r.0, r.1)
  {
    hide Act, Follows, Outline;
    ActFollows(s, w, wk, a);
    FollowsOutline(wk, Act(s, w, wk, a).value.0, Act(s, w, wk, a).value.1);
  }

  lemma FollowsOutline(wk: Worker, next: Worker, e: Effect)
    requires Follows(wk, next, e)
    ensures Outline(wk, next, e)
  {
    hide FollowsOutside, FollowsSigning, FollowsKeyWork, Outline;
    if Signing(wk.pc) {
      SigningOutline(wk, next, e);
    } else if KeyWork(wk.pc) {
      KeyWorkOutline(wk, next, e);
    } else {
      OutsideOutline(wk, next, e);
    }
  }

  lemma SigningOutline(wk: Worker, next: Worker, e: Effect)
    requires FollowsSigning(wk, next, e)
    ensures Outline(wk, next, e)
  {
  }

  lemma KeyWorkOutline(wk: Worker, next: Worker, e: Effect)
    requires FollowsKeyWork(wk, next, e)
    ensures Outline(wk, next, e)
  {
  }

  lemma OutsideOutline(wk: Worker, next: Worker, e: Effect)
    requires FollowsOutside(wk, next, e)
    ensures Outline(wk, next, e)
  {
    hide FollowsLooking, FollowsPod;
    if Looking(wk.pc) {
      LookingOutline(wk, next, e);
    } else {
      PodOutline(wk, next, e);
    }
  }

  lemma LookingOutline(wk: Worker, next: Worker, e: Effect)
    requires FollowsLooking(wk, next, e)
    ensures Outline(wk, next, e)
  {
  }

  lemma PodOutline(wk: Worker, next: Worker, e: Effect)
    requires FollowsPod(wk, next, e)
    ensures Outline(wk, next, e)
  {
  }

  // ---------------------------------------------------------------- every run ends

  /** Calls still to come, but for the key files still to read. */
  function Stage(pc: Pc): nat {
    match pc
    case GetSigner => 90
    case GetKey => 89
    case CheckKey => 89
    case NewController => 88
    case CreatePod => 87
    case WaitPod(tries) => if tries < MaxRetryCount then 20 + (MaxRetryCount - tries) else 20
    case LoadImage => 19
    case ListImages => 18
    case TagImage(_) => 17
    case Sign => 16
    case MakeDir => 15
    case Generate => 14
    case ListKeys => 13
    case ReadKeys(_) => 12
    case PatchKey(_) => 11
    case CreateKey(_) => 10
    case Close => 3
    case Respond => 2
    case Done => 1
    case Crashed => 0
  }

  function Unread(pc: Pc): nat { if pc.ReadKeys? then |pc.names| else 0 }

  /** Every answered call brings a run nearer to its end: no run makes calls for ever, however it is answered. */
  lemma RunsEnd(s: State, w: nat, wk: Worker, a: Answer)
    requires Act(s, w, wk, a).Some?
    ensures var next := Act(s, w, wk, a).value.0.pc;
            Stage(next) < Stage(wk.pc) || (Stage(next) == Stage(wk.pc) && Unread(next) < Unread(wk.pc))
  {
    hide Act, Follows;
    ActFollows(s, w, wk, a);
    StageDrops(wk, Act(s, w, wk, a).value.0, Act(s, w, wk, a).value.1);
  }

  lemma StageDrops(wk: Worker, next: Worker, e: Effect)
    requires Follows(wk, next, e)
    ensures Stage(next.pc) < Stage(wk.pc) || (Stage(next.pc) == Stage(wk.pc) && Unread(next.pc) < Unread(wk.pc))
  {
    hide FollowsOutside, FollowsSigning, FollowsKeyWork;
    if Signing(wk.pc) {
      SigningDrops(wk, next, e);
    } else if KeyWork(wk.pc) {
      KeyWorkDrops(wk, next, e);
    } else {
      OutsideDrops(wk, next, e);
    }
  }

  lemma SigningDrops(wk: Worker, next: Worker, e: Effect)
    requires FollowsSigning(wk, next, e)
    ensures Stage(next.pc) < Stage(wk.pc)
  {
    hide SameRun, Successful, Unset, CommandEffect;
  }

  lemma KeyWorkDrops(wk: Worker, next: Worker, e: Effect)
    requires FollowsKeyWork(wk, next, e)
    ensures Stage(next.pc) < Stage(wk.pc) || (Stage(next.pc) == Stage(wk.pc) && Unread(next.pc) < Unread(wk.pc))
  {
    hide SameRun, Successful, Unset, CommandEffect;
  }

  lemma OutsideDrops(wk: Worker, next: Worker, e: Effect)
    requires FollowsOutside(wk, next, e)
    ensures Stage(next.pc) < Stage(wk.pc)
  {
    hide FollowsLooking, FollowsPod;
    if Looking(wk.pc) {
      LookingDrops(wk, next, e);
    } else {
      PodDrops(wk, next, e);
    }
  }

  lemma LookingDrops(wk: Worker, next: Worker, e: Effect)
    requires FollowsLooking(wk, next, e)
    ensures Stage(next.pc) < Stage(wk.pc)
  {
    hide SameRun, Successful, Unset, CommandEffect;
  }

  lemma TakenCloses(wk: Worker)
    ensures NameTaken(wk).pc.Close?
  {
  }

  lemma PodDrops(wk: Worker, next: Worker, e: Effect)
    requires FollowsPod(wk, next, e)
    ensures Stage(next.pc) < Stage(wk.pc)
  {
    hide SameRun, Successful, Unset, CommandEffect, NameTaken;
    TakenCloses(wk);
  }
}
