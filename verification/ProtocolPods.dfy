/** Where signing pods are, what they are called, and what is done in them, letter by letter. */
module ProtocolPods {
  import opened Wrappers
  import opened Strings
  import opened Paths
  import opened ApiTypes
  import opened Naming
  import opened CommandOptions
  import opened Commands
  import opened Protocol
  import opened ProtocolInvariant
  import opened ProtocolRuns
  import opened ProtocolTheorems
  import opened ProtocolFlow
  import opened ProtocolAnswers
  import opened ProtocolSuccess

  // ---------------------------------------------------------------- names and namespaces

  /** The pod of a run, if it has asked for one, has the name and the namespace that its job gives it. */
  ghost predicate Placed(wk: Worker) {
    wk.pod.Some? ==> exists suffix :: RandomString(suffix, 10) && wk.pod.value == PodName(wk.job, suffix)
  }

  ghost predicate PlacesOK(s: State) { forall w :: w in s.workers ==> Placed(s.workers[w]) }

  lemma SamePlace(a: Job, b: Job, suffix: string)
    requires SameJob(a, b)
    ensures PodName(a, suffix) == PodName(b, suffix)
  {
  }

  lemma ActPlaces(s: State, w: nat, wk: Worker, a: Answer)
    requires Placed(wk) && Act(s, w, wk, a).Some?
    ensures Placed(Act(s, w, wk, a).value.0)
  {
    hide Act, PodName, RandomString;
    if wk.pc.NewController? {
      ChoicePlaces(s, w, wk, a);
    } else {
      ActOutline(s, w, wk, a);
      var next := Act(s, w, wk, a).value.0;
      if next.pod.Some? {
        var suffix :| RandomString(suffix, 10) && wk.pod.value == PodName(wk.job, suffix);
        SamePlace(wk.job, next.job, suffix);
      }
    }
  }

  lemma ChoicePlaces(s: State, w: nat, wk: Worker, a: Answer)
    requires wk.pc.NewController? && Act(s, w, wk, a).Some?
    ensures Placed(Act(s, w, wk, a).value.0)
  {
    hide PodName, RandomString, TargetName, FreshName, NewRegCtl;
    var next := Act(s, w, wk, a).value.0;
    assert RandomString(a.suffix, 10) && next.pod == Some(PodName(wk.job, a.suffix)) && next.job == wk.job;
  }

  lemma StepPlaces(s: State, e: Event)
    requires PlacesOK(s)
    ensures PlacesOK(Step(s, e))
  {
    hide Act, StepOutside, Placed;
    if !ByOperator(e) {
      OutsideWorkers(s, e);
    } else if e.Do? {
      if e.w in s.workers && Act(s, e.w, s.workers[e.w], e.answer).Some? {
        var r := Act(s, e.w, s.workers[e.w], e.answer).value;
        ActPlaces(s, e.w, s.workers[e.w], e.answer);
        SignersStay(s, e.w, r.0, r.1);
      }
    } else {
      forall w | w in Step(s, e).workers ensures Placed(Step(s, e).workers[w]) {
        StartsPlaced(s, e, w);
      }
    }
  }

  lemma StartsPlaced(s: State, e: Event, w: nat)
    requires PlacesOK(s) && ByOperator(e) && !e.Do? && w in Step(s, e).workers
    ensures Placed(Step(s, e).workers[w])
  {
    hide PodName, RandomString;
    if w in s.workers {
      assert Placed(s.workers[w]);
    }
  }

  lemma {:induction false} RunPlaces(s: State, events: seq<Event>)
    requires PlacesOK(s)
    ensures PlacesOK(Run(s, events))
    decreases |events|
  {
    hide Step, PlacesOK;
    if events != [] {
      StepPlaces(s, events[0]);
      RunPlaces(Step(s, events[0]), events[1..]);
    }
  }

  /** Ten lower-case letters or digits. */
  predicate TenRandom(suffix: string) { |suffix| == 10 && forall c :: c in suffix ==> 'a' <= c <= 'z' || '0' <= c <= '9' }

  /**
   Over all runs: a pod that serves a request is in that request's own namespace, and one that makes a root key in the
   operator's; its name says for which signer, and ends at random.
   */
  lemma PodsArePlaced(events: seq<Event>, p: NamespacedName) returns (suffix: string)
    requires p in Run(Empty, events).pods
    ensures var s := Run(Empty, events);
            && s.pods[p].owner in s.workers && TenRandom(suffix)
            && match s.workers[s.pods[p].owner].job
               case SignJob(id, _, spec, _) =>
                 p.namespace == id.key.namespace && p.name == "image-signing-by-" + spec.signer + "-" + suffix
               case RootJob(signer, _, _) =>
                 p.namespace == "reg-test" && p.name == "image-signing-by-" + signer + "-" + suffix
  {
    hide Run, Placed, PodName, RandomString;
    PodConservation(events, p);
    RunPlaces(Empty, events);
    var s := Run(Empty, events);
    var wk := s.workers[s.pods[p].owner];
    suffix := SuffixOf(wk);
    if wk.job.SignJob? {
      RequestsNamed(Empty, events);
      RequestExists(events, s.pods[p].owner);
      NoName();
    }
    PlaceIs(wk.job, suffix);
  }

  lemma SuffixOf(wk: Worker) returns (suffix: string)
    requires Placed(wk) && wk.pod.Some?
    ensures TenRandom(suffix) && wk.pod.value == PodName(wk.job, suffix)
  {
    hide PodName;
    suffix :| RandomString(suffix, 10) && wk.pod.value == PodName(wk.job, suffix);
  }

  lemma RequestExists(events: seq<Event>, w: nat)
    requires w in Run(Empty, events).workers && Run(Empty, events).workers[w].job.SignJob?
    ensures Run(Empty, events).workers[w].job.request in Run(Empty, events).requests
  {
    hide Run, HistoriesOK, KeysOK, ResponsesOK, StatesOK, PodsOK, NamesOK, Extends, RunsGrow, InPodOK, ChoiceOK;
    Reached(events, []);
    assert events + [] == events;
    assert WorkerOK(Run(Empty, events), w, Run(Empty, events).workers[w]);
  }

  lemma PlaceIs(job: Job, suffix: string)
    requires job.SignJob? ==> job.request.key.namespace != ""
    ensures match job
            case SignJob(id, _, spec, _) =>
              PodName(job, suffix) == NamespacedName(id.key.namespace, "image-signing-by-" + spec.signer + "-" + suffix)
            case RootJob(signer, _, _) =>
              PodName(job, suffix) == NamespacedName("reg-test", "image-signing-by-" + signer + "-" + suffix)
  {
  }

  // ---------------------------------------------------------------- the texts of a signing

  /** The image of the request, in a registry at a host with this URL. */
  predicate ImageAt(spec: ImageSignRequestSpec, name: string, tag: string, annotations: map<string, string>, host: string) {
    && spec.image == name + ":" + tag && ':' !in name && ':' !in tag && name != "" && CleanImage(name)
    && Normal(host) && host[0] !in "https://"
    && "tmax.io/registry-login-url" in annotations && annotations["tmax.io/registry-login-url"] == "https://" + host
  }

  /** What is handed to a shell for such an image: its archive is loaded, and it is tagged and signed under its host. */
  lemma RequestTexts(spec: ImageSignRequestSpec, name: string, tag: string, annotations: map<string, string>, host: string,
                     imageId: string)
    requires ImageAt(spec, name, tag, annotations, host)
    ensures Text(LoadCmd(spec)) == "docker load < " + ("/tmp/" + name + ".tar")
    ensures Text(Images) == "docker images -q"
    ensures Text(Tag(imageId, ImageRef(spec, annotations))) == "docker tag " + imageId + " " + (host + "/" + name + ":" + tag)
    ensures Text(TrustSign(ImageRef(spec, annotations))) == "docker trust sign " + (host + "/" + name + ":" + tag)
  {
    hide Text, ParseImage, GetEndpoint, PathJoin, Split, AllNormal;
    ParseImageInverts(name, tag, "");
    EndpointOfUrl(annotations, "https://", host);
    ArchiveHeldIff(spec);
    JoinBelow(host, name);
    TextIs(LoadCmd(spec));
    TextIs(Images);
    TextIs(Tag(imageId, ImageRef(spec, annotations)));
    TextIs(TrustSign(ImageRef(spec, annotations)));
  }

  /** Over all runs: before a Success, exactly these four texts ended well, in one pod, the first in this order. */
  lemma SuccessTexts(events: seq<Event>, id: RequestId, i: nat, name: string, tag: string, host: string)
      returns (p: NamespacedName)
    requires id in Run(Empty, events).requests && i < |Run(Empty, events).requests[id].versions|
    requires IsSuccess(Run(Empty, events).requests[id].versions[i].status)
    ensures var s := Run(Empty, events);
            && p in s.pods && s.pods[p].registry.Some? && |s.pods[p].trace| >= 4
            && var trace := s.pods[p].trace;
               (forall j :: 0 <= j < 4 ==> trace[j].ok) && Fields(trace[1].output) != []
               && (ImageAt(s.requests[id].versions[i].spec, name, tag, s.pods[p].registry.value, host) ==>
                     && Text(trace[0].command) == "docker load < " + ("/tmp/" + name + ".tar")
                     && Text(trace[1].command) == "docker images -q"
                     && Text(trace[2].command)
                     == "docker tag " + Fields(trace[1].output)[0] + " " + (host + "/" + name + ":" + tag)
                     && Text(trace[3].command) == "docker trust sign " + (host + "/" + name + ":" + tag))
  {
    hide Run, Text, TargetName, Legible, AllSafe, RestoredKeys, Answers, Holds, ImageAt, Fields, SignedWith;
    var k;
    p, k := SuccessMeansSigned(events, [], id, i);
    assert events + [] == events;
    var spec, pod := Run(Empty, events).requests[id].versions[i].spec, Run(Empty, events).pods[p];
    SignedFour(pod, spec, Last(Run(Empty, events).keys[spec.signer]).root);
    if ImageAt(spec, name, tag, pod.registry.value, host) {
      RequestTexts(spec, name, tag, pod.registry.value, host, Fields(pod.trace[1].output)[0]);
    }
  }

  lemma SignedFour(pod: Pod, spec: ImageSignRequestSpec, root: TrustKey)
    requires SignedWith(pod, spec, root)
    ensures pod.registry.Some? && |pod.trace| >= 4 && Fields(pod.trace[1].output) != []
    ensures forall j :: 0 <= j < 4 ==> pod.trace[j].ok
    ensures pod.trace[0].command == LoadCmd(spec) && pod.trace[1].command == Images
    ensures pod.trace[2].command == Tag(Fields(pod.trace[1].output)[0], ImageRef(spec, pod.registry.value))
    ensures pod.trace[3].command == TrustSign(ImageRef(spec, pod.registry.value))
  {
    hide Fields, LoadCmd, ImageRef, Environment, RestoredKeys;
  }

  /** Without a URL there is no host in the reference. */
  lemma RefWithoutHost(spec: ImageSignRequestSpec, name: string, tag: string, annotations: map<string, string>)
    requires spec.image == name + ":" + tag && ':' !in name && ':' !in tag && name != "" && CleanImage(name)
    requires "tmax.io/registry-login-url" !in annotations
    ensures ImageRef(spec, annotations) == name + ":" + tag
  {
    hide ParseImage, GetEndpoint, PathJoin, Split, AllNormal;
    ParseImageInverts(name, tag, "");
    EndpointIs(annotations);
    JoinNothing(name);
  }
}
