/** The custom resources as the reconcilers hold them in memory: structs with pointers, copied and written in place. */
module Objects {
  import opened Wrappers
  import opened ApiTypes
  import opened MergePatch
  import SignerKeyJson

  /** A Go map: a reference, shared by plain struct copies. */
  class TargetMap {
    var m: map<string, TrustKey>

    constructor ()
      ensures m == map[]
    {
      m := map[];
    }

    /** A new map, filled entry by entry, in whatever order the entries come. */
    method Copy() returns (out: TargetMap)
      ensures fresh(out) && out.m == m
    {
      out := new TargetMap();
      var rest := m;
      while rest != map[]
        invariant fresh(out)
        invariant rest.Keys <= m.Keys && forall k :: k in rest ==> rest[k] == m[k]
        invariant out.m == m - rest.Keys
        decreases |rest|
      {
        assert |rest| != 0;
        var k :| k in rest.Keys;
        FilledMore(m, rest, k);
        out.m := out.m[k := rest[k]];
        rest := rest - {k};
      }
      assert m - rest.Keys == m;
    }
  }

  lemma FilledMore(m: map<string, TrustKey>, rest: map<string, TrustKey>, k: string)
    requires k in rest && rest.Keys <= m.Keys && rest[k] == m[k]
    ensures (m - rest.Keys)[k := rest[k]] == m - (rest - {k}).Keys
    ensures |rest - {k}| < |rest|
  {
    var next := rest - {k};
    assert next.Keys == rest.Keys - {k};
    assert |next| == |next.Keys| && |rest| == |rest.Keys|;
  }

  class SignerKey {
    const name: string
    var root: TrustKey
    var targets: TargetMap?

    constructor (name: string, root: TrustKey, targets: TargetMap?)
      ensures this.name == name && this.root == root && this.targets == targets
    {
      this.name, this.root, this.targets := name, root, targets;
    }

    /** The spec as a value. */
    function Spec(): SignerKeySpec
      reads this, targets
    {
      SignerKeySpec(root, if targets == null then None else Some(targets.m))
    }

    /** SignerKey.DeepCopy: the map is allocated anew and filled entry by entry; a nil map stays nil. */
    method DeepCopy() returns (out: SignerKey)
      ensures fresh(out) && out.name == name && out.Spec() == Spec()
      ensures out.targets != null ==> fresh(out.targets)
    {
      var copied: TargetMap? := null;
      if targets != null {
        copied := targets.Copy();
      }
      out := new SignerKey(name, root, copied);
    }
  }

  /**
   The object AddTargetKey patches with: a copy of the original with one entry more. None is the panic of writing
   into a nil map. The original, which comes from the client's cache, is left alone, so the patch computed against
   it is not empty.
   */
  method CopyWithTarget(original: SignerKey, name: string, key: TrustKey) returns (target: Option<SignerKey>)
    ensures target.None? <==> original.targets == null
    ensures original.Spec() == old(original.Spec())
    ensures target.Some? ==> fresh(target.value) && target.value.Spec() == original.Spec().WithTarget(name, key)
    ensures name !in original.Spec().Entries() ==>
              SignerKeyJson.TargetPatch(map[], original.Spec(), name, key) != Obj(map[])
  {
    var copied := original.DeepCopy();
    if copied.targets == null {
      target := None;
    } else {
      copied.targets.m := copied.targets.m[name := key];
      target := Some(copied);
    }
    if name !in original.Spec().Entries() {
      SignerKeyJson.TargetPatchIs(map[], original.Spec(), name, key);
      var patch := Obj(map["spec" := Obj(map["targets" := Obj(map[name := SignerKeyJson.KeyJson(key)])])]);
      assert "spec" in patch.fields;
    }
  }

  /** The struct behind a signer's status pointer. */
  class StateCell {
    var created: bool
    var reason: string
    var message: string
    var rootKeyID: string

    constructor ()
      ensures Value() == SignerKeyState(false, "", "", "")
    {
      created, reason, message, rootKeyID := false, "", "", "";
    }

    function Value(): SignerKeyState
      reads this
    {
      SignerKeyState(created, reason, message, rootKeyID)
    }
  }

  class ImageSigner {
    const name: string
    var state: StateCell?

    constructor (name: string, state: StateCell?)
      ensures this.name == name && this.state == state
    {
      this.name, this.state := name, state;
    }

    function State(): Option<SignerKeyState>
      reads this, state
    {
      if state == null then None else Some(state.Value())
    }

    /** ImageSigner.DeepCopy copies the status pointer, not what it points to. */
    method DeepCopy() returns (out: ImageSigner)
      ensures fresh(out) && out.name == name && out.state == state
    {
      out := new ImageSigner(name, state);
    }

    /** makeSignerStatus: allocates first, so nobody who shares the old status sees the new one. */
    method MakeStatus(created: bool, reason: string, message: string, key: Option<TrustKey>)
      requires created ==> key.Some?
      modifies this`state
      ensures state != null && fresh(state)
      ensures State() == Some(MakeSignerState(created, reason, message, if key.Some? then key.value.id else ""))
      ensures State() == Some(if created then SignerKeyState(true, "", "", key.value.id)
                              else SignerKeyState(false, reason, message, ""))
    {
      state := new StateCell();
      if created {
        state.created := true;
        state.rootKeyID := key.value.id;
      } else {
        state.created := false;
        state.reason := reason;
        state.message := message;
      }
    }
  }

  class ResponseCell {
    var result: ResponseResult
    var reason: string
    var message: string

    constructor ()
    {
      result, reason, message := Fail, "", "";
    }

    function Value(): ImageSignResponse
      reads this
    {
      ImageSignResponse(result, reason, message)
    }
  }

  class ImageSignRequest {
    const spec: ImageSignRequestSpec
    var response: ResponseCell?

    constructor (spec: ImageSignRequestSpec, response: ResponseCell?)
      ensures this.spec == spec && this.response == response
    {
      this.spec, this.response := spec, response;
    }

    function Response(): Option<ImageSignResponse>
      reads this, response
    {
      if response == null then None else Some(response.Value())
    }

    method DeepCopy() returns (out: ImageSignRequest)
      ensures fresh(out) && out.spec == spec && out.response == response
    {
      out := new ImageSignRequest(spec, response);
    }

    /** makeResponse */
    method MakeResponse(result: bool, reason: string, message: string)
      modifies this`response
      ensures response != null && fresh(response)
      ensures Response() == Some(ApiTypes.MakeResponse(result, reason, message))
      ensures Response() == Some(ImageSignResponse(if result then Success else Fail, reason, message))
    {
      response := new ResponseCell();
      response.result := if result then Success else Fail;
      response.reason := reason;
      response.message := message;
    }
  }

  /** Answering on a copy leaves the cached request as it was, although the copy starts out sharing its status. */
  method AnswerOnCopy(cached: ImageSignRequest, result: bool, reason: string) returns (copy: ImageSignRequest)
    ensures fresh(copy) && copy.Response() == Some(ApiTypes.MakeResponse(result, reason, ""))
    ensures cached.Response() == old(cached.Response()) && cached.response == old(cached.response)
  {
    copy := cached.DeepCopy();
    copy.MakeResponse(result, reason, "");
  }

  /** The same for a signer's status. */
  method StatusOnCopy(cached: ImageSigner, created: bool, reason: string, key: Option<TrustKey>) returns (copy: ImageSigner)
    requires created ==> key.Some?
    ensures fresh(copy)
    ensures copy.State() == Some(MakeSignerState(created, reason, "", if key.Some? then key.value.id else ""))
    ensures cached.State() == old(cached.State()) && cached.state == old(cached.state)
  {
    copy := cached.DeepCopy();
    copy.MakeStatus(created, reason, "", key);
  }
}
