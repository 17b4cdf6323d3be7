/** SignerKey objects as JSON, and the patch `AddTargetKey` sends. */
module SignerKeyJson {
  import opened Wrappers
  import opened ApiTypes
  import opened MergePatch

  function KeyJson(k: TrustKey): Json {
    Obj(map["id" := Scalar(k.id), "key" := Scalar(k.key), "passPhrase" := Scalar(k.passPhrase)])
  }

  function TargetsJson(targets: map<string, TrustKey>): Json {
    Obj(map n | n in targets :: KeyJson(targets[n]))
  }

  function SpecJson(spec: SignerKeySpec): Json {
    Obj(map["root" := KeyJson(spec.root)] +
        if spec.targets.Some? then map["targets" := TargetsJson(spec.targets.value)] else map[])
  }

  /** A stored object: `metadata` stands for every member beside the spec. A nil map is left out, an empty one is kept. */
  function Stored(metadata: map<string, Json>, spec: SignerKeySpec): Json {
    Obj(metadata["spec" := SpecJson(spec)])
  }

  /** What the client marshals for a patch: `omitempty` also leaves out an empty map. */
  function Marshalled(metadata: map<string, Json>, spec: SignerKeySpec): Json {
    Stored(metadata, if spec.Entries() == map[] then spec.(targets := None) else spec)
  }

  function ReadKey(j: Json): Option<TrustKey> {
    if j.Get("id").Scalar? && j.Get("key").Scalar? && j.Get("passPhrase").Scalar?
    then Some(TrustKey(j.Get("id").text, j.Get("key").text, j.Get("passPhrase").text))
    else None
  }

  /** Decoding a stored object; None for a document that is not a SignerKey. */
  function Decode(doc: Json): Option<SignerKeySpec> {
    var spec := doc.Get("spec");
    var root := ReadKey(spec.Get("root"));
    if root.None? then None
    else if "targets" !in spec.Fields() then Some(SignerKeySpec(root.value, None))
    else
      var m := spec.Get("targets").Fields();
      if spec.Get("targets").Obj? && forall n :: n in m ==> ReadKey(m[n]).Some?
      then Some(SignerKeySpec(root.value, Some(map n | n in m :: ReadKey(m[n]).value)))
      else None
  }

  /** The members of a key as an object. */
  predicate KeyAs(j: Json, k: TrustKey) {
    && j.Obj? && j.fields.Keys == {"id", "key", "passPhrase"}
    && j.Get("id") == Scalar(k.id) && j.Get("key") == Scalar(k.key) && j.Get("passPhrase") == Scalar(k.passPhrase)
  }

  /** Which members a stored object has beside its metadata: the root, and the targets unless they are nil. */
  lemma StoredMembers(metadata: map<string, Json>, spec: SignerKeySpec)
    ensures var s := Stored(metadata, spec).Get("spec");
            && KeyAs(s.Get("root"), spec.root)
            && ("targets" in s.Fields() <==> spec.targets.Some?) && s.Fields().Keys <= {"root", "targets"}
            && s.Get("targets").Fields().Keys == spec.Entries().Keys
            && forall n :: n in spec.Entries() ==> KeyAs(s.Get("targets").Get(n), spec.Entries()[n])
    ensures forall m :: m in metadata && m != "spec" ==> Stored(metadata, spec).Get(m) == metadata[m]
  {
    var s := Stored(metadata, spec).Get("spec");
    if spec.targets.Some? {
      assert s.Get("targets") == TargetsJson(spec.targets.value);
    }
  }

  /** Reading back a stored SignerKey loses nothing. */
  lemma DecodeStored(metadata: map<string, Json>, spec: SignerKeySpec)
    ensures Decode(Stored(metadata, spec)) == Some(spec)
  {
    var s := Stored(metadata, spec).Get("spec");
    assert ReadKey(s.Get("root")) == Some(spec.root);
    if spec.targets.Some? {
      var m := s.Get("targets").Fields();
      assert forall n :: n in m ==> ReadKey(m[n]) == Some(spec.targets.value[n]);
      assert (map n | n in m :: ReadKey(m[n]).value) == spec.targets.value;
    }
  }

  /** The merge patch of AddTargetKey: `MergeFrom(original)` against the copy that has the new entry. */
  function TargetPatch(metadata: map<string, Json>, original: SignerKeySpec, name: string, key: TrustKey): Json {
    Diff(Marshalled(metadata, original), Marshalled(metadata, original.WithTarget(name, key)))
  }

  lemma TargetsWith(targets: map<string, TrustKey>, name: string, key: TrustKey)
    ensures TargetsJson(targets[name := key]) == Obj(TargetsJson(targets).fields[name := KeyJson(key)])
  {
    assert TargetsJson(targets[name := key]).fields == TargetsJson(targets).fields[name := KeyJson(key)];
  }

  lemma SpecWith(spec: SignerKeySpec, name: string, key: TrustKey)
    ensures SpecJson(spec).Get("targets").Fields() == TargetsJson(spec.Entries()).fields
    ensures SpecJson(spec.WithTarget(name, key)) ==
            Obj(SpecJson(spec).fields["targets" := TargetsJson(spec.Entries()[name := key])])
  {
    assert SpecJson(spec.WithTarget(name, key)).fields ==
           SpecJson(spec).fields["targets" := TargetsJson(spec.Entries()[name := key])];
  }

  lemma SpecDiff(original: SignerKeySpec, name: string, key: TrustKey)
    requires name !in original.Entries() && (original.targets.Some? ==> original.targets.value != map[])
    ensures Diff(SpecJson(original), SpecJson(original.WithTarget(name, key)))
         == Obj(map["targets" := Obj(map[name := KeyJson(key)])])
  {
    var sa, ta, tb := SpecJson(original), TargetsJson(original.Entries()), TargetsJson(original.Entries()[name := key]);
    SpecWith(original, name, key);
    TargetsWith(original.Entries(), name, key);
    assert name in tb.fields && name !in ta.fields;
    DiffMember(ta, name, KeyJson(key));
    DiffMember(sa, "targets", tb);
    if original.targets.None? {
      assert tb.fields == map[name := KeyJson(key)];
    }
  }

  /** The patch names the one new entry and nothing else, whatever else the object holds. */
  lemma TargetPatchIs(metadata: map<string, Json>, original: SignerKeySpec, name: string, key: TrustKey)
    requires name !in original.Entries()
    ensures TargetPatch(metadata, original, name, key)
         == Obj(map["spec" := Obj(map["targets" := Obj(map[name := KeyJson(key)])])])
    ensures KeyAs(KeyJson(key), key)
  {
    KeyJsonIs(key);
    hide Diff, KeyJson, KeyAs;
    var marshalled := if original.Entries() == map[] then original.(targets := None) else original;
    var modified := original.WithTarget(name, key);
    assert modified == marshalled.WithTarget(name, key);
    SpecDiff(marshalled, name, key);
    var a, sb := Stored(metadata, marshalled), SpecJson(modified);
    assert a.fields["spec" := sb] == Stored(metadata, modified).fields;
    assert name in modified.Entries();
    var d := Obj(map["targets" := Obj(map[name := KeyJson(key)])]);
    assert "targets" in d.fields;
    DiffEmpty(a.fields["spec"], sb);
    DiffMember(a, "spec", sb);
  }

  lemma MergeTargets(targets: Json, name: string, key: TrustKey, entries: map<string, TrustKey>)
    requires targets.Fields() == TargetsJson(entries).fields
    ensures Merge(targets, Obj(map[name := KeyJson(key)])) == TargetsJson(entries[name := key])
  {
    MergeMember(targets, name, KeyJson(key));
    TargetsWith(entries, name, key);
    KeyReplaces(targets.Get(name), key);
  }

  lemma MergeSpec(current: SignerKeySpec, name: string, key: TrustKey)
    ensures Merge(SpecJson(current), Obj(map["targets" := Obj(map[name := KeyJson(key)])]))
         == SpecJson(current.WithTarget(name, key))
  {
    SpecWith(current, name, key);
    MergeMember(SpecJson(current), "targets", Obj(map[name := KeyJson(key)]));
    MergeTargets(SpecJson(current).Get("targets"), name, key, current.Entries());
  }

  lemma MergeStored(metadata: map<string, Json>, current: SignerKeySpec, name: string, key: TrustKey)
    ensures Merge(Stored(metadata, current), Obj(map["spec" := Obj(map["targets" := Obj(map[name := KeyJson(key)])])]))
         == Stored(metadata, current.WithTarget(name, key))
  {
    MergeSpec(current, name, key);
    var doc, p := Stored(metadata, current), Obj(map["targets" := Obj(map[name := KeyJson(key)])]);
    MergeMember(doc, "spec", p);
    assert doc.Get("spec") == SpecJson(current);
    var merged := Merge(SpecJson(current), p);
    assert doc.Fields()["spec" := merged] == metadata["spec" := merged];
  }

  /** The patch sent for a stale original, applied to any current version, changes exactly the one entry. */
  lemma PatchExact(metadata: map<string, Json>, original: SignerKeySpec, name: string, key: TrustKey,
                   metadata': map<string, Json>, current: SignerKeySpec)
    requires name !in original.Entries()
    ensures Merge(Stored(metadata', current), TargetPatch(metadata, original, name, key))
         == Stored(metadata', current.WithTarget(name, key))
  {
    TargetPatchIs(metadata, original, name, key);
    MergeStored(metadata', current, name, key);
  }

  /** All three fields are in the patch, so racing patches of one name never mix two keys. */
  lemma KeyReplaces(was: Json, key: TrustKey)
    requires was.Obj? ==> was.fields.Keys <= {"id", "key", "passPhrase"}
    ensures Merge(was, KeyJson(key)) == KeyJson(key)
  {
    var k := KeyJson(key);
    KeyJsonIs(key);
    hide KeyJson, Merge;
    forall x ensures x in Merge(was, k).Fields() <==> x in k.fields
             ensures x in k.fields ==> x in Merge(was, k).Fields() && Merge(was, k).fields[x] == k.fields[x]
    {
      MergeGet(was, k, x);
      if x in k.fields {
        MergeScalar(was.Get(x), k.fields[x]);
      }
    }
    MergeGet(was, k, "id");
    assert Merge(was, k).fields == k.fields;
  }

  lemma KeyJsonIs(key: TrustKey)
    ensures KeyAs(KeyJson(key), key)
    ensures forall x :: x in KeyJson(key).fields ==> KeyJson(key).fields[x].Scalar?
  {
  }

  lemma MergeScalar(target: Json, patch: Json)
    requires patch.Scalar?
    ensures Merge(target, patch) == patch
  {
  }

  /** Patches for different target names commute on every document, even one that is not a SignerKey. */
  lemma PatchesCommute(doc: Json, metadata: map<string, Json>, original: SignerKeySpec, name: string, key: TrustKey,
                       metadata': map<string, Json>, original': SignerKeySpec, name': string, key': TrustKey)
    requires name !in original.Entries() && name' !in original'.Entries() && name != name'
    ensures var p := TargetPatch(metadata, original, name, key);
            var q := TargetPatch(metadata', original', name', key');
            Merge(Merge(doc, p), q) == Merge(Merge(doc, q), p)
  {
    TargetPatchIs(metadata, original, name, key);
    TargetPatchIs(metadata', original', name', key');
    var p, q := Obj(map[name := KeyJson(key)]), Obj(map[name' := KeyJson(key')]);
    assert Disjoint(p, q);
    assert Disjoint(Obj(map["targets" := p]), Obj(map["targets" := q]));
    DisjointCommute(doc, TargetPatch(metadata, original, name, key), TargetPatch(metadata', original', name', key'));
  }

  /** The server's answer to the patch: decode, merge, encode. */
  function Patched(original: SignerKeySpec, name: string, key: TrustKey, current: SignerKeySpec): Option<SignerKeySpec> {
    Decode(Merge(Stored(map[], current), TargetPatch(map[], original, name, key)))
  }

  lemma PatchedIs(original: SignerKeySpec, name: string, key: TrustKey, current: SignerKeySpec)
    requires name !in original.Entries()
    ensures Patched(original, name, key, current) == Some(current.WithTarget(name, key))
  {
    PatchExact(map[], original, name, key, map[], current);
    DecodeStored(map[], current.WithTarget(name, key));
  }
}
