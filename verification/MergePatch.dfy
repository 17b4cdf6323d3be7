/**
 JSON merge patches: how the API server applies one (section 2 of RFC 7396) and how the client
 computes one from an original and a modified document.
 */
module MergePatch {

  /** Numbers, booleans and arrays are never looked into; they are scalars like strings. */
  datatype Json = Null | Scalar(text: string) | Obj(fields: map<string, Json>) {
    function Fields(): map<string, Json> { if Obj? then fields else map[] }

    function Get(k: string): Json { if k in Fields() then Fields()[k] else Null }
  }

  predicate NullFree(j: Json) {
    match j
    case Null => false
    case Scalar(_) => true
    case Obj(m) => forall k :: k in m ==> NullFree(m[k])
  }

  /** MergePatch of RFC 7396: a null removes a member, an object is merged, anything else replaces. */
  function Merge(target: Json, patch: Json): Json
    decreases patch
  {
    if !patch.Obj? then patch
    else
      var was := target.Fields();
      Obj(map k | k in was.Keys + patch.fields.Keys && (k in patch.fields ==> patch.fields[k] != Null) ::
            if k in patch.fields then Merge(if k in was then was[k] else Null, patch.fields[k]) else was[k])
  }

  /** The client's diff of two objects: changed members, recursively; null for members that are gone. */
  function Diff(a: Json, b: Json): Json
    decreases b
  {
    var was, now := a.Fields(), b.Fields();
    Obj(map k | k in was.Keys + now.Keys && (k in was && k in now ==> was[k] != now[k]) ::
          if k !in now then Null
          else if k in was && was[k].Obj? && now[k].Obj? then Diff(was[k], now[k])
          else now[k])
  }

  /** Merging into a document field by field. */
  lemma MergeGet(target: Json, patch: Json, k: string)
    requires patch.Obj?
    ensures Merge(target, patch).Obj?
    ensures k in Merge(target, patch).fields <==>
            if k in patch.fields then patch.fields[k] != Null else k in target.Fields()
    ensures k in patch.fields && patch.fields[k] != Null ==>
              Merge(target, patch).fields[k] == Merge(target.Get(k), patch.fields[k])
    ensures k !in patch.fields && k in target.Fields() ==> Merge(target, patch).fields[k] == target.Fields()[k]
  {
  }

  /** A patch of one member changes that member only. */
  lemma MergeMember(target: Json, k: string, p: Json)
    requires p != Null
    ensures Merge(target, Obj(map[k := p])) == Obj(target.Fields()[k := Merge(target.Get(k), p)])
  {
    assert Merge(target, Obj(map[k := p])).fields == target.Fields()[k := Merge(target.Get(k), p)];
  }

  /** The diff of two objects that differ in one member. */
  lemma DiffMember(a: Json, k: string, v: Json)
    requires a.Obj? && (k in a.fields ==> a.fields[k] != v)
    ensures Diff(a, Obj(a.fields[k := v])) ==
            Obj(map[k := if k in a.fields && a.fields[k].Obj? && v.Obj? then Diff(a.fields[k], v) else v])
  {
    var d := Diff(a, Obj(a.fields[k := v])).fields;
    assert k in d;
    assert d.Keys == {k};
  }

  /** A null-free patch replaces whatever is not an object. */
  lemma {:induction false} MergeIntoScalar(target: Json, patch: Json)
    requires NullFree(patch) && !(target.Obj? && patch.Obj?)
    ensures Merge(target, patch) == patch
    decreases patch
  {
    if patch.Obj? {
      forall k | k in patch.fields ensures Merge(Null, patch.fields[k]) == patch.fields[k] {
        MergeIntoScalar(Null, patch.fields[k]);
      }
      assert Merge(target, patch).fields == patch.fields;
    }
  }

  /** Round trip: the diff, applied to the document it was computed from, gives the modified document. */
  lemma {:induction false} DiffThenMerge(a: Json, b: Json)
    requires a.Obj? && b.Obj? && NullFree(b)
    ensures Merge(a, Diff(a, b)) == b
    decreases b
  {
    var d := Diff(a, b);
    var r := Merge(a, d).fields;
    forall k | k in b.fields ensures k in r && r[k] == b.fields[k] {
      if k in a.fields && a.fields[k].Obj? && b.fields[k].Obj? {
        DiffThenMerge(a.fields[k], b.fields[k]);
      } else if k in d.fields {
        MergeIntoScalar(a.Get(k), b.fields[k]);
      }
    }
    assert r.Keys == b.fields.Keys;
  }

  /** A diff is empty exactly when nothing changed. */
  lemma DiffEmpty(a: Json, b: Json)
    requires a.Obj? && b.Obj?
    ensures Diff(a, b) == Obj(map[]) <==> a == b
  {
    var d := Diff(a, b).fields;
    if d == map[] {
      forall k | k in a.fields.Keys + b.fields.Keys ensures k in a.fields && k in b.fields && a.fields[k] == b.fields[k] {
        assert k !in d;
      }
      assert a.fields == b.fields;
    } else {
      var k :| k in d;
    }
  }

  /** Applying a patch twice is applying it once, so a retried patch does no harm. */
  lemma {:induction false} MergeIdempotent(target: Json, patch: Json)
    ensures Merge(Merge(target, patch), patch) == Merge(target, patch)
    decreases patch
  {
    if patch.Obj? {
      var once := Merge(target, patch);
      var twice := Merge(once, patch);
      forall k | k in patch.fields && patch.fields[k] != Null ensures k in once.fields && twice.fields[k] == once.fields[k] {
        MergeIdempotent(target.Get(k), patch.fields[k]);
        MergeGet(target, patch, k);
        MergeGet(once, patch, k);
      }
      assert twice.fields.Keys == once.fields.Keys;
      assert twice.fields == once.fields;
    }
  }

  /** Two patches that touch no common member, at any depth. */
  predicate Disjoint(p: Json, q: Json)
    decreases p
  {
    p.Obj? && q.Obj? &&
    forall k :: k in p.fields && k in q.fields ==> Disjoint(p.fields[k], q.fields[k])
  }

  /** Disjoint patches commute on every document, so none of two concurrent changes is lost. */
  lemma {:induction false} DisjointCommute(target: Json, p: Json, q: Json)
    requires Disjoint(p, q)
    ensures Merge(Merge(target, p), q) == Merge(Merge(target, q), p)
    decreases p
  {
    var tp, tq := Merge(target, p), Merge(target, q);
    var l, r := Merge(tp, q), Merge(tq, p);
    forall k ensures k in l.fields <==> k in r.fields
             ensures k in l.fields ==> l.fields[k] == r.fields[k]
    {
      MergeGet(target, p, k);
      MergeGet(target, q, k);
      MergeGet(tp, q, k);
      MergeGet(tq, p, k);
      if k in p.fields && k in q.fields {
        assert Disjoint(p.fields[k], q.fields[k]);
        DisjointCommute(target.Get(k), p.fields[k], q.fields[k]);
        assert tp.Get(k) == Merge(target.Get(k), p.fields[k]);
        assert tq.Get(k) == Merge(target.Get(k), q.fields[k]);
      } else if k in p.fields {
        assert tq.Get(k) == target.Get(k);
      } else if k in q.fields {
        assert tp.Get(k) == target.Get(k);
      }
    }
    assert l.fields.Keys == r.fields.Keys;
  }
}
