/**
 JSON values and the merge patch that every state change of a run goes through (go/types.go).
 A value is a tree; cloning is the identity on trees, so it does not appear.
 */
module Json {

  datatype Json =
    | Null
    | Bool(b: bool)
    | Num(n: real)
    | Str(s: string)
    | Arr(items: seq<Json>)
    | Obj(fields: map<string, Json>)

  type Object = map<string, Json>

  /** The object left after applying `patch` to `base`: null members delete, objects merge into objects,
      everything else is copied. */
  function MergePatch(base: Object, patch: Json): Object
    requires patch.Obj?
    decreases patch
  {
    var p := patch.fields;
    map k | k in base.Keys + p.Keys && !(k in p && p[k].Null?) ::
      if k !in p then base[k]
      else if p[k].Obj? && k in base && base[k].Obj? then Obj(MergePatch(base[k].fields, p[k]))
      else p[k]
  }

  /** The updating loop of the source: the keys come in any order, and the result does not depend on it. */
  method MergePatchLoop(base: Object, patch: Json) returns (out: Object)
    requires patch.Obj?
    ensures out == MergePatch(base, patch)
    decreases patch
  {
    out := base;
    var p := patch.fields;
    var todo := p.Keys;
    while todo != {}
      invariant todo <= p.Keys
      invariant forall k :: k in todo ==> (k in out <==> k in base) && (k in base ==> out[k] == base[k])
      invariant forall k :: k !in todo ==> (k in out <==> k in MergePatch(base, patch))
      invariant forall k :: k !in todo && k in out ==> out[k] == MergePatch(base, patch)[k]
    {
      var key :| key in todo;
      todo := todo - {key};
      if p[key].Null? {
        out := map k | k in out && k != key :: out[k];
      } else if p[key].Obj? && key in out && out[key].Obj? {
        var merged := MergePatchLoop(out[key].fields, p[key]);
        out := out[key := Obj(merged)];
      } else {
        out := out[key := p[key]];
      }
    }
    assert out.Keys == MergePatch(base, patch).Keys;
  }

  /** JSON Merge Patch as section 2 of RFC 7396 defines it. `Null` stands for an undefined target. */
  function Rfc7396(target: Json, patch: Json): Json
    decreases patch
  {
    if !patch.Obj? then patch
    else
      var t := if target.Obj? then target.fields else map[];
      var p := patch.fields;
      Obj(map k | k in t.Keys + p.Keys && !(k in p && p[k].Null?) ::
            if k !in p then t[k] else Rfc7396(if k in t then t[k] else Null, p[k]))
  }

  /** No null member at any depth of nested objects. */
  predicate NullFree(j: Json)
  {
    j.Obj? ==> forall k :: k in j.fields ==> !j.fields[k].Null? && NullFree(j.fields[k])
  }

  /** Every object of `patch` that lands on something that is not an object is free of nulls. */
  predicate CopiesNoNull(base: Object, patch: Json)
    requires patch.Obj?
    decreases patch
  {
    var p := patch.fields;
    forall k :: k in p && p[k].Obj? ==>
      if k in base && base[k].Obj? then CopiesNoNull(base[k].fields, p[k]) else NullFree(p[k])
  }

  lemma RfcReplacesNonObject(target: Json, patch: Json)
    requires !patch.Obj?
    ensures Rfc7396(target, patch) == patch
  {
  }

  lemma {:induction false} RfcOnFreshTarget(target: Json, patch: Json)
    requires patch.Obj? && !target.Obj?
    ensures Rfc7396(target, patch) == patch <==> NullFree(patch)
    decreases patch
  {
    var p := patch.fields;
    forall k | k in p && p[k].Obj?
      ensures Rfc7396(Null, p[k]) == p[k] <==> NullFree(p[k])
    {
      RfcOnFreshTarget(Null, p[k]);
    }
    forall k | k in p && !p[k].Obj? ensures Rfc7396(Null, p[k]) == p[k] {
      RfcReplacesNonObject(Null, p[k]);
    }
    var r := Rfc7396(target, patch).fields;
    if NullFree(patch) {
      assert r == p;
    } else {
      var k :| k in p && (p[k].Null? || !NullFree(p[k]));
      assert k !in r || r[k] != p[k];
    }
  }

  /** The code agrees with RFC 7396 exactly when no null is copied along with a fresh object. */
  lemma {:induction false} MergePatchIsRfc7396Iff(base: Object, patch: Json)
    requires patch.Obj?
    ensures Obj(MergePatch(base, patch)) == Rfc7396(Obj(base), patch) <==> CopiesNoNull(base, patch)
    decreases patch
  {
    var p := patch.fields;
    var m, r := MergePatch(base, patch), Rfc7396(Obj(base), patch).fields;
    assert m.Keys == r.Keys;
    forall k | k in p && p[k].Obj?
      ensures m[k] == r[k] <==>
              if k in base && base[k].Obj? then CopiesNoNull(base[k].fields, p[k]) else NullFree(p[k])
    {
      if k in base && base[k].Obj? {
        MergePatchIsRfc7396Iff(base[k].fields, p[k]);
      } else {
        RfcOnFreshTarget(if k in base then base[k] else Null, p[k]);
      }
    }
    forall k | k in m && !(k in p && p[k].Obj?) ensures m[k] == r[k] {
      if k in p {
        RfcReplacesNonObject(if k in base then base[k] else Null, p[k]);
      }
    }
    if CopiesNoNull(base, patch) {
      assert m == r;
    }
  }

  lemma {:induction false} SelfMerge(j: Json)
    requires j.Obj?
    ensures MergePatch(j.fields, j) == j.fields <==> NullFree(j)
    decreases j
  {
    var p := j.fields;
    forall k | k in p && p[k].Obj?
      ensures MergePatch(p[k].fields, p[k]) == p[k].fields <==> NullFree(p[k])
    {
      SelfMerge(p[k]);
    }
    var m := MergePatch(p, j);
    if NullFree(j) {
      assert m == p;
    } else {
      var k :| k in p && (p[k].Null? || !NullFree(p[k]));
      assert k !in m || m[k] != p[k];
    }
  }

  /** Re-applying a patch changes nothing under exactly the same condition. */
  lemma {:induction false} MergePatchIdempotentIff(base: Object, patch: Json)
    requires patch.Obj?
    ensures MergePatch(MergePatch(base, patch), patch) == MergePatch(base, patch) <==> CopiesNoNull(base, patch)
    decreases patch
  {
    var p := patch.fields;
    var m := MergePatch(base, patch);
    var mm := MergePatch(m, patch);
    assert m.Keys == mm.Keys;
    forall k | k in p && p[k].Obj?
      ensures mm[k] == m[k] <==>
              if k in base && base[k].Obj? then CopiesNoNull(base[k].fields, p[k]) else NullFree(p[k])
    {
      if k in base && base[k].Obj? {
        MergePatchIdempotentIff(base[k].fields, p[k]);
      } else {
        SelfMerge(p[k]);
      }
    }
    assert forall k :: k in m && !(k in p && p[k].Obj?) ==> mm[k] == m[k];
    if CopiesNoNull(base, patch) {
      assert mm == m;
    }
  }

  /** A patch whose nested objects hold no null meets the condition on every base. */
  lemma {:induction false} NullFreePatchIsStandard(base: Object, patch: Json)
    requires patch.Obj?
    requires forall k :: k in patch.fields ==> NullFree(patch.fields[k])
    ensures Obj(MergePatch(base, patch)) == Rfc7396(Obj(base), patch)
    ensures MergePatch(MergePatch(base, patch), patch) == MergePatch(base, patch)
  {
    NullFreeCopiesNoNull(base, patch);
    MergePatchIsRfc7396Iff(base, patch);
    MergePatchIdempotentIff(base, patch);
  }

  lemma {:induction false} NullFreeCopiesNoNull(base: Object, patch: Json)
    requires patch.Obj?
    requires forall k :: k in patch.fields ==> NullFree(patch.fields[k])
    ensures CopiesNoNull(base, patch)
    decreases patch
  {
    var p := patch.fields;
    forall k | k in p && p[k].Obj? && k in base && base[k].Obj?
      ensures CopiesNoNull(base[k].fields, p[k])
    {
      NullFreeCopiesNoNull(base[k].fields, p[k]);
    }
  }

  /** The condition is needed: a null inside a fresh object survives the first application only. */
  lemma LeakedNull()
    ensures var patch := Obj(map["a" := Obj(map["b" := Null])]);
            && !CopiesNoNull(map[], patch)
            && MergePatch(map[], patch) == patch.fields
            && MergePatch(patch.fields, patch) == map["a" := Obj(map[])]
  {
    var inner := Obj(map["b" := Null]);
    var patch := Obj(map["a" := inner]);
    assert !NullFree(inner) by { assert "b" in inner.fields; }
    assert "a" in patch.fields;
    assert MergePatch(inner.fields, inner) == map[];
  }
}
