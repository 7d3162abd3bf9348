/** `apply_diff` (`formatting/sciformation_text_extractor_llm_mocof1.py`):
    a diff is merged into an ELN record recursively.  Dicts merge key by
    key, lists element by element (dict elements merging, other elements
    replaced, extra diff elements appended), and every other diff value
    replaces or adds its key.  The source changes the record in place;
    here the merge returns the new record. */
module JsonMerge {
  import opened Json

  function Max(a: nat, b: nat): nat { if a < b then b else a }

  /** The record `target` with the dict diff `patch` merged in. */
  function MergedFields(target: map<string, Json>, patch: Json): map<string, Json>
    requires patch.Obj?
    decreases patch, 0
  {
    map k | k in target.Keys + patch.fields.Keys ::
      if k in patch.fields then MergedValue(Get(target, k), patch.fields[k]) else target[k]
  }

  /** The new value of a key whose diff value is `v` and whose old value
      is `t` (`None` when absent). */
  function MergedValue(t: Json, v: Json): Json
    decreases v, 1
  {
    if v.Obj? && t.Obj? then Obj(MergedFields(t.fields, v))
    else if v.Arr? && t.Arr? then Arr(MergedList(t.items, v))
    else v
  }

  /** A list merged with the list diff `patch`: as long as the longer of
      the two. */
  function MergedList(ts: seq<Json>, patch: Json): seq<Json>
    requires patch.Arr?
    decreases patch, 0
  {
    seq(Max(|ts|, |patch.items|), i requires 0 <= i < Max(|ts|, |patch.items|) =>
      if i < |patch.items| then
        (if i < |ts| then MergedElement(ts[i], patch.items[i]) else patch.items[i])
      else ts[i])
  }

  /** A list element merged with the diff element `p`: dicts merge, any
      other diff element replaces the old one. */
  function MergedElement(t: Json, p: Json): Json
    decreases p, 1
  {
    if p.Obj? && t.Obj? then Obj(MergedFields(t.fields, p)) else p
  }

  // ---------------------------------------------------------------------
  // Properties

  /** Keys of the result are those of the record and the diff; a key the
      diff does not name keeps its value. */
  lemma MergedKeys(target: map<string, Json>, patch: map<string, Json>)
    ensures MergedFields(target, Obj(patch)).Keys == target.Keys + patch.Keys
    ensures forall k :: k in target && k !in patch ==> MergedFields(target, Obj(patch))[k] == target[k]
  {
  }

  /** An empty diff changes nothing. */
  lemma EmptyDiffIdentity(target: map<string, Json>)
    ensures MergedFields(target, Obj(map[])) == target
  {
  }

  /** A diff value that is not a dict or a list, or whose key does not
      hold a value of the same kind, replaces or adds the key. */
  lemma MergedOverwrites(target: map<string, Json>, patch: map<string, Json>, k: string)
    requires k in patch
    requires !(patch[k].Obj? && Get(target, k).Obj?) && !(patch[k].Arr? && Get(target, k).Arr?)
    ensures MergedFields(target, Obj(patch))[k] == patch[k]
  {
  }

  /** Lists merge element by element: a longer record list keeps its tail
      and a longer diff list is appended. */
  lemma MergedListShape(ts: seq<Json>, ps: seq<Json>)
    ensures var r := MergedList(ts, Arr(ps));
            |r| == Max(|ts|, |ps|)
            && (forall i :: |ps| <= i < |ts| ==> r[i] == ts[i])
            && (forall i :: |ts| <= i < |ps| ==> r[i] == ps[i])
            && (forall i :: 0 <= i < |ts| && i < |ps| && !(ps[i].Obj? && ts[i].Obj?) ==> r[i] == ps[i])
  {
  }

  /** A value merged with itself is unchanged. */
  lemma {:induction false} MergedValueSelf(v: Json)
    ensures MergedValue(v, v) == v
    decreases v, 1
  {
    match v
    case Obj(fields) => MergedFieldsSelf(fields, v);
    case Arr(items) =>
      forall i | 0 <= i < |items|
        ensures MergedElement(items[i], items[i]) == items[i]
      {
        MergedElementSelf(items[i]);
      }
      assert MergedList(items, v) == items;
    case _ =>
  }

  lemma {:induction false} MergedElementSelf(p: Json)
    ensures MergedElement(p, p) == p
    decreases p, 1
  {
    if p.Obj? {
      MergedFieldsSelf(p.fields, p);
    }
  }

  lemma {:induction false} MergedFieldsSelf(fields: map<string, Json>, patch: Json)
    requires patch == Obj(fields)
    ensures MergedFields(fields, patch) == fields
    decreases patch, 0
  {
    forall k | k in fields
      ensures MergedValue(fields[k], fields[k]) == fields[k]
    {
      MergedValueSelf(fields[k]);
    }
  }

  /** Applying the same diff twice is applying it once. */
  lemma {:induction false} MergedValueTwice(t: Json, v: Json)
    ensures MergedValue(MergedValue(t, v), v) == MergedValue(t, v)
    decreases v, 1
  {
    if v.Obj? && t.Obj? {
      MergedFieldsTwice(t.fields, v);
    } else if v.Arr? && t.Arr? {
      MergedListTwice(t.items, v);
    } else {
      MergedValueSelf(v);
    }
  }

  lemma {:induction false} MergedFieldsTwice(target: map<string, Json>, patch: Json)
    requires patch.Obj?
    ensures MergedFields(MergedFields(target, patch), patch) == MergedFields(target, patch)
    decreases patch, 0
  {
    var once := MergedFields(target, patch);
    forall k | k in patch.fields
      ensures MergedValue(Get(once, k), patch.fields[k]) == once[k]
    {
      MergedValueTwice(Get(target, k), patch.fields[k]);
    }
  }

  lemma {:induction false} MergedListTwice(ts: seq<Json>, patch: Json)
    requires patch.Arr?
    ensures MergedList(MergedList(ts, patch), patch) == MergedList(ts, patch)
    decreases patch, 0
  {
    var once := MergedList(ts, patch);
    var ps := patch.items;
    forall i | 0 <= i < |ps|
      ensures MergedElement(once[i], ps[i]) == once[i]
    {
      if i < |ts| {
        MergedElementTwice(ts[i], ps[i]);
      } else {
        MergedElementSelf(ps[i]);
      }
    }
  }

  lemma {:induction false} MergedElementTwice(t: Json, p: Json)
    ensures MergedElement(MergedElement(t, p), p) == MergedElement(t, p)
    decreases p, 1
  {
    if p.Obj? && t.Obj? {
      MergedFieldsTwice(t.fields, p);
    } else {
      MergedElementSelf(p);
    }
  }

  // ---------------------------------------------------------------------
  // The loops

  /** The merged map when only the keys in `done` of the diff have been
      visited. */
  ghost function MergedOn(target: map<string, Json>, patch: map<string, Json>, done: set<string>): map<string, Json>
  {
    map k | k in target.Keys + (patch.Keys * done) ::
      if k in patch && k in done then MergedValue(Get(target, k), patch[k]) else target[k]
  }

  /** Visiting one more key of the diff. */
  lemma MergedOnStep(target: map<string, Json>, patch: map<string, Json>, done: set<string>, k: string)
    requires k in patch && k !in done
    ensures MergedOn(target, patch, done)[k := MergedValue(Get(target, k), patch[k])]
            == MergedOn(target, patch, done + {k})
  {
  }

  /** `merge(target, patch)`: the diff's keys one at a time. */
  method Merge(target: map<string, Json>, patch: map<string, Json>) returns (r: map<string, Json>)
    ensures r == MergedFields(target, Obj(patch))
    decreases Obj(patch), 0
  {
    r := target;
    var todo := patch.Keys;
    while todo != {}
      invariant todo <= patch.Keys
      invariant r == MergedOn(target, patch, patch.Keys - todo)
      decreases todo
    {
      var k :| k in todo;
      assert Get(r, k) == Get(target, k);
      var nv := MergeValue(Get(r, k), patch[k]);
      MergedOnStep(target, patch, patch.Keys - todo, k);
      r := r[k := nv];
      assert patch.Keys - todo + {k} == patch.Keys - (todo - {k});
      todo := todo - {k};
    }
    assert patch.Keys - todo == patch.Keys;
  }

  /** The body of `merge` for one key. */
  method MergeValue(t: Json, v: Json) returns (nv: Json)
    ensures nv == MergedValue(t, v)
    decreases v, 1
  {
    if v.Obj? && t.Obj? {
      var sub := Merge(t.fields, v.fields);
      nv := Obj(sub);
    } else if v.Arr? && t.Arr? {
      var merged := MergeList(t.items, v.items);
      nv := Arr(merged);
    } else {
      nv := v;
    }
  }

  /** The list branch of `merge`: element assignment, then appends. */
  method MergeList(ts: seq<Json>, ps: seq<Json>) returns (r: seq<Json>)
    ensures r == MergedList(ts, Arr(ps))
    decreases Arr(ps), 0
  {
    r := ts;
    for i := 0 to |ps|
      invariant |r| == Max(|ts|, i)
      invariant forall j :: 0 <= j < i ==> r[j] == MergedList(ts, Arr(ps))[j]
      invariant forall j :: i <= j < |ts| ==> r[j] == ts[j]
    {
      var p := ps[i];
      if i < |r| {
        if p.Obj? && r[i].Obj? {
          var sub := Merge(r[i].fields, p.fields);
          r := r[i := Obj(sub)];
        } else {
          r := r[i := p];
        }
      } else {
        r := r + [p];
      }
    }
  }

  /** `apply_diff(item, diff)`. */
  method ApplyDiff(item: map<string, Json>, diff: map<string, Json>) returns (r: map<string, Json>)
    ensures r == MergedFields(item, Obj(diff))
  {
    r := Merge(item, diff);
  }
}
