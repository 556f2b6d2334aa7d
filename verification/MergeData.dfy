/** Case data: decoded JSON values, their leaves, and the deep merge of a patch. */
module MergeData {
  import opened Common

  /** A decoded JSON value; `Null` is Go's nil, and a list is replaced as a whole. */
  datatype Value = Null | Scalar(text: string) | List(items: seq<Value>) | Obj(fields: map<string, Value>)

  type Fields = map<string, Value>

  type Path = seq<string>

  function FieldsOf(v: Value): Fields {
    if v.Obj? then v.fields else map[]
  }

  function Get(m: Fields, k: string): Value {
    if k in m then m[k] else Null
  }

  // ---- Merging --------------------------------------------------------------------------------------------

  /** Objects are merged key by key; any other patch value, null included, replaces what was there. */
  function Merge(base: Value, patch: Value): Value
    decreases patch
  {
    if !patch.Obj? then patch
    else
      var b := FieldsOf(base);
      Obj(map k | k in b.Keys + patch.fields.Keys ::
            if k in patch.fields then Merge(Get(b, k), patch.fields[k]) else b[k])
  }

  /** The merge of those keys of the patch that are done. */
  ghost function MergedOn(base: Fields, patch: Fields, done: set<string>): Fields
    requires done <= patch.Keys
  {
    map k | k in base.Keys + done :: if k in done then Merge(Get(base, k), patch[k]) else base[k]
  }

  lemma MergedOnGrows(base: Fields, patch: Fields, done: set<string>, k: string)
    requires done <= patch.Keys && k in patch && k !in done
    ensures MergedOn(base, patch, done + {k}) == MergedOn(base, patch, done)[k := Merge(Get(base, k), patch[k])]
    ensures FieldsOf(Get(MergedOn(base, patch, done), k)) == FieldsOf(Get(base, k))
  {
  }

  lemma MergedOnAll(base: Fields, patch: Fields)
    ensures Obj(MergedOn(base, patch, patch.Keys)) == Merge(Obj(base), Obj(patch))
  {
  }

  /** The loop over the patch's keys, which Go visits in any order. */
  method DeepMerge(base: Fields, patch: Fields) returns (out: Fields)
    ensures Obj(out) == Merge(Obj(base), Obj(patch))
    decreases Obj(patch)
  {
    out := base;
    var keys := patch.Keys;
    ghost var done: set<string> := {};
    while keys != {}
      invariant keys !! done && keys + done == patch.Keys
      invariant out == MergedOn(base, patch, done)
    {
      var k :| k in keys;
      var pv := patch[k];
      MergedOnGrows(base, patch, done, k);
      if pv.Obj? {
        var merged := DeepMerge(if k in out && out[k].Obj? then out[k].fields else map[], pv.fields);
        MergeIgnoresNonObject(Get(base, k), pv);
        out := out[k := Obj(merged)];
      } else {
        out := out[k := pv];
      }
      keys, done := keys - {k}, done + {k};
    }
    MergedOnAll(base, patch);
  }

  lemma MergeIgnoresNonObject(base: Value, patch: Value)
    ensures Merge(base, patch) == Merge(Obj(FieldsOf(base)), patch)
  {
  }

  /** Merging the same patch twice is merging it once. */
  lemma {:induction false} MergeIsIdempotent(base: Value, patch: Value)
    ensures Merge(Merge(base, patch), patch) == Merge(base, patch)
    decreases patch
  {
    if patch.Obj? {
      var once := Merge(base, patch);
      var twice := Merge(once, patch);
      forall k | k in once.fields
        ensures twice.fields[k] == once.fields[k]
      {
        if k in patch.fields {
          MergeIsIdempotent(Get(FieldsOf(base), k), patch.fields[k]);
        }
      }
      assert twice.fields.Keys == once.fields.Keys;
    }
  }

  // ---- Leaves ---------------------------------------------------------------------------------------------

  /** The non-object value at a path, if there is one. */
  function Leaf(v: Value, path: Path): Option<Value>
    decreases |path|
  {
    if path == [] then (if v.Obj? then None else Some(v))
    else if path[0] in FieldsOf(v) then Leaf(FieldsOf(v)[path[0]], path[1..])
    else None
  }

  /** The patch sets a value at the path, above it, or an object in its place. */
  predicate Touches(patch: Value, path: Path)
    decreases |path|
  {
    path == [] || !patch.Obj? || (path[0] in patch.fields && Touches(patch.fields[path[0]], path[1..]))
  }

  /**
   * The leaves of a merge, all of them: the patch's leaves, nulls included, and the base's leaves that the
   * patch does not touch.
   */
  lemma {:induction false} MergeLeaves(base: Value, patch: Value, path: Path)
    ensures Leaf(Merge(base, patch), path) ==
            if Leaf(patch, path).Some? then Leaf(patch, path)
            else if Touches(patch, path) then None
            else Leaf(base, path)
    decreases patch
  {
    if patch.Obj? && path != [] && path[0] in patch.fields {
      MergeLeaves(Get(FieldsOf(base), path[0]), patch.fields[path[0]], path[1..]);
      if path[0] !in FieldsOf(base) {
        NullHasNoDeepLeaf(patch.fields[path[0]], path[1..]);
      }
    }
  }

  lemma NullHasNoDeepLeaf(patch: Value, path: Path)
    ensures !Touches(patch, path) ==> Leaf(Null, path) == None
  {
  }

  // ---- What a patch leaves --------------------------------------------------------------------------------

  /** The patch has been written key by key over the data. */
  ghost predicate Overwritten(data: Fields, patch: Fields, later: Fields) {
    && later.Keys == data.Keys + patch.Keys
    && forall k :: k in later ==> later[k] == if k in patch then patch[k] else data[k]
  }

  /**
   * The patch has been merged into the data: no key is lost and none invented, and at every path there is the
   * patch's leaf if it has one, none if the patch touches the path, and otherwise what was there.
   */
  ghost predicate MergedInto(data: Fields, patch: Fields, later: Fields) {
    && later.Keys == data.Keys + patch.Keys
    && forall path :: Leaf(Obj(later), path) == LeafAfter(data, patch, path)
  }

  function LeafAfter(data: Fields, patch: Fields, path: Path): Option<Value> {
    if Leaf(Obj(patch), path).Some? then Leaf(Obj(patch), path)
    else if Touches(Obj(patch), path) then None
    else Leaf(Obj(data), path)
  }

  lemma {:induction false} MergePlainly(data: Fields, patch: Fields)
    ensures Merge(Obj(data), Obj(patch)).Obj? && MergedInto(data, patch, Merge(Obj(data), Obj(patch)).fields)
  {
    forall path
      ensures Leaf(Merge(Obj(data), Obj(patch)), path) == LeafAfter(data, patch, path)
    {
      MergeLeaves(Obj(data), Obj(patch), path);
    }
  }
}
