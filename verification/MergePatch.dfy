/** JSON Merge Patch, section 2 of RFC 7396: how the cluster applies a patch to a custom resource. */
module MergePatch {
  import opened Json

  function Merge(target: Json, patch: Json): Json
    decreases patch, 1
  {
    if patch.Obj? then Obj(MergeFields(if target.Obj? then target.fields else map[], patch.fields)) else patch
  }

  /** A null member removes, any other is merged in, and what the patch does not name stays. */
  function MergeFields(fields: map<string, Json>, patch: map<string, Json>): map<string, Json>
    decreases Obj(patch), 0
  {
    map k | k in fields.Keys + patch.Keys && !(k in patch && patch[k].Null?) ::
      if k in patch then Merge(if k in fields then fields[k] else Null, patch[k]) else fields[k]
  }

  /** Applying a patch twice is applying it once. */
  lemma {:induction false} MergeIsIdempotent(target: Json, patch: Json)
    ensures Merge(Merge(target, patch), patch) == Merge(target, patch)
    decreases patch
  {
    if patch.Obj? {
      var fields := if target.Obj? then target.fields else map[];
      var once := MergeFields(fields, patch.fields);
      forall k | k in patch.fields && !patch.fields[k].Null?
        ensures k in once && Merge(once[k], patch.fields[k]) == once[k]
      {
        MergeIsIdempotent(if k in fields then fields[k] else Null, patch.fields[k]);
      }
      assert MergeFields(once, patch.fields) == once;
    }
  }

  /** A patch of plain values - nothing nested, nothing removed - overwrites its keys and no other. */
  lemma FlatPatchOverwrites(fields: map<string, Json>, patch: map<string, Json>)
    requires forall k :: k in patch ==> !patch[k].Obj? && !patch[k].Null?
    ensures MergeFields(fields, patch) == fields + patch
  {
  }
}
