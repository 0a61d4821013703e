/**
 JSON documents as the apply engine sees them, and JSON merge patch (section 2 of RFC 7396).

 A document is the tree that Go builds with `map[string]any` and `[]any`. `Bytes` is the one leaf
 that is not JSON: a `[]byte` an in-memory object may hold. Strings are sequences of bytes.
 */
module Json {
  import opened Base

  datatype Json =
    | Null
    | Bool(b: bool)
    | Num(n: int)
    | Str(s: string)
    | Bytes(raw: string)
    | Arr(items: seq<Json>)
    | Obj(fields: Fields)

  type Fields = map<string, Json>

  /** The fields of an object; anything else counts as an object without fields. */
  function FieldsOf(v: Option<Json>): Fields {
    if v.Some? && v.value.Obj? then v.value.fields else map[]
  }

  /** A string, or "" when there is none. */
  function TextOf(v: Option<Json>): string {
    if v.Some? && v.value.Str? then v.value.s else ""
  }

  // ---------------------------------------------------------------- RFC 7396

  function MergePatch(target: Option<Json>, patch: Json): Json
    decreases patch, 2
  {
    if patch.Obj? then Obj(MergeFields(FieldsOf(target), patch.fields)) else patch
  }

  function MergeFields(doc: Fields, patch: Fields): Fields
    decreases Obj(patch), 1
  {
    map k | k in doc.Keys + patch.Keys && !(k in patch && patch[k].Null?) ::
      if k in patch then MergePatch(Get(doc, k), patch[k]) else doc[k]
  }

  /** One key of a merge. */
  lemma MergeAt(doc: Fields, patch: Fields, k: string)
    ensures Get(MergeFields(doc, patch), k) ==
      if k !in patch then Get(doc, k)
      else if patch[k].Null? then None
      else Some(MergePatch(Get(doc, k), patch[k]))
  {
  }

  /** No object inside `patch` holds a null. */
  predicate NullFree(patch: Fields)
    decreases Obj(patch)
  {
    forall k | k in patch :: !patch[k].Null? && (patch[k].Obj? ==> NullFree(patch[k].fields))
  }

  lemma MergeNothing(doc: Fields)
    ensures MergeFields(doc, map[]) == doc
  {
  }

  lemma {:induction false} MergeIntoNothing(patch: Fields)
    requires NullFree(patch)
    ensures MergeFields(map[], patch) == patch
    decreases Obj(patch)
  {
    forall k | k in patch && patch[k].Obj?
      ensures MergeFields(map[], patch[k].fields) == patch[k].fields
    {
      MergeIntoNothing(patch[k].fields);
    }
    var r := MergeFields(map[], patch);
    forall k | k in patch ensures k in r && r[k] == patch[k] {
      MergeAt(map[], patch, k);
    }
    assert r.Keys == patch.Keys;
  }

  // ---------------------------------------------------------------- leaves

  /** What a reader finds at the end of `path`, objects themselves being invisible. */
  function Leaf(doc: Json, path: seq<string>): Option<Json>
    decreases path
  {
    if path == [] then
      if doc.Obj? then None else Some(doc)
    else if doc.Obj? && path[0] in doc.fields then
      Leaf(doc.fields[path[0]], path[1..])
    else
      None
  }
}
