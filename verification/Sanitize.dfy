/**
 Patch sanitizing: `emptyMaps`, `removeMetadataFields` and `sanitizePatch`
 (pkg/apply/desiredset_compare.go:96-182, 270-286).
 */
module Sanitize {
  import opened Base
  import opened Json

  const LABEL_PREFIX := "apply.acorn.io/"
  const LABEL_APPLIED := "apply.acorn.io/applied"
  const INVALID_KEY := "__invalid_key__"
  const SERVER_OWNED: set<string> := {"creationTimestamp", "generation", "resourceVersion", "uid", "managedFields"}

  // ---------------------------------------------------------------- emptyMaps

  /** Each map on the way down `keys` is empty or holds just the next key; a non-map counts as empty. */
  predicate EmptyChain(data: Fields, keys: seq<string>)
    decreases |keys|
  {
    keys == [] || data == map[] ||
    (data.Keys == {keys[0]} && EmptyChain(FieldsOf(Get(data, keys[0])), keys[1..]))
  }

  lemma OnlyKey(data: Fields, k: string)
    ensures |data| == 1 && k in data <==> data.Keys == {k}
    ensures |data| == 0 <==> data == map[]
  {
    assert |data| == |data.Keys|;
    if |data| == 1 && k in data {
      assert |data.Keys - {k}| == 0;
    }
    if |data| == 0 {
      assert data.Keys == {};
    }
  }

  method EmptyMaps(data: Fields, keys: seq<string>) returns (empty: bool)
    ensures empty == EmptyChain(data, keys + [INVALID_KEY])
  {
    var all := keys + [INVALID_KEY];
    var cursor := data;
    var i := 0;
    while i < |all|
      invariant 0 <= i <= |all|
      invariant EmptyChain(data, all) == EmptyChain(cursor, all[i..])
    {
      var key := all[i];
      OnlyKey(cursor, key);
      if |cursor| == 0 {
        return true;
      } else if |cursor| > 1 {
        return false;
      }
      if key !in cursor {
        return false;
      }
      assert all[i..][1..] == all[i + 1..];
      cursor := FieldsOf(Some(cursor[key]));
      i := i + 1;
    }
    return true;
  }

  // ---------------------------------------------------------------- the specification

  function Metadata(data: Fields): Fields {
    FieldsOf(Get(data, "metadata"))
  }

  function Annotations(data: Fields): Fields {
    FieldsOf(Get(Metadata(data), "annotations"))
  }

  /** `metadata`, and inside it `annotations`, are objects where present. */
  predicate WellFormed(data: Fields) {
    && ("metadata" in data ==> data["metadata"].Obj?)
    && ("annotations" in Metadata(data) ==> Metadata(data)["annotations"].Obj?)
  }

  function WithoutServerFields(p: Fields): Fields {
    var q := p - {"kind", "apiVersion", "status"};
    if "metadata" in q && q["metadata"].Obj? then
      q["metadata" := Obj(q["metadata"].fields - SERVER_OWNED)]
    else q
  }

  function WithoutPrefixed(annotations: Fields): Fields {
    map k | k in annotations && !HasPrefix(k, LABEL_PREFIX) :: annotations[k]
  }

  function WithMetadata(q: Fields, metadata: Fields): Fields {
    if "metadata" in q && q["metadata"].Obj? then q["metadata" := Obj(metadata)] else q
  }

  function WithAnnotations(q: Fields, annotations: Fields): Fields {
    if "annotations" in Metadata(q) && Metadata(q)["annotations"].Obj? then
      WithMetadata(q, Metadata(q)["annotations" := Obj(annotations)])
    else q
  }

  function WithoutEmptyAnnotations(q: Fields): Fields {
    var metadata := Metadata(q) - {"annotations"};
    if metadata == map[] then q - {"metadata"} else WithMetadata(q, metadata)
  }

  predicate HasServerFields(p: Fields) {
    p.Keys * {"kind", "apiVersion", "status"} != {} || Metadata(p).Keys * SERVER_OWNED != {}
  }

  function Stripped(p: Fields, removeObjectSetAnnotation: bool): Fields {
    var q := WithoutServerFields(p);
    if !removeObjectSetAnnotation then q else
      var kept := WithoutPrefixed(Annotations(q));
      var r := WithAnnotations(q, kept);
      if kept == map[] && (HasServerFields(p) || Annotations(q) != map[]) then WithoutEmptyAnnotations(r) else r
  }

  /** Not an object, or one without fields or with none but a literal "__invalid_key__". */
  predicate Hollow(v: Json) {
    FieldsOf(Some(v)) == map[] || FieldsOf(Some(v)).Keys == {INVALID_KEY}
  }

  /** Nothing but one annotation: the last-applied one, or one with the literal name "__invalid_key__". */
  predicate OnlyBookkeeping(s: Fields) {
    && s.Keys == {"metadata"} && Metadata(s).Keys == {"annotations"}
    && (Annotations(s).Keys == {INVALID_KEY} ||
        (Annotations(s).Keys == {LABEL_APPLIED} && Hollow(Annotations(s)[LABEL_APPLIED])))
  }

  /** Nothing at all, or metadata and annotations without content. */
  predicate SaysNothing(s: Fields) {
    s == map[] ||
    (s.Keys == {"metadata"} &&
        (Metadata(s) == map[] || (Metadata(s).Keys == {"annotations"} && Annotations(s) == map[])))
  }

  function Sanitized(p: Fields, removeObjectSetAnnotation: bool): Fields {
    var s := Stripped(p, removeObjectSetAnnotation);
    if SaysNothing(s) || OnlyBookkeeping(s) then map[] else s
  }

  // ---------------------------------------------------------------- the algorithm

  lemma KeysDecide(part: Fields, whole: Fields)
    requires part.Keys <= whole.Keys && forall k | k in part :: part[k] == whole[k]
    ensures part == whole <==> part.Keys == whole.Keys
  {
  }

  lemma LessIsDifferent(fields: Fields, keys: set<string>)
    ensures fields - keys == fields <==> fields.Keys * keys == {}
  {
    if fields.Keys * keys == {} {
      forall k | k in fields ensures k in fields - keys {
        assert k !in fields.Keys * keys;
      }
      KeysDecide(fields - keys, fields);
    } else {
      var k :| k in fields.Keys * keys;
      assert k in fields && k !in fields - keys;
    }
  }

  method RemoveMetadataFields(data: Fields) returns (result: Fields, deleted: bool)
    ensures result == WithMetadata(data, Metadata(data) - SERVER_OWNED)
    ensures deleted <==> Metadata(data).Keys * SERVER_OWNED != {}
  {
    if "metadata" !in data {
      return data, false;
    }
    deleted := false;
    var metadata := Metadata(data);
    var keys := ["creationTimestamp", "generation", "resourceVersion", "uid", "managedFields"];
    for i := 0 to |keys|
      invariant metadata == Metadata(data) - (set j | 0 <= j < i :: keys[j])
      invariant deleted <==> metadata != Metadata(data)
    {
      if keys[i] in metadata {
        metadata := metadata - {keys[i]};
        deleted := true;
      }
    }
    assert (set j | 0 <= j < |keys| :: keys[j]) == SERVER_OWNED by {
      assert keys[0] in SERVER_OWNED && keys[1] in SERVER_OWNED && keys[2] in SERVER_OWNED
        && keys[3] in SERVER_OWNED && keys[4] in SERVER_OWNED;
    }
    LessIsDifferent(Metadata(data), SERVER_OWNED);
    result := WithMetadata(data, metadata);
  }

  /** The loop over the annotations, which deletes while it ranges, in any order. */
  method RemovePrefixed(annotations: Fields) returns (result: Fields, deleted: bool)
    ensures result == WithoutPrefixed(annotations)
    ensures deleted <==> result != annotations
  {
    result := annotations;
    deleted := false;
    var pending := annotations.Keys;
    while pending != {}
      invariant pending <= annotations.Keys
      invariant forall k :: k in result <==> k in annotations && (k in pending || !HasPrefix(k, LABEL_PREFIX))
      invariant forall k | k in result :: result[k] == annotations[k]
      invariant deleted <==> result != annotations
      decreases |pending|
    {
      var k :| k in pending;
      pending := pending - {k};
      if HasPrefix(k, LABEL_PREFIX) {
        result := result - {k};
        deleted := true;
      }
    }
  }

  method RemoveServerFields(patch: Fields) returns (data: Fields, mod: bool)
    ensures data == WithoutServerFields(patch)
    ensures mod <==> HasServerFields(patch)
  {
    data, mod := patch, false;
    if "kind" in data {
      mod := true;
      data := data - {"kind"};
    }
    if "apiVersion" in data {
      mod := true;
      data := data - {"apiVersion"};
    }
    if "status" in data {
      mod := true;
      data := data - {"status"};
    }
    assert data == patch - {"kind", "apiVersion", "status"};
    assert mod <==> patch.Keys * {"kind", "apiVersion", "status"} != {} by {
      var hit := patch.Keys * {"kind", "apiVersion", "status"};
      assert mod ==> "kind" in hit || "apiVersion" in hit || "status" in hit;
    }
    assert Metadata(data) == Metadata(patch);
    var deleted;
    data, deleted := RemoveMetadataFields(data);
    if deleted {
      mod := true;
    }
  }

  method RemoveObjectSetAnnotations(data: Fields, touched: bool) returns (result: Fields)
    ensures var kept := WithoutPrefixed(Annotations(data));
            var r := WithAnnotations(data, kept);
            result == if kept == map[] && (touched || Annotations(data) != map[]) then WithoutEmptyAnnotations(r) else r
  {
    var mod := touched;
    var annotations, deleted := RemovePrefixed(Annotations(data));
    if deleted {
      mod := true;
    }
    result := WithAnnotations(data, annotations);
    OnlyKey(annotations, "");
    if mod && |annotations| == 0 {
      result := WithoutEmptyAnnotations(result);
    }
  }

  method SanitizePatch(patch: Json, removeObjectSetAnnotation: bool) returns (r: Result<Json>)
    ensures r == if patch.Obj? then Ok(Obj(Sanitized(patch.fields, removeObjectSetAnnotation)))
                 else if patch.Null? then Ok(Obj(map[]))
                 else Err("json: cannot unmarshal into a map")
  {
    if !patch.Obj? && !patch.Null? {
      return Err("json: cannot unmarshal into a map");
    }
    var data, mod := RemoveServerFields(FieldsOf(Some(patch)));
    if removeObjectSetAnnotation {
      data := RemoveObjectSetAnnotations(data, mod);
    }
    if patch.Null? {
      NothingStaysNothing(removeObjectSetAnnotation);
    }
    EmptyMapsFind(data);
    var empty := EmptyMaps(data, ["metadata", "annotations"]);
    if empty {
      return Ok(Obj(map[]));
    }
    empty := EmptyMaps(data, ["metadata", "annotations", LABEL_APPLIED]);
    if empty {
      return Ok(Obj(map[]));
    }
    return Ok(Obj(data));
  }

  lemma NothingStaysNothing(removeObjectSetAnnotation: bool)
    ensures Sanitized(map[], removeObjectSetAnnotation) == map[]
  {
  }

  // ---------------------------------------------------------------- what it means

  /** The places a sanitized patch must not reach. */
  predicate Protected(path: seq<string>, removeObjectSetAnnotation: bool) {
    path != [] &&
    ( path[0] in {"kind", "apiVersion", "status"}
    || (path[0] == "metadata" && |path| >= 2 &&
        ( path[1] in SERVER_OWNED
        || (removeObjectSetAnnotation && path[1] == "annotations" && |path| >= 3 && HasPrefix(path[2], LABEL_PREFIX)))))
  }

  /** What a cleaned patch says at the top, in metadata and in the annotations. */
  lemma CleanedAt(p: Fields, k: string)
    requires WellFormed(p)
    ensures var s := WithoutServerFields(p);
            && WellFormed(s)
            && (k in {"kind", "apiVersion", "status"} ==> k !in s)
            && (k !in {"kind", "apiVersion", "status", "metadata"} ==> Get(s, k) == Get(p, k))
            && ("metadata" in s ==> "metadata" in p)
            && (k in SERVER_OWNED ==> k !in Metadata(s))
            && (k !in SERVER_OWNED ==> Get(Metadata(s), k) == Get(Metadata(p), k))
  {
  }

  lemma UnprefixedAt(p: Fields, k: string)
    requires WellFormed(p)
    ensures var s := WithAnnotations(p, WithoutPrefixed(Annotations(p)));
            && WellFormed(s)
            && (k != "metadata" ==> Get(s, k) == Get(p, k))
            && ("metadata" in s ==> "metadata" in p)
            && (k != "annotations" ==> Get(Metadata(s), k) == Get(Metadata(p), k))
            && ("annotations" in Metadata(s) ==> "annotations" in Metadata(p))
            && Get(Annotations(s), k) == if HasPrefix(k, LABEL_PREFIX) then None else Get(Annotations(p), k)
  {
  }

  lemma EmptiedAt(r: Fields, k: string)
    requires WellFormed(r) && Annotations(r) == map[]
    ensures var s := WithoutEmptyAnnotations(r);
            && WellFormed(s) && (k != "metadata" ==> Get(s, k) == Get(r, k))
            && ("metadata" in s ==> "metadata" in r)
            && (k != "annotations" ==> Get(Metadata(s), k) == Get(Metadata(r), k))
            && "annotations" !in Metadata(s)
  {
    var metadata := Metadata(r) - {"annotations"};
    assert k != "annotations" ==> Get(metadata, k) == Get(Metadata(r), k);
  }

  lemma UnprefixedIsEmpty(q: Fields)
    requires WellFormed(q)
    ensures Annotations(WithAnnotations(q, WithoutPrefixed(Annotations(q)))) == WithoutPrefixed(Annotations(q))
  {
  }

  lemma UnstampedAt(q: Fields, touched: bool, k: string)
    requires WellFormed(q)
    ensures var kept := WithoutPrefixed(Annotations(q));
            var r := WithAnnotations(q, kept);
            var s := if kept == map[] && touched then WithoutEmptyAnnotations(r) else r;
            && WellFormed(s) && (k != "metadata" ==> Get(s, k) == Get(q, k))
            && ("metadata" in s ==> "metadata" in q)
            && (k != "annotations" ==> Get(Metadata(s), k) == Get(Metadata(q), k))
            && ("annotations" in Metadata(s) ==> "annotations" in Metadata(q))
            && Get(Annotations(s), k) == if HasPrefix(k, LABEL_PREFIX) then None else Get(Annotations(q), k)
  {
    var kept := WithoutPrefixed(Annotations(q));
    UnprefixedAt(q, k);
    UnprefixedIsEmpty(q);
    if kept == map[] {
      EmptiedAt(WithAnnotations(q, kept), k);
    }
  }

  lemma StrippedAt(p: Fields, flag: bool, k: string)
    requires WellFormed(p)
    ensures var s := Stripped(p, flag);
            && WellFormed(s)
            && (k in {"kind", "apiVersion", "status"} ==> k !in s)
            && (k !in {"kind", "apiVersion", "status", "metadata"} ==> Get(s, k) == Get(p, k))
            && ("metadata" in s ==> "metadata" in p)
            && (k in SERVER_OWNED ==> k !in Metadata(s))
            && (k !in SERVER_OWNED && k != "annotations" ==> Get(Metadata(s), k) == Get(Metadata(p), k))
            && ("annotations" in Metadata(s) ==> "annotations" in Metadata(p))
            && (flag && HasPrefix(k, LABEL_PREFIX) ==> k !in Annotations(s))
            && (!(flag && HasPrefix(k, LABEL_PREFIX)) ==> Get(Annotations(s), k) == Get(Annotations(p), k))
  {
    var q := WithoutServerFields(p);
    CleanedAt(p, k);
    CleanedAt(p, "annotations");
    if flag {
      UnstampedAt(q, HasServerFields(p) || Annotations(q) != map[], k);
    }
  }

  lemma StrippedIsClean(p: Fields, flag: bool)
    ensures var s := Stripped(p, flag);
            WithoutServerFields(s) == s && !HasServerFields(s) &&
                (flag ==> WithoutPrefixed(Annotations(s)) == Annotations(s))
  {
    var s := Stripped(p, flag);
    var q := WithoutServerFields(p);
    assert q.Keys * {"kind", "apiVersion", "status"} == {};
    assert Metadata(q).Keys * SERVER_OWNED == {};
    if flag {
      var kept := WithoutPrefixed(Annotations(q));
      var r := WithAnnotations(q, kept);
      assert Annotations(r) == kept;
      assert Metadata(r).Keys == Metadata(q).Keys && r.Keys == q.Keys;
    }
    assert s.Keys <= q.Keys && Metadata(s).Keys <= Metadata(q).Keys;
    if "metadata" in s && s["metadata"].Obj? {
      assert s["metadata"].fields - SERVER_OWNED == s["metadata"].fields;
    }
    assert WithoutServerFields(s) == s;
  }

  /** Sanitizing again changes nothing, well formed or not. */
  lemma SanitizeTwice(p: Fields, flag: bool)
    ensures Sanitized(Sanitized(p, flag), flag) == Sanitized(p, flag)
  {
    NothingStaysNothing(flag);
    StrippedIsClean(p, flag);
    var s := Stripped(p, flag);
    if flag {
      var kept := Annotations(s);
      if "annotations" in Metadata(s) && Metadata(s)["annotations"].Obj? {
        assert Metadata(s)["annotations" := Obj(kept)] == Metadata(s);
        assert WithMetadata(s, Metadata(s)) == s;
      }
      assert WithAnnotations(s, kept) == s;
    }
  }

  // ---------------------------------------------------------------- meaning

  /** The annotation, if any, that an otherwise empty patch is dropped with. */
  predicate Bookkeeping(path: seq<string>) {
    |path| >= 3 && path[..2] == ["metadata", "annotations"] && path[2] in {LABEL_APPLIED, INVALID_KEY}
  }

  function Apply(doc: Fields, patch: Fields): Json {
    Obj(MergeFields(doc, patch))
  }

  lemma LeafInto(doc: Fields, path: seq<string>)
    requires |path| >= 2
    ensures Leaf(Obj(doc), path) == Leaf(Obj(FieldsOf(Get(doc, path[0]))), path[1..])
  {
  }

  /** What the server owns keeps the value it has, on any document. */
  lemma SanitizedSparesServerFields(p: Fields, doc: Fields, flag: bool, path: seq<string>)
    requires WellFormed(p) && Protected(path, flag)
    ensures Leaf(Apply(doc, Sanitized(p, flag)), path) == Leaf(Obj(doc), path)
  {
    var s := Sanitized(p, flag);
    MergeNothing(doc);
    StrippedAt(p, flag, path[0]);
    MergeAt(doc, s, path[0]);
    if path[0] == "metadata" && "metadata" in s {
      LeafInto(doc, path);
      LeafInto(MergeFields(doc, s), path);
      MetadataSparesServerFields(p, Metadata(doc), flag, path[1..]);
    }
  }

  lemma MetadataSparesServerFields(p: Fields, have: Fields, flag: bool, path: seq<string>)
    requires WellFormed(p) && Protected(["metadata"] + path, flag)
    ensures Leaf(Apply(have, Metadata(Stripped(p, flag))), path) == Leaf(Obj(have), path)
  {
    var s := Stripped(p, flag);
    StrippedAt(p, flag, path[0]);
    MergeAt(have, Metadata(s), path[0]);
    if path[0] == "annotations" && "annotations" in Metadata(s) {
      LeafInto(have, path);
      LeafInto(MergeFields(have, Metadata(s)), path);
      StrippedAt(p, flag, path[1]);
      MergeAt(FieldsOf(Get(have, "annotations")), Annotations(s), path[1]);
    }
  }

  /** What the server owns, by name: five fields of metadata and three at the top. */
  predicate ServersOwn(path: seq<string>) {
    || (|path| >= 1 && (path[0] == "kind" || path[0] == "apiVersion" || path[0] == "status"))
    || (|path| >= 2 && path[0] == "metadata" &&
        (path[1] == "creationTimestamp" || path[1] == "generation" || path[1] == "resourceVersion" ||
         path[1] == "uid" || path[1] == "managedFields"))
  }

  /** So it is never in a sanitized patch. Nothing else at the top and in metadata is taken out, but for annotations. */
  lemma SanitizedByName(p: Fields, flag: bool, name: string)
    requires WellFormed(p)
    ensures var s := Sanitized(p, flag);
            && (ServersOwn([name]) ==> name !in s)
            && (ServersOwn(["metadata", name]) ==> name !in Metadata(s))
            && (!ServersOwn([name]) && name != "metadata" ==> Get(s, name) == Get(p, name))
            && (!ServersOwn(["metadata", name]) && name != "annotations" ==>
                 Get(Metadata(s), name) == Get(Metadata(p), name))
  {
    StrippedAt(p, flag, name);
    OwnByName(name);
  }

  lemma OwnByName(name: string)
    ensures ServersOwn([name]) <==> name in {"kind", "apiVersion", "status"}
    ensures ServersOwn(["metadata", name]) <==> name in SERVER_OWNED
  {
    assert ["metadata", name][0] == "metadata";
  }

  /** And on any document it keeps the value it has there. */
  lemma ServersFieldsStay(p: Fields, doc: Fields, flag: bool, path: seq<string>)
    requires WellFormed(p) && ServersOwn(path)
    ensures Leaf(Apply(doc, Sanitized(p, flag)), path) == Leaf(Obj(doc), path)
  {
    SanitizedSparesServerFields(p, doc, flag, path);
  }

  /** With the flag, a patch that had something taken out is left with neither empty annotations nor empty metadata. */
  lemma NothingEmptyIsLeft(p: Fields, name: string)
    requires WellFormed(p)
    requires (name in Annotations(p) && HasPrefix(name, "apply.acorn.io/")) || (ServersOwn([name]) && name in p) ||
             (ServersOwn(["metadata", name]) && name in Metadata(p))
    ensures var s := Sanitized(p, true);
            "annotations" in Metadata(s) ==> Annotations(s) != map[] && Metadata(s) != map[]
  {
    OwnByName(name);
    TouchedIsKnown(p, name);
    StrippedAt(p, true, name);
  }

  lemma TouchedIsKnown(p: Fields, name: string)
    requires WellFormed(p)
    requires (name in Annotations(p) && HasPrefix(name, "apply.acorn.io/")) ||
             (name in {"kind", "apiVersion", "status"} && name in p) || (name in SERVER_OWNED && name in Metadata(p))
    ensures var q := WithoutServerFields(p);
            HasServerFields(p) || Annotations(q) != map[]
  {
    CleanedAt(p, "annotations");
    if name in {"kind", "apiVersion", "status"} && name in p {
      assert name in p.Keys * {"kind", "apiVersion", "status"};
    } else if name in SERVER_OWNED && name in Metadata(p) {
      assert name in Metadata(p).Keys * SERVER_OWNED;
    }
  }

  /** By name as well: with the flag, annotations that begin with "apply.acorn.io/" are gone and leave those of the
      document alone; the others stay, unless the one that is left is dropped with all the rest. */
  lemma SanitizedAnnotations(p: Fields, doc: Fields, flag: bool, name: string)
    requires WellFormed(p)
    ensures var s, ours := Sanitized(p, flag), HasPrefix(name, "apply.acorn.io/");
            && (flag && ours ==> name !in Annotations(s))
            && (!(flag && ours) && !OnlyBookkeeping(Stripped(p, flag)) ==>
                 Get(Annotations(s), name) == Get(Annotations(p), name))
            && (flag && ours ==>
                 Leaf(Apply(doc, s), ["metadata", "annotations", name]) ==
                 Leaf(Obj(doc), ["metadata", "annotations", name]))
  {
    StrippedAt(p, flag, name);
    if flag && HasPrefix(name, "apply.acorn.io/") {
      SanitizedSparesServerFields(p, doc, flag, ["metadata", "annotations", name]);
    }
  }

  /** Everywhere else the cleaned patch and the raw patch leave the same leaves. */
  lemma StrippedKeepsMeaning(p: Fields, doc: Fields, flag: bool, path: seq<string>)
    requires WellFormed(p) && WellFormed(doc)
    requires !Protected(path, flag)
    ensures Leaf(Apply(doc, Stripped(p, flag)), path) == Leaf(Apply(doc, p), path)
  {
    var s := Stripped(p, flag);
    if path != [] {
      StrippedAt(p, flag, path[0]);
      MergeAt(doc, s, path[0]);
      MergeAt(doc, p, path[0]);
      if path[0] == "metadata" && "metadata" in p {
        MetadataKeepsMeaning(p, doc, flag, path[1..]);
      }
    }
  }

  lemma MetadataKeepsMeaning(p: Fields, doc: Fields, flag: bool, path: seq<string>)
    requires WellFormed(p) && WellFormed(doc)
    requires !Protected(["metadata"] + path, flag)
    ensures Leaf(Apply(Metadata(doc), Metadata(Stripped(p, flag))), path) ==
              Leaf(Apply(Metadata(doc), Metadata(p)), path)
  {
    var s := Stripped(p, flag);
    if path != [] {
      StrippedAt(p, flag, path[0]);
      MergeAt(Metadata(doc), Metadata(s), path[0]);
      MergeAt(Metadata(doc), Metadata(p), path[0]);
      if path[0] == "annotations" && "annotations" in Metadata(p) {
        AnnotationsKeepMeaning(p, doc, flag, path[1..]);
      }
    }
  }

  lemma AnnotationsKeepMeaning(p: Fields, doc: Fields, flag: bool, path: seq<string>)
    requires WellFormed(p) && WellFormed(doc)
    requires !Protected(["metadata", "annotations"] + path, flag)
    ensures Leaf(Apply(Annotations(doc), Annotations(Stripped(p, flag))), path) ==
              Leaf(Apply(Annotations(doc), Annotations(p)), path)
  {
    var s := Stripped(p, flag);
    if path != [] {
      StrippedAt(p, flag, path[0]);
      MergeAt(Annotations(doc), Annotations(s), path[0]);
      MergeAt(Annotations(doc), Annotations(p), path[0]);
    }
  }

  lemma ChainOfThree(s: Fields)
    ensures EmptyChain(s, ["metadata", "annotations", INVALID_KEY]) <==>
            SaysNothing(s) ||
            (s.Keys == {"metadata"} && Metadata(s).Keys == {"annotations"} && Annotations(s).Keys == {INVALID_KEY})
  {
    ChainStep(s, "metadata", ["annotations", INVALID_KEY]);
    ChainStep(Metadata(s), "annotations", [INVALID_KEY]);
    ChainStep(Annotations(s), INVALID_KEY, []);
    assert ["metadata"] + ["annotations", INVALID_KEY] == ["metadata", "annotations", INVALID_KEY];
    assert ["annotations"] + [INVALID_KEY] == ["annotations", INVALID_KEY];
    assert [INVALID_KEY] + [] == [INVALID_KEY];
  }

  lemma ChainOfFour(s: Fields)
    ensures EmptyChain(s, ["metadata", "annotations", LABEL_APPLIED, INVALID_KEY]) <==>
            SaysNothing(s) ||
            (s.Keys == {"metadata"} && Metadata(s).Keys == {"annotations"} &&
             Annotations(s).Keys == {LABEL_APPLIED} && Hollow(Annotations(s)[LABEL_APPLIED]))
  {
    var value := FieldsOf(Get(Annotations(s), LABEL_APPLIED));
    ChainStep(s, "metadata", ["annotations", LABEL_APPLIED, INVALID_KEY]);
    ChainStep(Metadata(s), "annotations", [LABEL_APPLIED, INVALID_KEY]);
    ChainStep(Annotations(s), LABEL_APPLIED, [INVALID_KEY]);
    ChainStep(value, INVALID_KEY, []);
    assert ["metadata"] + ["annotations", LABEL_APPLIED, INVALID_KEY] ==
             ["metadata", "annotations", LABEL_APPLIED, INVALID_KEY];
    assert ["annotations"] + [LABEL_APPLIED, INVALID_KEY] == ["annotations", LABEL_APPLIED, INVALID_KEY];
    assert [LABEL_APPLIED] + [INVALID_KEY] == [LABEL_APPLIED, INVALID_KEY];
    assert [INVALID_KEY] + [] == [INVALID_KEY];
  }

  /** What the two calls of emptyMaps find, in plain terms. */
  lemma EmptyMapsFind(s: Fields)
    ensures EmptyChain(s, ["metadata", "annotations"] + [INVALID_KEY]) ||
            EmptyChain(s, ["metadata", "annotations", LABEL_APPLIED] + [INVALID_KEY]) <==>
            SaysNothing(s) || OnlyBookkeeping(s)
  {
    ChainOfThree(s);
    ChainOfFour(s);
    assert ["metadata", "annotations"] + [INVALID_KEY] == ["metadata", "annotations", INVALID_KEY];
    assert ["metadata", "annotations", LABEL_APPLIED] + [INVALID_KEY] ==
             ["metadata", "annotations", LABEL_APPLIED, INVALID_KEY];
  }

  /** What sanitizing drops altogether, which is what the two calls of emptyMaps find, in plain terms: a patch that,
      cleaned, says nothing, or says one annotation that is the last-applied one or is called "__invalid_key__". So a
      patch that touches an annotation is dropped exactly if that is all it does and the annotation is one of those
      two. */
  lemma DroppedIff(p: Fields, flag: bool)
    ensures Sanitized(p, flag) == map[] <==> SaysNothing(Stripped(p, flag)) || OnlyBookkeeping(Stripped(p, flag))
    ensures Sanitized(p, flag) == map[] <==>
              EmptyChain(Stripped(p, flag), ["metadata", "annotations"] + [INVALID_KEY]) ||
              EmptyChain(Stripped(p, flag), ["metadata", "annotations", LABEL_APPLIED] + [INVALID_KEY])
    ensures Annotations(Stripped(p, flag)) != map[] ==>
              (Sanitized(p, flag) == map[] <==> OnlyBookkeeping(Stripped(p, flag)))
  {
    EmptyMapsFind(Stripped(p, flag));
  }

  /** A patch of one annotation. */
  function OneAnnotation(name: string, value: string): Fields {
    map["metadata" := Obj(map["annotations" := Obj(map[name := Str(value)])])]
  }

  /** Which of those are dropped: the applied annotation, one called "__invalid_key__", and with the flag every one with
      the apply prefix. */
  lemma OneAnnotationIsDroppedIff(name: string, value: string, flag: bool)
    ensures Sanitized(OneAnnotation(name, value), flag) == map[] <==>
              name == "apply.acorn.io/applied" || name == "__invalid_key__" ||
              (flag && HasPrefix(name, "apply.acorn.io/"))
  {
    var p := OneAnnotation(name, value);
    StrippedAt(p, flag, name);
    if flag && HasPrefix(name, LABEL_PREFIX) {
      assert WithoutPrefixed(map[name := Str(value)]) == map[];
      StrippedToNothing(name, value);
    } else {
      StrippedOfOne(name, value, flag);
      assert Annotations(p).Keys == {name};
    }
  }

  lemma StrippedToNothing(name: string, value: string)
    requires HasPrefix(name, LABEL_PREFIX)
    ensures Stripped(OneAnnotation(name, value), true) == map[]
  {
    var p := OneAnnotation(name, value);
    CleanedAt(p, "annotations");
    var q := WithoutServerFields(p);
    assert Annotations(q) == map[name := Str(value)];
    var kept := WithoutPrefixed(Annotations(q));
    assert kept == map[];
    var r := WithAnnotations(q, kept);
    assert Metadata(r) == map["annotations" := Obj(kept)];
    assert Metadata(r) - {"annotations"} == map[];
    assert r.Keys == {"metadata"};
    assert r - {"metadata"} == map[];
    assert WithoutEmptyAnnotations(r) == map[];
    assert name in Annotations(q);
  }

  lemma StrippedOfOne(name: string, value: string, flag: bool)
    requires !(flag && HasPrefix(name, LABEL_PREFIX))
    ensures Stripped(OneAnnotation(name, value), flag) == OneAnnotation(name, value)
  {
    var p, annotations := OneAnnotation(name, value), map[name := Str(value)];
    assert p - {"kind", "apiVersion", "status"} == p;
    assert Metadata(p) - SERVER_OWNED == Metadata(p);
    assert p["metadata" := Obj(Metadata(p))] == p;
    if flag {
      assert WithoutPrefixed(annotations) == annotations;
      assert Metadata(p)["annotations" := Obj(annotations)] == Metadata(p);
    }
  }

  /** The second asks for something, and gets lost. */
  lemma InvalidKeyIsDropped(value: string, flag: bool)
    ensures var p := OneAnnotation("__invalid_key__", value);
            Sanitized(p, flag) == map[] && Apply(map[], p) == Obj(p)
  {
    OneAnnotationIsDroppedIff("__invalid_key__", value, flag);
    MergeIntoNothing(OneAnnotation("__invalid_key__", value));
  }

  lemma ChainStep(data: Fields, key: string, rest: seq<string>)
    ensures EmptyChain(data, [key] + rest) <==>
            data == map[] || (data.Keys == {key} && EmptyChain(FieldsOf(Get(data, key)), rest))
  {
    assert ([key] + rest)[1..] == rest;
  }

  /** Sanitizing keeps what the patch means: applied to any well-formed document it leaves every leaf the raw patch
      leaves, outside the protected places, unless the cleaned patch is nothing but the last-applied annotation or one
      called "__invalid_key__"; that one annotation is then all that is lost. */
  lemma SanitizedKeepsMeaning(p: Fields, doc: Fields, flag: bool, path: seq<string>)
    requires WellFormed(p) && WellFormed(doc)
    requires !Protected(path, flag)
    ensures OnlyBookkeeping(Stripped(p, flag)) ==>
              Sanitized(p, flag) == map[] && Apply(doc, Sanitized(p, flag)) == Obj(doc)
    ensures !(OnlyBookkeeping(Stripped(p, flag)) && Bookkeeping(path)) ==>
              Leaf(Apply(doc, Sanitized(p, flag)), path) == Leaf(Apply(doc, p), path)
  {
    var s := Stripped(p, flag);
    StrippedKeepsMeaning(p, doc, flag, path);
    MergeNothing(doc);
    if (SaysNothing(s) || OnlyBookkeeping(s)) && path != [] && !(OnlyBookkeeping(s) && Bookkeeping(path)) {
      StrippedAt(p, flag, "");
      DroppedPatchIsSilent(s, doc, path);
    }
  }

  lemma DroppedPatchIsSilent(s: Fields, doc: Fields, path: seq<string>)
    requires WellFormed(s) && WellFormed(doc) && (SaysNothing(s) || OnlyBookkeeping(s))
    requires path != [] && !(OnlyBookkeeping(s) && Bookkeeping(path))
    ensures Leaf(Obj(doc), path) == Leaf(Apply(doc, s), path)
  {
    MergeAt(doc, s, path[0]);
    if path[0] == "metadata" && "metadata" in s {
      if |path| >= 2 {
        LeafInto(doc, path);
        LeafInto(MergeFields(doc, s), path);
        DroppedMetadataIsSilent(s, doc, path[1..]);
      }
    }
  }

  lemma DroppedMetadataIsSilent(s: Fields, doc: Fields, path: seq<string>)
    requires WellFormed(s) && WellFormed(doc) && (SaysNothing(s) || OnlyBookkeeping(s))
    requires path != [] && !(OnlyBookkeeping(s) && Bookkeeping(["metadata"] + path))
    ensures Leaf(Obj(Metadata(doc)), path) == Leaf(Apply(Metadata(doc), Metadata(s)), path)
  {
    MergeAt(Metadata(doc), Metadata(s), path[0]);
    if path[0] == "annotations" && "annotations" in Metadata(s) {
      if |path| >= 2 {
        LeafInto(Metadata(doc), path);
        LeafInto(MergeFields(Metadata(doc), Metadata(s)), path);
        MergeAt(Annotations(doc), Annotations(s), path[1]);
        assert (["metadata"] + path)[..2] == ["metadata", "annotations"] && (["metadata"] + path)[2] == path[1];
      }
    }
  }

  /** An annotation that is text or missing, with a value other than the patch would give it. */
  function Other(v: Json): Json {
    if v == Str("a") then Str("b") else Str("a")
  }

  /** And it is lost: the sanitized patch means the same on all documents if and only if the cleaned one is not just
      that. */
  lemma SanitizedKeepsMeaningIff(p: Fields, flag: bool)
    requires WellFormed(p)
    ensures OnlyBookkeeping(Stripped(p, flag)) <==>
            exists doc, path ::
              WellFormed(doc) && !Protected(path, flag) &&
              Leaf(Apply(doc, Sanitized(p, flag)), path) != Leaf(Apply(doc, p), path)
  {
    if OnlyBookkeeping(Stripped(p, flag)) {
      var doc, path := LostAnnotation(p, flag);
    }
    if doc, path :| WellFormed(doc) && !Protected(path, flag) &&
                    Leaf(Apply(doc, Sanitized(p, flag)), path) != Leaf(Apply(doc, p), path) {
      SanitizedKeepsMeaning(p, doc, flag, path);
    }
  }

  lemma LostAnnotation(p: Fields, flag: bool) returns (doc: Fields, path: seq<string>)
    requires WellFormed(p) && OnlyBookkeeping(Stripped(p, flag))
    ensures WellFormed(doc) && !Protected(path, flag)
    ensures Leaf(Apply(doc, Sanitized(p, flag)), path) != Leaf(Apply(doc, p), path)
  {
    var s := Stripped(p, flag);
    var name :| name in Annotations(s) && name in {LABEL_APPLIED, INVALID_KEY};
    var value := Annotations(s)[name];
    doc := map["metadata" := Obj(map["annotations" := Obj(map[name := Other(value)])])];
    path := ["metadata", "annotations", name];
    NameIsFree(p, flag, name);
    DroppedIff(p, flag);
    MergeNothing(doc);
    StrippedKeepsMeaning(p, doc, flag, path);
    AnnotationLeaf(doc, s, name);
  }

  lemma NameIsFree(p: Fields, flag: bool, name: string)
    requires WellFormed(p) && name in Annotations(Stripped(p, flag))
    ensures !Protected(["metadata", "annotations", name], flag)
  {
    StrippedAt(p, flag, name);
    assert "annotations" !in SERVER_OWNED;
  }

  lemma AnnotationLeaf(doc: Fields, s: Fields, name: string)
    requires WellFormed(doc) && WellFormed(s) && name in Annotations(s) && name in Annotations(doc)
    requires Annotations(doc)[name] == Other(Annotations(s)[name])
    ensures var path := ["metadata", "annotations", name];
            Leaf(Obj(doc), path) == Some(Annotations(doc)[name]) &&
                Leaf(Apply(doc, s), path) != Some(Annotations(doc)[name])
  {
    var path, after := ["metadata", "annotations", name], MergeFields(doc, s);
    MergeAt(doc, s, "metadata");
    MergeAt(Metadata(doc), Metadata(s), "annotations");
    MergeAt(Annotations(doc), Annotations(s), name);
    assert path[1..] == ["annotations", name] && path[1..][1..] == [name] && [name][1..] == [];
    LeafInto(doc, path);
    LeafInto(Metadata(doc), path[1..]);
    LeafInto(after, path);
    LeafInto(Metadata(after), path[1..]);
  }
}
