/**
 Bringing one existing object to its wanted form: `prepareObjectForCreate`, `getOriginalBytes`,
 `applyPatch` and `compareObjects` (pkg/apply/desiredset_compare.go:46-94, 184-315), for kinds that
 are patched with a JSON merge patch.
 */
module ApplyPatch {
  import opened Base
  import opened Kinds
  import opened Json
  import opened ThreeWay
  import opened Prune
  import opened Sanitize

  // ---------------------------------------------------------------- prepareObjectForCreate

  function WithApplied(obj: Fields, applied: string): Fields {
    obj["metadata" := Obj(Metadata(obj)["annotations" := Obj(Annotations(obj)[LABEL_APPLIED := Str(applied)])])]
  }

  function Serialized(lib: Library, obj: Fields): Fields {
    WireFields(lib, PruneValues(lib, obj, false))
  }

  function Prepared(lib: Library, gvk: GVK, obj: Fields, clone: bool): Fields {
    var copy := if clone then WithMetadata(obj, Metadata(obj) - {"uid", "creationTimestamp"}) else obj;
    WithApplied(copy, lib.pack(Serialized(lib, obj)))["apiVersion" := Str(ApiVersion(gvk))]["kind" := Str(gvk.kind)]
  }

  /** The prepared object as JSON: what a create sends and what the patch is computed towards. */
  function Modified(lib: Library, gvk: GVK, obj: Fields): Fields {
    WireFields(lib, Prepared(lib, gvk, obj, true))
  }

  // ---------------------------------------------------------------- getOriginalBytes

  function AppliedAnnotation(existing: Fields): string {
    TextOf(Get(Annotations(existing), LABEL_APPLIED))
  }

  function Recorded(lib: Library, existing: Fields): Unpacked {
    if AppliedAnnotation(existing) == "" then Nothing else lib.unpack(AppliedAnnotation(existing))
  }

  function Original(lib: Library, gvk: GVK, existing: Fields): Result<Fields> {
    match Recorded(lib, existing)
    case Nothing => Ok(map[])
    case Malformed => Err("invalid last-applied annotation")
    case Doc(doc) => Ok(WireFields(lib, Prepared(lib, gvk, WithMetadata(doc, Metadata(doc) - SERVER_OWNED), true)))
  }

  // ---------------------------------------------------------------- applyPatch

  /** The patch sent to the server; empty when none is sent. `existing` comes from the server, so it is JSON. */
  function SentPatch(lib: Library, gvk: GVK, existing: Fields, wanted: Fields): Result<Fields> {
    match Original(lib, gvk, existing)
    case Err(e) => Err(e)
    case Ok(original) => Ok(Sanitized(Patch(original, Modified(lib, gvk, wanted), existing), false))
  }

  /** Only a record that is there and cannot be read keeps an object from being compared. */
  lemma ComparableIff(lib: Library, gvk: GVK, existing: Fields, wanted: Fields)
    ensures SentPatch(lib, gvk, existing, wanted).Err? <==>
              "apply.acorn.io/applied" in Annotations(existing) &&
              var text := TextOf(Get(Annotations(existing), "apply.acorn.io/applied"));
              text != "" && lib.unpack(text) == Malformed
  {
  }

  /** Kind-specific reconcilers may look at the change first. */
  datatype Verdict = NotHandled | Handled | MustReplace | Refused

  datatype Outcome = NoChange | Send(patch: Fields) | Done | Replace | Failed

  type Reconciler = (GVK, Fields, Fields) -> Verdict

  /** The object as it was applied last, for a reconciler to look at. */
  function LastApplied(lib: Library, gvk: GVK, existing: Fields): Fields {
    match Recorded(lib, existing)
    case Doc(doc) => Prepared(lib, gvk, WithMetadata(doc, Metadata(doc) - SERVER_OWNED), true)
    case _ => existing
  }

  function Compare(lib: Library, reconcile: Reconciler, gvk: GVK, existing: Fields, wanted: Fields): Outcome {
    match SentPatch(lib, gvk, existing, wanted)
    case Err(_) => Failed
    case Ok(patch) =>
      if patch == map[] then NoChange else
        match reconcile(gvk, LastApplied(lib, gvk, existing), Prepared(lib, gvk, wanted, true))
        case NotHandled => Send(patch)
        case Handled => Done
        case MustReplace => Replace
        case Refused => Failed
  }

  /** Packing can be undone. */
  ghost predicate Faithful(lib: Library) {
    forall f :: lib.pack(WireFields(lib, f)) != "" &&
        lib.unpack(lib.pack(WireFields(lib, f))) == Doc(WireFields(lib, f))
  }

  // ---------------------------------------------------------------- a second compare is quiet

  /** A patch that only reaches for what the server owns. */
  predicate OnlyServerFields(p: Fields) {
    && p.Keys <= {"kind", "apiVersion", "status", "metadata"}
    && ("metadata" in p ==> p["metadata"].Obj?)
    && Metadata(p).Keys <= SERVER_OWNED
  }

  lemma ServerFieldsSanitizeAway(p: Fields)
    requires OnlyServerFields(p)
    ensures Sanitized(p, false) == map[]
  {
    var s := Stripped(p, false);
    assert s.Keys <= {"metadata"};
    assert Metadata(s) == map[];
    if "metadata" !in s {
      assert s == map[];
    } else {
      assert s.Keys == {"metadata"};
    }
  }

  lemma StrippedPlain(p: Fields, k: string)
    requires "metadata" in p ==> p["metadata"].Obj?
    ensures var s := Stripped(p, false);
            && ("metadata" in s <==> "metadata" in p) && ("metadata" in s ==> s["metadata"].Obj?)
            && (k !in {"kind", "apiVersion", "status", "metadata"} ==> Get(s, k) == Get(p, k))
            && (k !in SERVER_OWNED ==> Get(Metadata(s), k) == Get(Metadata(p), k))
  {
  }

  lemma AdditionsSame(c1: Fields, c2: Fields, m: Fields, k: string)
    requires Get(c1, k) == Get(c2, k)
    ensures Get(Additions(c1, m), k) == Get(Additions(c2, m), k)
  {
    DiffGet(c1, m, k);
    DiffGet(c2, m, k);
    DropNullsGet(Diff(c1, m), k);
    DropNullsGet(Diff(c2, m), k);
  }

  /** Two documents that differ at most in what the server owns. */
  predicate NearAt(a: Fields, b: Fields, k: string) {
    && (k !in {"kind", "apiVersion", "status", "metadata"} ==> Get(a, k) == Get(b, k))
    && (k !in SERVER_OWNED ==> Get(Metadata(a), k) == Get(Metadata(b), k))
  }

  lemma StrippedNear(c: Fields, p: Fields, k: string)
    requires "metadata" in p ==> p["metadata"].Obj?
    ensures NearAt(MergeFields(c, Stripped(p, false)), MergeFields(c, p), k)
  {
    var s := Stripped(p, false);
    StrippedPlain(p, k);
    MergeAt(c, s, k);
    MergeAt(c, p, k);
    MergeAt(c, s, "metadata");
    MergeAt(c, p, "metadata");
    MergeAt(Metadata(c), Metadata(s), k);
    MergeAt(Metadata(c), Metadata(p), k);
  }

  /** The sanitized patch takes the document to the expected one, but for what the server owns. */
  lemma SanitizedNearExpected(o: Fields, m: Fields, c: Fields, k: string)
    requires "metadata" in m && m["metadata"].Obj?
    requires Sanitized(Patch(o, m, c), false) != map[]
    ensures NearAt(MergeFields(c, Sanitized(Patch(o, m, c), false)), Expected(o, m, c), k)
  {
    PatchMeansExpected(o, m, c);
    PatchAtObject(o, m, c, "metadata");
    StrippedNear(c, Patch(o, m, c), k);
  }

  lemma NearAddsServerFieldsOnly(after: Fields, e: Fields, m: Fields)
    requires "metadata" in m && m["metadata"].Obj?
    requires Additions(e, m) == map[]
    requires forall k :: NearAt(after, e, k)
    ensures OnlyServerFields(Additions(after, m))
  {
    var adds := Additions(after, m);
    forall k | k !in {"kind", "apiVersion", "status", "metadata"} ensures k !in adds {
      assert NearAt(after, e, k);
      AdditionsSame(after, e, m, k);
      assert Get(adds, k) == None;
    }
    AdditionsAtObject(after, m, "metadata");
    AdditionsAtObject(e, m, "metadata");
    assert Get(Additions(e, m), "metadata") == None;
    var sub := Additions(Metadata(after), Metadata(m));
    forall k | k !in SERVER_OWNED ensures k !in sub {
      assert NearAt(after, e, k);
      AdditionsSame(Metadata(after), Metadata(e), Metadata(m), k);
      assert Get(sub, k) == None;
    }
  }

  lemma AfterAddsServerFieldsOnly(o: Fields, m: Fields, c: Fields)
    requires "metadata" in m && m["metadata"].Obj?
    requires Sanitized(Patch(o, m, c), false) != map[]
    ensures OnlyServerFields(Additions(MergeFields(c, Sanitized(Patch(o, m, c), false)), m))
  {
    ExpectedAddsNothing(o, m, c);
    var after, e := MergeFields(c, Sanitized(Patch(o, m, c), false)), Expected(o, m, c);
    forall k ensures NearAt(after, e, k) {
      SanitizedNearExpected(o, m, c, k);
    }
    NearAddsServerFieldsOnly(after, e, m);
  }

  /** `o` has the keys of `m` and, below, the same objects and nulls. */
  predicate CoveredAt(o: Fields, m: Fields, k: string)
    decreases Obj(m), 0
  {
    if k !in m then k !in o
    else if m[k].Null? then Get(o, k) == Some(Null)
    else m[k].Obj? ==> k in o && o[k].Obj? && Covered(o[k].fields, m[k].fields)
  }

  predicate Covered(o: Fields, m: Fields)
    decreases Obj(m), 1
  {
    o.Keys <= m.Keys && forall k | k in m :: CoveredAt(o, m, k)
  }

  lemma {:induction false} CoveredDeletesNothing(o: Fields, m: Fields)
    requires Covered(o, m)
    ensures Deletions(o, m) == map[]
    decreases Obj(m), 1
  {
    forall k ensures Get(Deletions(o, m), k) == None {
      CoveredDeletesNothingAt(o, m, k);
    }
    SameByGet(Deletions(o, m), map[]);
  }

  lemma {:induction false} CoveredDeletesNothingAt(o: Fields, m: Fields, k: string)
    requires CoveredAt(o, m, k)
    ensures Get(Deletions(o, m), k) == None
    decreases Obj(m), 0
  {
    DeletionsGet(o, m, k);
    if k in m && m[k].Obj? {
      CoveredDeletesNothing(o[k].fields, m[k].fields);
    }
  }

  /** The record of an object covers the object. */
  lemma {:induction false} SerializedCovers(lib: Library, x: Fields)
    ensures Covered(WireFields(lib, Serialized(lib, x)), WireFields(lib, x))
    decreases Obj(x)
  {
    var o, m := WireFields(lib, Serialized(lib, x)), WireFields(lib, x);
    forall k | k in m ensures CoveredAt(o, m, k) {
      SerializedCoversAt(lib, x, k);
    }
  }

  lemma {:induction false} SerializedCoversAt(lib: Library, x: Fields, k: string)
    ensures CoveredAt(WireFields(lib, Serialized(lib, x)), WireFields(lib, x), k)
    ensures k in x && x[k].Obj? ==> FieldsOf(Get(Serialized(lib, x), k)) == Serialized(lib, x[k].fields)
    decreases Obj(x), 0
  {
    WireAt(lib, x, k);
    PruneAt(lib, x, k);
    WireAt(lib, PruneValues(lib, x, false), k);
    WireAt(lib, Serialized(lib, x), k);
    if k in x && x[k].Obj? {
      SerializedCovers(lib, x[k].fields);
    }
  }

  lemma CoveredSame(o1: Fields, m1: Fields, o2: Fields, m2: Fields, k: string)
    requires Get(o1, k) == Get(o2, k) && Get(m1, k) == Get(m2, k)
    requires CoveredAt(o1, m1, k)
    ensures CoveredAt(o2, m2, k)
  {
    assert k in o1 <==> k in o2;
    assert k in m1 <==> k in m2;
  }

  lemma WireGet(lib: Library, f: Fields, k: string)
    ensures Get(WireFields(lib, f), k) == if k in f then Some(Wire(lib, f[k])) else None
    ensures FieldsOf(Get(WireFields(lib, f), k)) == WireFields(lib, FieldsOf(Get(f, k)))
  {
  }

  /** Where a prepared object `p` may differ from `x`, key by key at the three levels it is stamped on. */
  predicate StampedAt(gvk: GVK, p: Fields, x: Fields, applied: string, k: string) {
    && "metadata" in p && p["metadata"].Obj? && "annotations" in Metadata(p) && Metadata(p)["annotations"].Obj?
    && Get(p, "apiVersion") == Some(Str(ApiVersion(gvk))) && Get(p, "kind") == Some(Str(gvk.kind))
    && Get(Annotations(p), LABEL_APPLIED) == Some(Str(applied))
    && (k !in {"metadata", "apiVersion", "kind"} ==> Get(p, k) == Get(x, k))
    && (k !in {"annotations", "uid", "creationTimestamp"} ==> Get(Metadata(p), k) == Get(Metadata(x), k))
    && (k != LABEL_APPLIED ==> Get(Annotations(p), k) == Get(Annotations(x), k))
  }

  lemma WithAppliedAt(copy: Fields, applied: string, k: string)
    ensures var p := WithApplied(copy, applied);
            && "metadata" in p && p["metadata"].Obj? && "annotations" in Metadata(p) && Metadata(p)["annotations"].Obj?
            && Annotations(p) == Annotations(copy)[LABEL_APPLIED := Str(applied)]
            && (k != "metadata" ==> Get(p, k) == Get(copy, k))
            && (k != "annotations" ==> Get(Metadata(p), k) == Get(Metadata(copy), k))
  {
  }

  lemma CopiedAt(x: Fields, k: string)
    ensures var copy := WithMetadata(x, Metadata(x) - {"uid", "creationTimestamp"});
            && Annotations(copy) == Annotations(x) && (k != "metadata" ==> Get(copy, k) == Get(x, k))
            && (k !in {"uid", "creationTimestamp"} ==> Get(Metadata(copy), k) == Get(Metadata(x), k))
  {
    var copy := WithMetadata(x, Metadata(x) - {"uid", "creationTimestamp"});
    assert Get(Metadata(copy), "annotations") == Get(Metadata(x), "annotations");
  }

  lemma TypedAt(p: Fields, gvk: GVK, k: string)
    ensures var q := p["apiVersion" := Str(ApiVersion(gvk))]["kind" := Str(gvk.kind)];
            && Get(q, "apiVersion") == Some(Str(ApiVersion(gvk))) && Get(q, "kind") == Some(Str(gvk.kind))
            && Get(q, "metadata") == Get(p, "metadata") && (k !in {"apiVersion", "kind"} ==> Get(q, k) == Get(p, k))
  {
  }

  lemma StampedPrepared(lib: Library, gvk: GVK, x: Fields, clone: bool, k: string)
    ensures StampedAt(gvk, Prepared(lib, gvk, x, clone), x, lib.pack(Serialized(lib, x)), k)
  {
    var applied := lib.pack(Serialized(lib, x));
    var copy := if clone then WithMetadata(x, Metadata(x) - {"uid", "creationTimestamp"}) else x;
    CopiedAt(x, k);
    PreparedAt(copy, x, applied, gvk, k);
  }

  /** A prepared copy has neither the server's ID nor its time of creation; without a copy they stay. */
  lemma PreparedForgets(lib: Library, gvk: GVK, x: Fields, clone: bool, k: string)
    requires k == "uid" || k == "creationTimestamp"
    ensures Get(Metadata(Prepared(lib, gvk, x, clone)), k) == if clone then None else Get(Metadata(x), k)
  {
    var copy := if clone then WithMetadata(x, Metadata(x) - {"uid", "creationTimestamp"}) else x;
    WithAppliedAt(copy, lib.pack(Serialized(lib, x)), k);
  }

  lemma PreparedAt(copy: Fields, x: Fields, applied: string, gvk: GVK, k: string)
    requires Annotations(copy) == Annotations(x) && (k != "metadata" ==> Get(copy, k) == Get(x, k))
    requires k !in {"uid", "creationTimestamp"} ==> Get(Metadata(copy), k) == Get(Metadata(x), k)
    ensures StampedAt(gvk, WithApplied(copy, applied)["apiVersion" := Str(ApiVersion(gvk))]["kind" := Str(gvk.kind)], x,
              applied, k)
  {
    var p := WithApplied(copy, applied);
    WithAppliedAt(copy, applied, k);
    TypedAt(p, gvk, k);
    var q := p["apiVersion" := Str(ApiVersion(gvk))]["kind" := Str(gvk.kind)];
    assert Metadata(q) == Metadata(p);
  }

  /** What WireKeepsStamp needs at the top. */
  lemma WireKeepsTop(lib: Library, gvk: GVK, p: Fields)
    requires "metadata" in p && p["metadata"].Obj? && "annotations" in Metadata(p) && Metadata(p)["annotations"].Obj?
    requires Get(p, "apiVersion") == Some(Str(ApiVersion(gvk))) && Get(p, "kind") == Some(Str(gvk.kind))
    ensures var q := WireFields(lib, p);
            && "metadata" in q && q["metadata"].Obj? && "annotations" in Metadata(q) && Metadata(q)["annotations"].Obj?
            && Get(q, "apiVersion") == Some(Str(ApiVersion(gvk))) && Get(q, "kind") == Some(Str(gvk.kind))
  {
    WireNested(lib, p);
    WireGet(lib, p, "metadata");
    WireGet(lib, Metadata(p), "annotations");
    WireGet(lib, p, "apiVersion");
    WireGet(lib, p, "kind");
  }

  lemma WireKeepsStamp(lib: Library, gvk: GVK, p: Fields, x: Fields, applied: string, k: string)
    requires StampedAt(gvk, p, x, applied, k)
    ensures StampedAt(gvk, WireFields(lib, p), WireFields(lib, x), applied, k)
  {
    WireKeepsTop(lib, gvk, p);
    WireNested(lib, p);
    WireNested(lib, x);
    WireKeepsStampAt(lib, p, x, k);
    WireKeepsStampAt(lib, Metadata(p), Metadata(x), k);
    WireKeepsStampAt(lib, Annotations(p), Annotations(x), k);
    WireGet(lib, Annotations(p), LABEL_APPLIED);
  }

  lemma WireKeepsStampAt(lib: Library, a: Fields, b: Fields, k: string)
    ensures Get(a, k) == Get(b, k) ==> Get(WireFields(lib, a), k) == Get(WireFields(lib, b), k)
  {
    WireGet(lib, a, k);
    WireGet(lib, b, k);
  }

  lemma ModifiedAt(lib: Library, gvk: GVK, x: Fields, k: string)
    ensures StampedAt(gvk, Modified(lib, gvk, x), WireFields(lib, x), lib.pack(Serialized(lib, x)), k)
  {
    StampedPrepared(lib, gvk, x, true, k);
    WireKeepsStamp(lib, gvk, Prepared(lib, gvk, x, true), x, lib.pack(Serialized(lib, x)), k);
  }

  lemma WireNested(lib: Library, x: Fields)
    ensures Metadata(WireFields(lib, x)) == WireFields(lib, Metadata(x))
    ensures Annotations(WireFields(lib, x)) == WireFields(lib, Annotations(x))
  {
    WireGet(lib, x, "metadata");
    WireGet(lib, Metadata(x), "annotations");
  }

  /** The document the next compare takes for the last-applied one. */
  function NextOriginal(lib: Library, gvk: GVK, wanted: Fields): Fields {
    var doc := Serialized(lib, wanted);
    WireFields(lib, Prepared(lib, gvk, WithMetadata(doc, Metadata(doc) - SERVER_OWNED), true))
  }

  lemma RecordCoversMetadata(lib: Library, gvk: GVK, wanted: Fields, k: string)
    requires k !in SERVER_OWNED && k != "annotations"
    ensures CoveredAt(Metadata(NextOriginal(lib, gvk, wanted)), Metadata(Modified(lib, gvk, wanted)), k)
  {
    var doc := Serialized(lib, wanted);
    var trimmed := WithMetadata(doc, Metadata(doc) - SERVER_OWNED);
    ModifiedAt(lib, gvk, wanted, k);
    ModifiedAt(lib, gvk, trimmed, k);
    WireGet(lib, wanted, "metadata");
    WireGet(lib, trimmed, "metadata");
    WireGet(lib, doc, "metadata");
    WireGet(lib, Metadata(trimmed), k);
    WireGet(lib, Metadata(doc), k);
    RecordMetadata(lib, wanted);
    SerializedCoversAt(lib, Metadata(wanted), k);
    CoveredSame(WireFields(lib, Metadata(doc)), WireFields(lib, Metadata(wanted)),
                Metadata(NextOriginal(lib, gvk, wanted)), Metadata(Modified(lib, gvk, wanted)), k);
  }

  lemma RecordMetadata(lib: Library, wanted: Fields)
    ensures Metadata(Serialized(lib, wanted)) == Serialized(lib, Metadata(wanted))
    ensures Annotations(Serialized(lib, wanted)) == Serialized(lib, Annotations(wanted))
  {
    SerializedAt(lib, wanted, "metadata");
    SerializedAt(lib, Metadata(wanted), "annotations");
  }

  lemma SerializedAt(lib: Library, x: Fields, k: string)
    ensures FieldsOf(Get(Serialized(lib, x), k)) == Serialized(lib, FieldsOf(Get(x, k)))
  {
    PruneAt(lib, x, k);
    WireAt(lib, PruneValues(lib, x, false), k);
    assert Serialized(lib, map[]) == map[];
  }

  /** An annotation other than the record, in what is sent and in the record itself. */
  lemma AnnotationIs(lib: Library, gvk: GVK, wanted: Fields, k: string)
    ensures Get(Annotations(Modified(lib, gvk, wanted)), LABEL_APPLIED).Some?
    ensures Get(Annotations(Modified(lib, gvk, wanted)), LABEL_APPLIED).value.Str?
    ensures k != LABEL_APPLIED ==>
              Get(Annotations(Modified(lib, gvk, wanted)), k) == Get(WireFields(lib, Annotations(wanted)), k)
  {
    ModifiedAt(lib, gvk, wanted, k);
    WireNested(lib, wanted);
  }

  lemma RecordedAnnotationIs(lib: Library, gvk: GVK, wanted: Fields, k: string)
    requires k != LABEL_APPLIED
    ensures Get(Annotations(NextOriginal(lib, gvk, wanted)), k) ==
              Get(WireFields(lib, Annotations(Serialized(lib, wanted))), k)
  {
    var doc := Serialized(lib, wanted);
    var trimmed := WithMetadata(doc, Metadata(doc) - SERVER_OWNED);
    assert Annotations(trimmed) == Annotations(doc);
    AnnotationIs(lib, gvk, trimmed, k);
  }

  lemma RecordCoversAnnotations(lib: Library, gvk: GVK, wanted: Fields, k: string)
    ensures CoveredAt(Annotations(NextOriginal(lib, gvk, wanted)), Annotations(Modified(lib, gvk, wanted)), k)
  {
    AnnotationIs(lib, gvk, wanted, k);
    if k != LABEL_APPLIED {
      RecordedAnnotationIs(lib, gvk, wanted, k);
      RecordMetadata(lib, wanted);
      SerializedCoversAt(lib, Annotations(wanted), k);
      CoveredSame(WireFields(lib, Annotations(Serialized(lib, wanted))), WireFields(lib, Annotations(wanted)),
                  Annotations(NextOriginal(lib, gvk, wanted)), Annotations(Modified(lib, gvk, wanted)), k);
    }
  }

  lemma RecordCovers(lib: Library, gvk: GVK, wanted: Fields, k: string)
    requires k != "metadata"
    ensures CoveredAt(NextOriginal(lib, gvk, wanted), Modified(lib, gvk, wanted), k)
  {
    var doc := Serialized(lib, wanted);
    var trimmed := WithMetadata(doc, Metadata(doc) - SERVER_OWNED);
    ModifiedAt(lib, gvk, wanted, k);
    ModifiedAt(lib, gvk, trimmed, k);
    if k !in {"apiVersion", "kind"} {
      WireGet(lib, trimmed, k);
      WireGet(lib, doc, k);
      SerializedCoversAt(lib, wanted, k);
      CoveredSame(WireFields(lib, doc), WireFields(lib, wanted),
                  NextOriginal(lib, gvk, wanted), Modified(lib, gvk, wanted), k);
    }
  }

  lemma DeletesInMetadataOnly(o: Fields, m: Fields)
    requires "metadata" in m && m["metadata"].Obj?
    requires forall k | k != "metadata" :: CoveredAt(o, m, k)
    ensures Deletions(o, m).Keys <= {"metadata"}
    ensures Get(Deletions(o, m), "metadata").Some? ==>
              Get(Deletions(o, m), "metadata") == Some(Obj(Deletions(Metadata(o), Metadata(m))))
  {
    forall k | k != "metadata" ensures k !in Deletions(o, m) {
      CoveredDeletesNothingAt(o, m, k);
      assert Get(Deletions(o, m), k) == None;
    }
    DeletionsGet(o, m, "metadata");
  }

  lemma DeletesServerOwnedOnly(o: Fields, m: Fields)
    requires "annotations" in m && m["annotations"].Obj?
    requires forall k | k !in SERVER_OWNED && k != "annotations" :: CoveredAt(o, m, k)
    requires Covered(FieldsOf(Get(o, "annotations")), m["annotations"].fields)
    ensures Deletions(o, m).Keys <= SERVER_OWNED
  {
    DeletionsGet(o, m, "annotations");
    CoveredDeletesNothing(FieldsOf(Get(o, "annotations")), m["annotations"].fields);
    forall k | k !in SERVER_OWNED ensures k !in Deletions(o, m) {
      if k != "annotations" {
        CoveredDeletesNothingAt(o, m, k);
      }
      assert Get(Deletions(o, m), k) == None;
    }
  }

  lemma RecordCoversAllAnnotations(lib: Library, gvk: GVK, wanted: Fields)
    ensures Covered(Annotations(NextOriginal(lib, gvk, wanted)), Annotations(Modified(lib, gvk, wanted)))
  {
    var o, m := Annotations(NextOriginal(lib, gvk, wanted)), Annotations(Modified(lib, gvk, wanted));
    forall k ensures CoveredAt(o, m, k) && (k in o ==> k in m) {
      RecordCoversAnnotations(lib, gvk, wanted, k);
    }
  }

  /** Measured against its own record, a wanted object asks for no deletion but of what the server owns. */
  lemma RecordDeletesServerFieldsOnly(lib: Library, gvk: GVK, wanted: Fields)
    ensures OnlyServerFields(Deletions(NextOriginal(lib, gvk, wanted), Modified(lib, gvk, wanted)))
  {
    var o, m := NextOriginal(lib, gvk, wanted), Modified(lib, gvk, wanted);
    ModifiedAt(lib, gvk, wanted, "");
    forall k | k != "metadata" ensures CoveredAt(o, m, k) {
      RecordCovers(lib, gvk, wanted, k);
    }
    DeletesInMetadataOnly(o, m);
    forall k | k !in SERVER_OWNED && k != "annotations" ensures CoveredAt(Metadata(o), Metadata(m), k) {
      RecordCoversMetadata(lib, gvk, wanted, k);
    }
    RecordCoversAllAnnotations(lib, gvk, wanted);
    DeletesServerOwnedOnly(Metadata(o), Metadata(m));
  }

  lemma MergedServerFieldsOnly(dels: Fields, adds: Fields)
    requires OnlyServerFields(dels) && OnlyServerFields(adds)
    ensures OnlyServerFields(MergeFields(dels, adds))
  {
    var p := MergeFields(dels, adds);
    MergeAt(dels, adds, "metadata");
    assert p.Keys <= dels.Keys + adds.Keys;
    assert Metadata(p).Keys <= Metadata(dels).Keys + Metadata(adds).Keys;
  }

  lemma LeafOfAnnotation(doc: Fields, k: string)
    ensures Leaf(Obj(doc), ["metadata", "annotations", k]) ==
      if k in Annotations(doc) && !Annotations(doc)[k].Obj? then Some(Annotations(doc)[k]) else None
  {
    var path := ["metadata", "annotations", k];
    LeafInto(doc, path);
    LeafInto(Metadata(doc), path[1..]);
    assert path[1..][1..] == [k];
  }

  lemma WantedAnnotationLands(o: Fields, m: Fields, c: Fields, k: string)
    requires k in Annotations(m) && Annotations(m)[k].Str?
    ensures Get(Annotations(Expected(o, m, c)), k) == Get(Annotations(m), k)
  {
    LeafOfAnnotation(m, k);
    WantedLeavesLand(o, m, c, ["metadata", "annotations", k]);
    LeafOfAnnotation(Expected(o, m, c), k);
  }

  lemma NearHasRecord(after: Fields, e: Fields, applied: string)
    requires NearAt(after, e, "annotations")
    requires Get(Annotations(e), LABEL_APPLIED) == Some(Str(applied))
    ensures AppliedAnnotation(after) == applied
  {
  }

  /** The annotation of the last apply, after a patch was sent. */
  lemma AfterHasRecord(o: Fields, m: Fields, existing: Fields, applied: string)
    requires Sanitized(Patch(o, m, existing), false) != map[]
    requires "metadata" in m && m["metadata"].Obj? && Get(Annotations(m), LABEL_APPLIED) == Some(Str(applied))
    ensures AppliedAnnotation(MergeFields(existing, Sanitized(Patch(o, m, existing), false))) == applied
  {
    WantedAnnotationLands(o, m, existing, LABEL_APPLIED);
    SanitizedNearExpected(o, m, existing, "annotations");
    NearHasRecord(MergeFields(existing, Sanitized(Patch(o, m, existing), false)), Expected(o, m, existing), applied);
  }

  lemma ServerPatchIsQuiet(o: Fields, m: Fields, c: Fields)
    requires OnlyServerFields(Deletions(o, m)) && OnlyServerFields(Additions(c, m))
    ensures Sanitized(Patch(o, m, c), false) == map[]
  {
    MergedServerFieldsOnly(Deletions(o, m), Additions(c, m));
    ServerFieldsSanitizeAway(Patch(o, m, c));
  }

  /** With its own record on it, a document that lacks nothing but what the server owns is quiet. */
  lemma RecordedIsQuiet(lib: Library, gvk: GVK, after: Fields, wanted: Fields)
    requires Faithful(lib) && AppliedAnnotation(after) == lib.pack(Serialized(lib, wanted))
    requires OnlyServerFields(Additions(after, Modified(lib, gvk, wanted)))
    ensures SentPatch(lib, gvk, after, wanted) == Ok(map[])
  {
    assert Original(lib, gvk, after) == Ok(NextOriginal(lib, gvk, wanted));
    RecordDeletesServerFieldsOnly(lib, gvk, wanted);
    ServerPatchIsQuiet(NextOriginal(lib, gvk, wanted), Modified(lib, gvk, wanted), after);
  }

  /** Convergence: once the patch for a wanted object has been stored, comparing the same wanted object again sends
      nothing, whatever the object and its record looked like before. */
  lemma SecondCompareIsQuiet(lib: Library, gvk: GVK, existing: Fields, wanted: Fields)
    requires Faithful(lib)
    requires SentPatch(lib, gvk, existing, wanted).Ok?
    ensures var after := MergeFields(existing, SentPatch(lib, gvk, existing, wanted).value);
            SentPatch(lib, gvk, after, wanted) == Ok(map[])
  {
    var sent := SentPatch(lib, gvk, existing, wanted).value;
    MergeNothing(existing);
    if sent != map[] {
      var o := Original(lib, gvk, existing).value;
      var m := Modified(lib, gvk, wanted);
      ModifiedAt(lib, gvk, wanted, "");
      AfterAddsServerFieldsOnly(o, m, existing);
      AfterHasRecord(o, m, existing, lib.pack(Serialized(lib, wanted)));
      RecordedIsQuiet(lib, gvk, MergeFields(existing, sent), wanted);
    }
  }

  /** A freshly created object is quiet too. */
  lemma CompareAfterCreateIsQuiet(lib: Library, gvk: GVK, wanted: Fields)
    requires Faithful(lib)
    ensures SentPatch(lib, gvk, Modified(lib, gvk, wanted), wanted) == Ok(map[])
  {
    var m := Modified(lib, gvk, wanted);
    ModifiedAt(lib, gvk, wanted, "");
    DiffFromSelf(m);
    assert Additions(m, m) == map[];
    RecordedIsQuiet(lib, gvk, m, wanted);
  }

  lemma {:induction false} DiffFromSelf(m: Fields)
    ensures Diff(m, m) == map[]
    decreases Obj(m)
  {
    forall k ensures Get(Diff(m, m), k) == None {
      DiffGet(m, m, k);
      if k in m && m[k].Obj? {
        DiffFromSelf(m[k].fields);
      }
    }
    SameByGet(Diff(m, m), map[]);
  }

  /**
   After a compare, with or without a patch sent, every leaf the caller asked for is on the server,
   but for what the server owns and the last-applied annotation itself.
   */
  lemma WantedIsOnServer(lib: Library, gvk: GVK, existing: Fields, wanted: Fields, path: seq<string>)
    requires WellFormed(existing) && SentPatch(lib, gvk, existing, wanted).Ok?
    requires path != [] && !Protected(path, false) && !Bookkeeping(path)
    requires var asked := Leaf(Obj(Modified(lib, gvk, wanted)), path); asked.Some? && !asked.value.Null?
    ensures Leaf(Obj(MergeFields(existing, SentPatch(lib, gvk, existing, wanted).value)), path)
            == Leaf(Obj(Modified(lib, gvk, wanted)), path)
  {
    var o, m := Original(lib, gvk, existing).value, Modified(lib, gvk, wanted);
    ModifiedAt(lib, gvk, wanted, "");
    PatchIsWellFormed(o, m, existing);
    SanitizedKeepsMeaning(Patch(o, m, existing), existing, false, path);
    PatchMeansExpected(o, m, existing);
    WantedLeavesLand(o, m, existing, path);
  }

  /** And what neither the last apply nor this one names is left as it was. */
  lemma UnclaimedStaysOnServer(lib: Library, gvk: GVK, existing: Fields, wanted: Fields, path: seq<string>)
    requires WellFormed(existing) && SentPatch(lib, gvk, existing, wanted).Ok?
    requires Unclaimed(Original(lib, gvk, existing).value, Modified(lib, gvk, wanted), path)
    ensures Leaf(Obj(MergeFields(existing, SentPatch(lib, gvk, existing, wanted).value)), path) ==
              Leaf(Obj(existing), path)
  {
    var o, m := Original(lib, gvk, existing).value, Modified(lib, gvk, wanted);
    ModifiedAt(lib, gvk, wanted, "");
    PatchIsWellFormed(o, m, existing);
    if Protected(path, false) {
      SanitizedSparesServerFields(Patch(o, m, existing), existing, false, path);
    } else {
      SanitizedKeepsMeaning(Patch(o, m, existing), existing, false, path);
      PatchMeansExpected(o, m, existing);
      UnclaimedLeavesStay(o, m, existing, path);
    }
  }

  lemma PatchIsWellFormed(o: Fields, m: Fields, c: Fields)
    requires "metadata" in m && m["metadata"].Obj? && "annotations" in Metadata(m) && Metadata(m)["annotations"].Obj?
    ensures WellFormed(Patch(o, m, c))
  {
    PatchAtObject(o, m, c, "metadata");
    PatchAtObject(FieldsOf(Get(o, "metadata")), Metadata(m), FieldsOf(Get(c, "metadata")), "annotations");
  }
}
