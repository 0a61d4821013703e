/**
 Who owns an object: the labels and annotations of `GetLabelsAndAnnotations`, the owner hash, and the
 tests for a change of owner (pkg/apply/desiredset_apply.go:93-189, pkg/apply/desiredset_process.go:160-174, 292-319).
 */
module Ownership {
  import opened Base
  import opened Kinds
  import opened Json
  import opened Prune
  import opened Sanitize
  import opened Normalize

  const LABEL_SUB_CONTEXT := "apply.acorn.io/owner-sub-context"
  const LABEL_GVK := "apply.acorn.io/owner-gvk"
  const LABEL_NAME := "apply.acorn.io/owner-name"
  const LABEL_NAMESPACE := "apply.acorn.io/owner-namespace"
  const LABEL_HASH := "apply.acorn.io/hash"

  type Texts = map<string, string>

  function Labels(doc: Fields): Fields {
    FieldsOf(Get(Metadata(doc), "labels"))
  }

  function LabelOf(doc: Fields, name: string): string {
    TextOf(Get(Labels(doc), name))
  }

  function TextAt(texts: Texts, name: string): string {
    if name in texts then texts[name] else ""
  }

  // ---------------------------------------------------------------- the owner hash

  /** What is hashed: the four owner texts, run together. */
  function HashInput(texts: Texts): string {
    TextAt(texts, LABEL_SUB_CONTEXT) + TextAt(texts, LABEL_GVK) + TextAt(texts, LABEL_NAME) +
        TextAt(texts, LABEL_NAMESPACE)
  }

  function ObjectSetHash(lib: Library, texts: Texts): string {
    lib.sha1(HashInput(texts))
  }

  function AnnotationTexts(doc: Fields): Texts {
    map k | k in Annotations(doc) && Annotations(doc)[k].Str? :: Annotations(doc)[k].s
  }

  function HashOf(lib: Library, doc: Fields): string {
    ObjectSetHash(lib, AnnotationTexts(doc))
  }

  function OwnerAnnotations(subContext: string, owner: Option<Owner>): Texts {
    var base := map[LABEL_SUB_CONTEXT := subContext];
    if owner == None then base
    else
      base[LABEL_GVK := owner.value.gvk.Text()]
          [LABEL_NAME := owner.value.name]
          [LABEL_NAMESPACE := owner.value.namespace]
  }

  /** No labels without an owner and without a subcontext. */
  function OwnerStamp(lib: Library, subContext: string, owner: Option<Owner>): (Texts, Texts) {
    if subContext == "" && owner == None then (map[], map[])
    else
      var annotations := OwnerAnnotations(subContext, owner);
      (map[LABEL_HASH := ObjectSetHash(lib, annotations)], annotations)
  }

  /** The four owner texts, run together. */
  function OwnerText(subContext: string, owner: Option<Owner>): string {
    subContext + if owner == None then "" else owner.value.gvk.Text() + owner.value.name + owner.value.namespace
  }

  lemma HashInputIs(subContext: string, owner: Option<Owner>)
    ensures HashInput(OwnerAnnotations(subContext, owner)) == OwnerText(subContext, owner)
  {
    var a := OwnerAnnotations(subContext, owner);
    assert |LABEL_SUB_CONTEXT| == 32 && |LABEL_GVK| == 24 && |LABEL_NAME| == 25 && |LABEL_NAMESPACE| == 30;
    assert TextAt(a, LABEL_SUB_CONTEXT) == subContext;
  }

  ghost predicate Injective(hash: string -> string) {
    forall x, y :: hash(x) == hash(y) ==> x == y
  }

  /** Owners are told apart by hash only, and the hash does not see where one text ends and the next begins: with a
      perfect hash function two owners get the same label if and only if their texts run together are the same. With any
      hash function that is enough. */
  lemma OwnersShareALabelIff(lib: Library, s: string, a: Option<Owner>, t: string, b: Option<Owner>)
    requires (s != "" || a != None) && (t != "" || b != None)
    ensures OwnerText(s, a) == OwnerText(t, b) ==> OwnerStamp(lib, s, a).0 == OwnerStamp(lib, t, b).0
    ensures Injective(lib.sha1) ==>
              (OwnerStamp(lib, s, a).0 == OwnerStamp(lib, t, b).0 <==> OwnerText(s, a) == OwnerText(t, b))
  {
    HashInputIs(s, a);
    HashInputIs(t, b);
    assert OwnerStamp(lib, s, a).0[LABEL_HASH] == lib.sha1(OwnerText(s, a));
    assert OwnerStamp(lib, t, b).0[LABEL_HASH] == lib.sha1(OwnerText(t, b));
  }

  /** For owners of one kind and subcontext: if and only if name and namespace run together are the same. */
  lemma OwnersOfOneKindShareALabelIff(lib: Library, s: string, a: Owner, b: Owner)
    requires a.gvk == b.gvk && Injective(lib.sha1)
    ensures OwnerStamp(lib, s, Some(a)).0 == OwnerStamp(lib, s, Some(b)).0 <==>
              a.name + a.namespace == b.name + b.namespace
  {
    OwnersShareALabelIff(lib, s, Some(a), s, Some(b));
    OwnerTextEnds(s, a);
    OwnerTextEnds(s, b);
    SameTail(s + a.gvk.Text(), a.name + a.namespace, b.name + b.namespace);
  }

  lemma OwnerTextEnds(s: string, owner: Owner)
    ensures OwnerText(s, Some(owner)) == s + owner.gvk.Text() + (owner.name + owner.namespace)
  {
    var head := owner.gvk.Text();
    assert s + (head + owner.name + owner.namespace) == s + head + (owner.name + owner.namespace);
  }

  lemma SameTail(head: string, x: string, y: string)
    ensures head + x == head + y <==> x == y
  {
    assert x == (head + x)[|head|..] && y == (head + y)[|head|..];
  }

  /** Two owners in different namespaces, with different annotations and one label. */
  lemma DistinctOwnersCanShareAHash(lib: Library, gvk: GVK)
    ensures var a := Owner(gvk, true, "c", "ab", "1"); var b := Owner(gvk, true, "bc", "a", "2");
            OwnerAnnotations("", Some(a)) != OwnerAnnotations("", Some(b)) &&
            OwnerStamp(lib, "", Some(a)).0 == OwnerStamp(lib, "", Some(b)).0
  {
    var a, b := Owner(gvk, true, "c", "ab", "1"), Owner(gvk, true, "bc", "a", "2");
    assert OwnerAnnotations("", Some(a))[LABEL_NAME] != OwnerAnnotations("", Some(b))[LABEL_NAME];
    assert gvk.Text() + "ab" + "c" == gvk.Text() + "a" + "bc";
    OwnersShareALabelIff(lib, "", Some(a), "", Some(b));
  }

  // ---------------------------------------------------------------- stamping the wanted objects

  function Overlay(fields: Fields, texts: Texts): Fields {
    fields + map k | k in texts :: Str(texts[k])
  }

  function Stamped(doc: Fields, labels: Texts, annotations: Texts): Fields {
    doc["metadata" := Obj(Metadata(doc)
      ["labels" := Obj(Overlay(Labels(doc), labels))]
      ["annotations" := Obj(Overlay(Annotations(doc) - {LABEL_APPLIED}, annotations))])]
  }

  lemma StampedTexts(doc: Fields, labels: Texts, annotations: Texts, k: string)
    ensures var d := Stamped(doc, labels, annotations);
            && (k != LABEL_APPLIED ==>
                 TextAt(AnnotationTexts(d), k) == AnnotationOf(d, k) == if k in annotations then annotations[k]
                     else AnnotationOf(doc, k))
            && LabelOf(d, k) == (if k in labels then labels[k] else LabelOf(doc, k))
            && (k == "apply.acorn.io/applied" && k !in annotations ==> k !in Annotations(d))
  {
    var d := Stamped(doc, labels, annotations);
    assert Annotations(d) == Overlay(Annotations(doc) - {LABEL_APPLIED}, annotations);
    assert Labels(d) == Overlay(Labels(doc), labels);
  }

  /** The texts of an owner other than its subcontext that an object carries already. */
  function OldOwner(doc: Fields): string {
    AnnotationOf(doc, LABEL_GVK) + AnnotationOf(doc, LABEL_NAME) + AnnotationOf(doc, LABEL_NAMESPACE)
  }

  /** A stamped object carries the owner's label. With an owner, that label is the hash of the object's own annotations;
      with a subcontext only, the object keeps what annotations of an owner it has, and they count in the hash. */
  lemma StampIsConsistent(lib: Library, subContext: string, owner: Option<Owner>, doc: Fields)
    requires subContext != "" || owner != None
    ensures var (labels, annotations) := OwnerStamp(lib, subContext, owner);
            var d := Stamped(doc, labels, annotations);
            && LabelOf(d, LABEL_HASH) == labels[LABEL_HASH]
            && (LabelOf(d, LABEL_HASH) == HashOf(lib, d) <==>
                owner.Some? || lib.sha1(subContext) == lib.sha1(subContext + OldOwner(doc)))
            && (Injective(lib.sha1) ==>
                 (LabelOf(d, LABEL_HASH) == HashOf(lib, d) <==> owner.Some? || OldOwner(doc) == ""))
  {
    var (labels, annotations) := OwnerStamp(lib, subContext, owner);
    StampedTexts(doc, labels, annotations, LABEL_HASH);
    StampedInput(subContext, owner, doc, labels);
    HashInputIs(subContext, owner);
    if owner == None {
      NoOwnerTexts(subContext);
      assert OwnerText(subContext, owner) == subContext;
      assert labels[LABEL_HASH] == lib.sha1(subContext);
      assert |subContext + OldOwner(doc)| == |subContext| + |OldOwner(doc)|;
      assert OldOwner(doc) == "" ==> subContext + OldOwner(doc) == subContext;
    }
  }

  lemma StampedInput(subContext: string, owner: Option<Owner>, doc: Fields, labels: Texts)
    ensures HashInput(AnnotationTexts(Stamped(doc, labels, OwnerAnnotations(subContext, owner)))) ==
            if owner.Some? then HashInput(OwnerAnnotations(subContext, owner)) else subContext + OldOwner(doc)
  {
    var a := OwnerAnnotations(subContext, owner);
    StampedHashInput(doc, labels, a);
    if owner == None {
      NoOwnerTexts(subContext);
      KeptInput(subContext, After(a, doc, LABEL_GVK), After(a, doc, LABEL_NAME), After(a, doc, LABEL_NAMESPACE));
    } else {
      AllOwnerTexts(subContext, owner.value);
    }
  }

  lemma KeptInput(s: string, gvk: string, name: string, namespace: string)
    ensures s + gvk + name + namespace == s + (gvk + name + namespace)
  {
  }

  lemma AllOwnerTexts(subContext: string, owner: Owner)
    ensures OwnerAnnotations(subContext, Some(owner)).Keys ==
              {LABEL_SUB_CONTEXT, LABEL_GVK, LABEL_NAME, LABEL_NAMESPACE}
  {
  }

  lemma NoOwnerTexts(subContext: string)
    ensures var a := OwnerAnnotations(subContext, None);
            a[LABEL_SUB_CONTEXT] == subContext && LABEL_GVK !in a && LABEL_NAME !in a && LABEL_NAMESPACE !in a
  {
    assert |LABEL_SUB_CONTEXT| == 32 && |LABEL_GVK| == 24 && |LABEL_NAME| == 25 && |LABEL_NAMESPACE| == 30;
  }

  function After(texts: Texts, doc: Fields, name: string): string {
    if name in texts then texts[name] else AnnotationOf(doc, name)
  }

  lemma StampedHashInput(doc: Fields, labels: Texts, annotations: Texts)
    ensures HashInput(AnnotationTexts(Stamped(doc, labels, annotations))) ==
            After(annotations, doc, LABEL_SUB_CONTEXT) + After(annotations, doc, LABEL_GVK) +
            After(annotations, doc, LABEL_NAME) + After(annotations, doc, LABEL_NAMESPACE)
  {
    StampedTexts(doc, labels, annotations, LABEL_SUB_CONTEXT);
    StampedTexts(doc, labels, annotations, LABEL_GVK);
    StampedTexts(doc, labels, annotations, LABEL_NAME);
    StampedTexts(doc, labels, annotations, LABEL_NAMESPACE);
    assert |LABEL_SUB_CONTEXT| == 32 && |LABEL_GVK| == 24 && |LABEL_NAME| == 25 && |LABEL_NAMESPACE| == 30;
    assert |LABEL_APPLIED| == 22;
  }

  // ---------------------------------------------------------------- change of owner

  predicate AnnotationsMatch(before: Fields, wanted: Fields) {
    forall k | k in {LABEL_SUB_CONTEXT, LABEL_GVK, LABEL_NAME, LABEL_NAMESPACE, LABEL_HASH} ::
      AnnotationOf(before, k) == AnnotationOf(wanted, k)
  }

  predicate IsAssigningSubContext(before: Fields, wanted: Fields) {
    && AnnotationOf(before, LABEL_SUB_CONTEXT) == ""
    && AnnotationOf(wanted, LABEL_SUB_CONTEXT) != ""
    && AnnotationOf(before, LABEL_GVK) == AnnotationOf(wanted, LABEL_GVK)
    && AnnotationOf(before, LABEL_NAMESPACE) == AnnotationOf(wanted, LABEL_NAMESPACE)
    && AnnotationOf(before, LABEL_NAME) == AnnotationOf(wanted, LABEL_NAME)
  }

  predicate IsAllowOwnerTransition(validOwnerChange: set<string>, before: Fields, wanted: Fields) {
    && AnnotationOf(wanted, LABEL_SUB_CONTEXT) != ""
    && (AnnotationOf(before, LABEL_GVK) != "" ==> AnnotationOf(before, LABEL_GVK) == AnnotationOf(wanted, LABEL_GVK))
    && (AnnotationOf(before, LABEL_NAMESPACE) != "" ==>
         AnnotationOf(before, LABEL_NAMESPACE) == AnnotationOf(wanted, LABEL_NAMESPACE))
    && (AnnotationOf(before, LABEL_NAME) != "" ==> AnnotationOf(before, LABEL_NAME) == AnnotationOf(wanted, LABEL_NAME))
    && AnnotationOf(before, LABEL_SUB_CONTEXT) + " => " + AnnotationOf(wanted, LABEL_SUB_CONTEXT) in validOwnerChange
  }
}
