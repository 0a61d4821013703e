/**
 The three-way JSON merge that `createPatch` asks for (pkg/apply/desiredset_compare.go:408-430):
 additions and changes come from current -> modified, deletions from original -> modified.
 The merge library is not part of the repository; its contract is written out here.
 */
module ThreeWay {
  import opened Base
  import opened Json

  // ---------------------------------------------------------------- the patch

  /** What turns `a` into `b`: changed and added keys with their value in `b`, lost keys as null. */
  function Diff(a: Fields, b: Fields): Fields
    decreases Obj(b)
  {
    map k | k in a.Keys + b.Keys && DiffAt(a, b, k).Some? :: DiffAt(a, b, k).value
  }

  function DiffAt(a: Fields, b: Fields, k: string): Option<Json>
    requires k in a.Keys + b.Keys
    decreases Obj(b), 0
  {
    if k !in b then
      Some(Null)
    else if b[k].Obj? && k in a && a[k].Obj? then
      var d := Diff(a[k].fields, b[k].fields);
      if d == map[] then None else Some(Obj(d))
    else if k in a && a[k] == b[k] then
      None
    else
      Some(b[k])
  }

  /** Only the nulls of a patch, and the objects that lead to one. */
  function KeepNulls(p: Fields): Fields
    decreases Obj(p)
  {
    map k | k in p && (p[k].Null? || (p[k].Obj? && KeepNulls(p[k].fields) != map[])) ::
      if p[k].Obj? then Obj(KeepNulls(p[k].fields)) else Null
  }

  /** Everything but the nulls; an object emptied by that goes too, one that came empty stays. */
  function DropNulls(p: Fields): Fields
    decreases Obj(p)
  {
    map k | k in p && !p[k].Null? && (p[k].Obj? ==> p[k].fields == map[] || DropNulls(p[k].fields) != map[]) ::
      if p[k].Obj? then Obj(DropNulls(p[k].fields)) else p[k]
  }

  lemma DiffGet(a: Fields, b: Fields, k: string)
    ensures Get(Diff(a, b), k) == if k in a || k in b then DiffAt(a, b, k) else None
  {
  }

  lemma KeepNullsGet(p: Fields, k: string)
    ensures Get(KeepNulls(p), k) ==
      if k !in p then None
      else if p[k].Null? then Some(Null)
      else if p[k].Obj? && KeepNulls(p[k].fields) != map[] then Some(Obj(KeepNulls(p[k].fields)))
      else None
  {
  }

  lemma DropNullsGet(p: Fields, k: string)
    ensures Get(DropNulls(p), k) ==
      if k !in p || p[k].Null? then None
      else if !p[k].Obj? then Some(p[k])
      else if p[k].fields == map[] || DropNulls(p[k].fields) != map[] then Some(Obj(DropNulls(p[k].fields)))
      else None
  {
  }

  function Deletions(original: Fields, modified: Fields): Fields {
    KeepNulls(Diff(original, modified))
  }

  function Additions(current: Fields, modified: Fields): Fields {
    DropNulls(Diff(current, modified))
  }

  function Patch(original: Fields, modified: Fields, current: Fields): Fields {
    MergeFields(Deletions(original, modified), Additions(current, modified))
  }

  // ---------------------------------------------------------------- what it means

  /** `modified` has something to say below an object that `current` does not have. */
  predicate Speaks(original: Fields, modified: Fields) {
    modified == map[] || Deletions(original, modified) != map[] || DropNulls(modified) != map[]
  }

  /**
   The document a reader of the design expects after the patch, key by key and without patches:
   a key only the last apply had is gone; a wanted leaf is there whatever `current` says;
   a wanted object is merged; a key neither apply knows is left alone.
   */
  function Expected(original: Fields, modified: Fields, current: Fields): Fields
    decreases Obj(modified)
  {
    map k | k in current.Keys + modified.Keys && ExpectedAt(original, modified, current, k).Some? ::
      ExpectedAt(original, modified, current, k).value
  }

  function ExpectedAt(original: Fields, modified: Fields, current: Fields, k: string): Option<Json>
    decreases Obj(modified), 0
  {
    if k !in modified then
      if k in original then None else Get(current, k)
    else match modified[k]
      case Null =>
        if Get(original, k) == Some(Null) then Get(current, k) else None
      case Obj(want) =>
        var had := FieldsOf(Get(original, k));
        if k in current && current[k].Obj? then
          Some(Obj(Expected(had, want, current[k].fields)))
        else if Speaks(had, want) then
          Some(Obj(Expected(had, want, map[])))
        else
          Get(current, k)
      case leaf =>
        Some(leaf)
  }

  lemma ExpectedGet(o: Fields, m: Fields, c: Fields, k: string)
    ensures Get(Expected(o, m, c), k) == ExpectedAt(o, m, c, k)
  {
  }

  lemma {:induction false} DropNullsIsNullFree(p: Fields)
    ensures NullFree(DropNulls(p))
    decreases Obj(p)
  {
    forall k | k in p && p[k].Obj? ensures NullFree(DropNulls(p[k].fields)) {
      DropNullsIsNullFree(p[k].fields);
    }
  }

  lemma {:induction false} DiffFromNothing(b: Fields)
    ensures Diff(map[], b) == b
  {
    var d := Diff(map[], b);
    forall k | k in b ensures k in d && d[k] == b[k] {
      assert DiffAt(map[], b, k) == Some(b[k]);
    }
    assert d.Keys == b.Keys;
  }

  /** One key of the patch, when the wanted value is an object. */
  lemma PatchAtObject(o: Fields, m: Fields, c: Fields, k: string)
    requires k in m && m[k].Obj?
    ensures var had := FieldsOf(Get(o, k)); var want := m[k].fields;
            var have := FieldsOf(Get(c, k));
            var sub := Patch(had, want, have);
            var p := Patch(o, m, c);
            if k in c && c[k].Obj? then Get(p, k) == (if sub == map[] then None else Some(Obj(sub)))
            else Get(p, k) == (if Speaks(had, want) then Some(Obj(sub)) else None)
  {
    var had := FieldsOf(Get(o, k));
    var want := m[k].fields;
    var have := FieldsOf(Get(c, k));
    var dels, adds := Deletions(had, want), Additions(have, want);
    DeletionsAtObject(o, m, k);
    AdditionsAtObject(c, m, k);
    MergeAt(Deletions(o, m), Additions(c, m), k);
    MergeNothing(dels);
    DropNullsIsNullFree(Diff(have, want));
    MergeIntoNothing(adds);
    MergeDisjoint(dels, adds);
    DiffFromNothing(want);
  }

  lemma AdditionsAtObject(c: Fields, m: Fields, k: string)
    requires k in m && m[k].Obj?
    ensures var adds := Additions(FieldsOf(Get(c, k)), m[k].fields);
            Get(Additions(c, m), k) ==
              if adds != map[] || (m[k].fields == map[] && !(k in c && c[k].Obj?)) then Some(Obj(adds)) else None
  {
    DiffGet(c, m, k);
    DropNullsGet(Diff(c, m), k);
    DiffFromNothing(m[k].fields);
  }

  lemma DeletionsAtObject(o: Fields, m: Fields, k: string)
    requires k in m && m[k].Obj?
    ensures var dels := Deletions(FieldsOf(Get(o, k)), m[k].fields);
            Get(Deletions(o, m), k) == if dels == map[] then None else Some(Obj(dels))
  {
    DiffGet(o, m, k);
    KeepNullsGet(Diff(o, m), k);
    DiffFromNothing(m[k].fields);
  }

  lemma MergeDisjoint(dels: Fields, adds: Fields)
    requires NullFree(adds)
    ensures MergeFields(dels, adds).Keys == dels.Keys + adds.Keys
  {
  }

  /** The patch does what the design says, for every last-applied, wanted and current document. */
  lemma {:induction false} PatchMeansExpected(o: Fields, m: Fields, c: Fields)
    ensures MergeFields(c, Patch(o, m, c)) == Expected(o, m, c)
    decreases Obj(m)
  {
    var p := Patch(o, m, c);
    var r := MergeFields(c, p);
    var e := Expected(o, m, c);
    forall k ensures Get(r, k) == Get(e, k) {
      if k in m && m[k].Obj? {
        var had, want, have := FieldsOf(Get(o, k)), m[k].fields, FieldsOf(Get(c, k));
        ExpectedGet(o, m, c, k);
        MergeAt(c, p, k);
        PatchAtObject(o, m, c, k);
        PatchMeansExpected(had, want, have);
        MergeNothing(have);
      } else {
        PatchAtLeaf(o, m, c, k);
      }
    }
    assert r == e by { SameByGet(r, e); }
  }

  lemma PatchAtLeaf(o: Fields, m: Fields, c: Fields, k: string)
    requires k in m ==> !m[k].Obj?
    ensures Get(MergeFields(c, Patch(o, m, c)), k) == Get(Expected(o, m, c), k)
  {
    ExpectedGet(o, m, c, k);
    MergeAt(c, Patch(o, m, c), k);
    MergeAt(Deletions(o, m), Additions(c, m), k);
    DiffGet(c, m, k);
    DropNullsGet(Diff(c, m), k);
    DiffGet(o, m, k);
    KeepNullsGet(Diff(o, m), k);
  }

  // ---------------------------------------------------------------- convergence

  /** Once the expected document is there, the same wanted document adds and changes nothing. */
  lemma {:induction false} ExpectedAddsNothing(o: Fields, m: Fields, c: Fields)
    ensures Additions(Expected(o, m, c), m) == map[]
    decreases Obj(m)
  {
    var e := Expected(o, m, c);
    var d := Diff(e, m);
    forall k ensures Get(DropNulls(d), k) == None {
      DropNullsGet(d, k);
      DiffGet(e, m, k);
      ExpectedGet(o, m, c, k);
      if k in m && m[k].Obj? {
        var had, want, have := FieldsOf(Get(o, k)), m[k].fields, FieldsOf(Get(c, k));
        ExpectedAddsNothing(had, want, have);
        DiffFromNothing(want);
      }
    }
    SameByGet(DropNulls(d), map[]);
  }

  lemma {:induction false} LeafSurvivesDropNulls(m: Fields, path: seq<string>)
    requires path != [] && Leaf(Obj(m), path).Some? && !Leaf(Obj(m), path).value.Null?
    ensures DropNulls(m) != map[]
    decreases path
  {
    DropNullsGet(m, path[0]);
    if m[path[0]].Obj? {
      LeafSurvivesDropNulls(m[path[0]].fields, path[1..]);
    }
  }

  /**
   Every wanted leaf is in the merged document, whatever was there before. In particular a change
   made on the server to a wanted leaf does not survive, against docs/guides/apply.md:505.
   */
  lemma {:induction false} WantedLeavesLand(o: Fields, m: Fields, c: Fields, path: seq<string>)
    requires path != [] && Leaf(Obj(m), path).Some? && !Leaf(Obj(m), path).value.Null?
    ensures Leaf(Obj(Expected(o, m, c)), path) == Leaf(Obj(m), path)
    decreases path
  {
    ExpectedGet(o, m, c, path[0]);
    if m[path[0]].Obj? {
      var had, want, have := FieldsOf(Get(o, path[0])), m[path[0]].fields, FieldsOf(Get(c, path[0]));
      WantedLeavesLand(had, want, have, path[1..]);
      LeafSurvivesDropNulls(want, path[1..]);
    }
  }

  /** The guide's row "User modified: preserve" on the guide's own values. */
  lemma GuideRowUserModified()
    ensures var applied := map["f" := Str("value")];
            MergeFields(map["f" := Str("manual")], Patch(applied, applied, map["f" := Str("manual")])) == applied
  {
    var applied := map["f" := Str("value")];
    var manual := map["f" := Str("manual")];
    PatchMeansExpected(applied, applied, manual);
    ExpectedGet(applied, applied, manual, "f");
  }

  /** Neither the last apply nor this one has anything to say about `path`. */
  predicate Unclaimed(o: Fields, m: Fields, path: seq<string>)
    decreases path
  {
    path != [] &&
    if path[0] in m && m[path[0]].Obj? then Unclaimed(FieldsOf(Get(o, path[0])), m[path[0]].fields, path[1..])
    else path[0] !in m && path[0] !in o
  }

  /** What nobody claims stays as it is on the server. */
  lemma {:induction false} UnclaimedLeavesStay(o: Fields, m: Fields, c: Fields, path: seq<string>)
    requires Unclaimed(o, m, path)
    ensures Leaf(Obj(Expected(o, m, c)), path) == Leaf(Obj(c), path)
    decreases path
  {
    ExpectedGet(o, m, c, path[0]);
    if path[0] in m {
      UnclaimedLeavesStay(FieldsOf(Get(o, path[0])), m[path[0]].fields, FieldsOf(Get(c, path[0])), path[1..]);
    }
  }
}
