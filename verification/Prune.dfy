/**
 The last-applied record: `pruneValues` and `pruneList` shorten what is stored in the annotation
 (pkg/apply/desiredset_compare.go:340-384).
 */
module Prune {
  import opened Base
  import opened Json
  import opened ThreeWay

  type Hex8 = s: string | |s| == 8 witness "00000000"

  datatype Unpacked = Nothing | Malformed | Doc(fields: Fields)

  /** The hashing and encoding libraries the engine calls; any functions will do. */
  datatype Library = Library(
    hexSum8: string -> Hex8,              // first eight hex digits of a SHA-256 sum
    base64: string -> string,             // how JSON writes a []byte
    pack: Fields -> string,               // JSON, gzip and base64
    unpack: string -> Unpacked,           // and back
    sha1: string -> string)

  const KNOWN_LIST_KEYS: set<string> := {
    "apiVersion", "containerPort", "devicePath", "ip", "kind", "mountPath", "name", "port", "topologyKey", "type"
  }

  function PruneList(lib: Library, data: seq<Json>): (result: seq<Json>)
    ensures |result| == |data|
    decreases Arr(data)
  {
    seq(|data|, i requires 0 <= i < |data| =>
      match data[i]
      case Obj(fields) => Obj(PruneValues(lib, fields, true))
      case Arr(items) => Arr(PruneList(lib, items))
      case leaf => leaf)
  }

  function PruneValues(lib: Library, data: Fields, isList: bool): Fields
    decreases Obj(data)
  {
    map k | k in data ::
      match data[k]
      case Obj(fields) => Obj(PruneValues(lib, fields, false))
      case Arr(items) => Arr(PruneList(lib, items))
      case leaf => if isList && k in KNOWN_LIST_KEYS then leaf else PruneLeaf(lib, leaf)
  }

  function PruneLeaf(lib: Library, v: Json): Json {
    match v
    case Str(x) => if |x| > 64 then Str(x[..64] + lib.hexSum8(x)) else v
    case Bytes(_) => Null
    case _ => v
  }

  /** What `json.Marshal` makes of an in-memory tree. */
  function Wire(lib: Library, v: Json): Json
    decreases v, 1
  {
    match v
    case Bytes(raw) => Str(lib.base64(raw))
    case Arr(items) => Arr(seq(|items|, i requires 0 <= i < |items| => Wire(lib, items[i])))
    case Obj(fields) => Obj(WireFields(lib, fields))
    case _ => v
  }

  function WireFields(lib: Library, f: Fields): Fields
    decreases Obj(f), 0
  {
    map k | k in f :: Wire(lib, f[k])
  }

  // ---------------------------------------------------------------- shape

  /**
   `p` is a shortened `v`: same keys, lengths and kinds all the way down, a []byte read as null, only
   long strings cut, and the merge keys of list elements kept whole.
   */
  predicate Shortened(v: Json, p: Json, listElement: bool)
    decreases v, 0
  {
    match v
    case Obj(f) =>
      p.Obj? && p.fields.Keys == f.Keys &&
      forall k | k in f :: Shortened(f[k], p.fields[k], false) ||
          (listElement && k in KNOWN_LIST_KEYS && p.fields[k] == f[k])
    case Arr(items) =>
      p.Arr? && |p.items| == |items| &&
      forall i | 0 <= i < |items| :: ShortenedItem(items[i], p.items[i])
    case Str(x) => p.Str? && (if |x| <= 64 then p == v else |p.s| == 72 && p.s[..64] == x[..64])
    case Bytes(_) => p == Null
    case _ => p == v
  }

  predicate ShortenedItem(v: Json, p: Json)
    decreases v, 1
  {
    if v.Obj? then
      Shortened(v, p, true) &&
      forall k | k in v.fields && k in KNOWN_LIST_KEYS && !v.fields[k].Obj? && !v.fields[k].Arr? ::
        p.fields[k] == v.fields[k]
    else if v.Arr? then Shortened(v, p, false)
    else p == v
  }

  lemma {:induction false} PruneShortens(lib: Library, data: Fields, isList: bool)
    ensures Shortened(Obj(data), Obj(PruneValues(lib, data, isList)), isList)
    ensures isList ==> ShortenedItem(Obj(data), Obj(PruneValues(lib, data, isList)))
    decreases Obj(data)
  {
    var p := PruneValues(lib, data, isList);
    forall k | k in data
      ensures Shortened(data[k], p[k], false) || (isList && k in KNOWN_LIST_KEYS && p[k] == data[k])
    {
      if data[k].Obj? {
        PruneShortens(lib, data[k].fields, false);
      } else if data[k].Arr? {
        PruneListShortens(lib, data[k].items);
      }
    }
  }

  lemma {:induction false} PruneListShortens(lib: Library, data: seq<Json>)
    ensures Shortened(Arr(data), Arr(PruneList(lib, data)), false)
    decreases Arr(data)
  {
    var p := PruneList(lib, data);
    forall i | 0 <= i < |data| ensures ShortenedItem(data[i], p[i]) {
      if data[i].Obj? {
        PruneShortens(lib, data[i].fields, true);
      } else if data[i].Arr? {
        PruneListShortens(lib, data[i].items);
      }
    }
  }

  /** The names by which list elements are merged. */
  predicate MergesBy(name: string) {
    name == "apiVersion" || name == "containerPort" || name == "devicePath" || name == "ip" || name == "kind" ||
    name == "mountPath" || name == "name" || name == "port" || name == "topologyKey" || name == "type"
  }

  /** A text as it is recorded. */
  function Cut(lib: Library, x: string): string {
    if |x| > 64 then x[..64] + lib.hexSum8(x) else x
  }

  /** Texts directly in a list element stay whole under those names; all others are cut, their hash put in the place of
      what is cut off. Texts in a list stay whole. */
  lemma TextsAreCut(lib: Library, data: Fields, items: seq<Json>, i: nat, k: string)
    ensures k in data && data[k].Str? ==>
              Get(PruneValues(lib, data, false), k) == Some(Str(Cut(lib, data[k].s)))
    ensures i < |items| && items[i].Obj? && k in items[i].fields && items[i].fields[k].Str? ==>
              PruneList(lib, items)[i].Obj? &&
              var x := items[i].fields[k].s;
              Get(PruneList(lib, items)[i].fields, k) == Some(Str(if MergesBy(k) then x else Cut(lib, x)))
    ensures i < |items| && items[i].Str? ==> PruneList(lib, items)[i] == items[i]
  {
    assert MergesBy(k) <==> k in KNOWN_LIST_KEYS;
  }

  // ---------------------------------------------------------------- deletions

  lemma DeletionsGet(o: Fields, m: Fields, k: string)
    ensures Get(Deletions(o, m), k) ==
      if k !in m then (if k in o then Some(Null) else None)
      else if m[k].Null? then (if Get(o, k) == Some(Null) then None else Some(Null))
      else if m[k].Obj? then
        var dels := Deletions(FieldsOf(Get(o, k)), m[k].fields);
        if dels == map[] then None else Some(Obj(dels))
      else None
  {
    DiffGet(o, m, k);
    KeepNullsGet(Diff(o, m), k);
    if k in m && m[k].Obj? {
      DeletionsAtObject(o, m, k);
    }
  }

  /** Somewhere the wanted document says null where the last-applied object held a []byte. */
  predicate NullMeetsBytes(o: Fields, m: Fields)
    decreases Obj(o)
  {
    exists k | k in o :: NullMeetsBytesAt(o, m, k)
  }

  predicate NullMeetsBytesAt(o: Fields, m: Fields, k: string)
    requires k in o
    decreases Obj(o), 0
  {
    k in m && ((o[k].Bytes? && m[k].Null?) || (o[k].Obj? && m[k].Obj? && NullMeetsBytes(o[k].fields, m[k].fields)))
  }

  /** Shortening the record changes what the three-way merge deletes exactly where null meets a []byte. */
  lemma {:induction false} PruneKeepsDeletions(lib: Library, o: Fields, m: Fields)
    ensures Deletions(WireFields(lib, PruneValues(lib, o, false)), m) == Deletions(WireFields(lib, o), m)
            <==> !NullMeetsBytes(o, m)
    decreases Obj(o)
  {
    var w, p := WireFields(lib, o), WireFields(lib, PruneValues(lib, o, false));
    forall k
      ensures Get(Deletions(p, m), k) == Get(Deletions(w, m), k) <==> !(k in o && NullMeetsBytesAt(o, m, k))
    {
      PruneKeepsDeletionsAt(lib, o, m, k);
    }
    if !NullMeetsBytes(o, m) {
      SameByGet(Deletions(p, m), Deletions(w, m));
    }
  }

  lemma WireAt(lib: Library, o: Fields, k: string)
    ensures var w := WireFields(lib, o);
            && (k in w <==> k in o)
            && (Get(w, k) == Some(Null) <==> Get(o, k) == Some(Null))
            && (k in o && o[k].Obj? ==> FieldsOf(Get(w, k)) == WireFields(lib, o[k].fields))
            && (k in o && !o[k].Obj? ==> FieldsOf(Get(w, k)) == map[])
  {
  }

  lemma PruneAt(lib: Library, o: Fields, k: string)
    ensures var p := PruneValues(lib, o, false);
            && (k in p <==> k in o)
            && (Get(p, k) == Some(Null) <==> k in o && (o[k].Null? || o[k].Bytes?))
            && (k in o ==> (p[k].Obj? <==> o[k].Obj?))
            && (k in o && o[k].Obj? ==> p[k].fields == PruneValues(lib, o[k].fields, false))
  {
  }

  lemma {:induction false} PruneKeepsDeletionsAt(lib: Library, o: Fields, m: Fields, k: string)
    ensures Get(Deletions(WireFields(lib, PruneValues(lib, o, false)), m), k) ==
              Get(Deletions(WireFields(lib, o), m), k)
            <==> !(k in o && NullMeetsBytesAt(o, m, k))
    decreases Obj(o), 0
  {
    var p := PruneValues(lib, o, false);
    WireAt(lib, o, k);
    PruneAt(lib, o, k);
    WireAt(lib, p, k);
    DeletionsGet(WireFields(lib, p), m, k);
    DeletionsGet(WireFields(lib, o), m, k);
    if k in o && o[k].Obj? && k in m && m[k].Obj? {
      PruneKeepsDeletions(lib, o[k].fields, m[k].fields);
    }
  }
}
