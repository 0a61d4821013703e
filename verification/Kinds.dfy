/** Kinds, keys and the order `sort.Slice` puts them in. */
module Kinds {

  datatype GVK = GVK(group: string, version: string, kind: string) {
    function GroupKind(): GroupKind {
      GK(group, kind)
    }

    function Text(): string {
      group + "/" + version + ", Kind=" + kind
    }
  }

  datatype GroupKind = GK(group: string, kind: string)

  function ApiVersion(gvk: GVK): string {
    if gvk.group == "" then gvk.version else gvk.group + "/" + gvk.version
  }

  datatype ObjectKey = ObjectKey(namespace: string, name: string) {
    function Text(): string {
      if namespace == "" then name else namespace + "/" + name
    }
  }

  // ---------------------------------------------------------------- byte order on strings

  predicate Below(a: string, b: string) {
    b != [] && (a == [] || a[0] < b[0] || (a[0] == b[0] && Below(a[1..], b[1..])))
  }

  lemma {:induction false} BelowIsTransitive(a: string, b: string, c: string)
    requires Below(a, b) && Below(b, c)
    ensures Below(a, c)
  {
    if a != [] && a[0] == b[0] && b[0] == c[0] {
      BelowIsTransitive(a[1..], b[1..], c[1..]);
    }
  }

  /** Exactly one of: a before b, b before a, a the same as b. */
  lemma {:induction false} BelowIsTotal(a: string, b: string)
    ensures Below(a, b) || Below(b, a) || a == b
    ensures !(Below(a, b) && Below(b, a)) && (a == b ==> !Below(a, b))
  {
    if a != [] && b != [] && a[0] == b[0] {
      BelowIsTotal(a[1..], b[1..]);
      assert a == [a[0]] + a[1..] && b == [b[0]] + b[1..];
    }
  }

  // ---------------------------------------------------------------- sorting

  predicate Ordered<T>(items: seq<T>, text: T -> string) {
    forall i, j | 0 <= i < j < |items| :: !Below(text(items[j]), text(items[i]))
  }

  /** `sort.Slice` with a comparison of texts. */
  method SortByText<T(==)>(items: seq<T>, text: T -> string) returns (sorted: seq<T>)
    ensures multiset(sorted) == multiset(items)
    ensures Ordered(sorted, text)
  {
    sorted := [];
    for i := 0 to |items|
      invariant multiset(sorted) == multiset(items[..i])
      invariant Ordered(sorted, text)
    {
      assert items[..i + 1] == items[..i] + [items[i]];
      sorted := Insert(sorted, items[i], text);
    }
    assert items[..|items|] == items;
  }

  method Insert<T(==)>(items: seq<T>, x: T, text: T -> string) returns (r: seq<T>)
    requires Ordered(items, text)
    ensures multiset(r) == multiset(items + [x])
    ensures Ordered(r, text)
  {
    var j := |items|;
    while j > 0 && Below(text(x), text(items[j - 1]))
      invariant 0 <= j <= |items|
      invariant forall k | j <= k < |items| :: Below(text(x), text(items[k]))
    {
      j := j - 1;
    }
    r := items[..j] + [x] + items[j..];
    assert items == items[..j] + items[j..];
    InsertedIsOrdered(items, x, text, j);
  }

  lemma InsertedIsOrdered<T>(items: seq<T>, x: T, text: T -> string, j: nat)
    requires Ordered(items, text) && j <= |items|
    requires j > 0 ==> !Below(text(x), text(items[j - 1]))
    requires forall k | j <= k < |items| :: Below(text(x), text(items[k]))
    ensures Ordered(items[..j] + [x] + items[j..], text)
  {
    var r := items[..j] + [x] + items[j..];
    forall a, b | 0 <= a < b < |r| ensures !Below(text(r[b]), text(r[a])) {
      if a == j {
        BelowIsTotal(text(x), text(items[b - 1]));
      } else if b == j && a < j - 1 && Below(text(x), text(items[a])) {
        BelowOrNot(text(x), text(items[a]), text(items[j - 1]));
      }
    }
  }

  lemma BelowOrNot(a: string, b: string, c: string)
    requires Below(a, b) && !Below(c, b)
    ensures Below(a, c)
  {
    BelowIsTotal(b, c);
    if Below(b, c) {
      BelowIsTransitive(a, b, c);
    }
  }
}
