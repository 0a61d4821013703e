/** Matchers of watched objects: `String`, `Equals` and `Match` (pkg/router/matcher.go:11-86). */
module Matcher {
  import opened Base

  type Texts = map<string, string>

  /** What a matcher looks at in an object; `fields` is None when the object has no named fields. */
  datatype Seen = Seen(labels: Texts, fields: Option<Texts>)

  /** Selectors are known by their text; these say what a text selects. */
  datatype Selecting = Selecting(labels: (string, Texts) -> bool, fields: (string, Texts) -> bool)

  const LABEL_MARK := "/label selectors"
  const FIELD_MARK := "/field selectors"

  datatype ObjectMatcher = ObjectMatcher(namespace: string, name: string, selector: Option<string>,
      fields: Option<string>) {
    function Text(): string {
      name + "/" + namespace + Part(LABEL_MARK, selector) + Part(FIELD_MARK, fields)
    }

    predicate Equals(other: ObjectMatcher) {
      name == other.name && namespace == other.namespace && selector == other.selector && fields == other.fields
    }

    predicate Match(how: Selecting, ns: string, objName: string, obj: Option<Seen>) {
      if name != "" then name == objName && namespace == ns
      else if namespace != "" && namespace != ns then false
      else if selector.Some? || fields.Some? then
        obj.Some? &&
        (selector.Some? ==> how.labels(selector.value, obj.value.labels)) &&
        (fields.Some? && obj.value.fields.Some? ==> how.fields(fields.value, obj.value.fields.value))
      else true
    }

    /** Names without '/', and a label selector that does not contain the mark of a field selector. */
    predicate Plain() {
      '/' !in name && '/' !in namespace && (selector.Some? ==> !Contains(selector.value, FIELD_MARK))
    }
  }

  /** What a matcher asks for, field by field: a name with its namespace, exactly; or else a namespace, where it gives
      one, and an object that its selectors select. */
  predicate Asked(how: Selecting, mr: ObjectMatcher, ns: string, name: string, obj: Option<Seen>) {
    if mr.name != "" then (ns, name) == (mr.namespace, mr.name)
    else
      && mr.namespace in {"", ns}
      && (mr.selector != None ==> obj != None && how.labels(mr.selector.value, obj.value.labels))
      && (mr.fields != None ==>
           obj != None && (obj.value.fields != None ==> how.fields(mr.fields.value, obj.value.fields.value)))
  }

  lemma MatchIff(how: Selecting, mr: ObjectMatcher, ns: string, name: string, obj: Option<Seen>)
    ensures mr.Match(how, ns, name, obj) <==> Asked(how, mr, ns, name, obj)
  {
  }

  function Part(mark: string, text: Option<string>): string {
    if text == None then "" else mark + text.value
  }

  predicate Contains(s: string, part: string) {
    exists i :: 0 <= i <= |s| && part <= s[i..]
  }

  /** What follows a name: nothing, or something that starts with '/'. */
  predicate Tail(x: string) {
    x == "" || x[0] == '/'
  }

  lemma NameEnds(a: string, x: string, b: string, y: string)
    requires '/' !in b && Tail(x) && |a| < |b|
    ensures a + x != b + y
  {
    if x != "" {
      assert (a + x)[|a|] == '/';
      assert (b + y)[|a|] == b[|a|];
      assert b[|a|] in b;
    }
  }

  /** Up to the first '/', a string splits in one way. */
  lemma SplitAtSlash(a: string, x: string, b: string, y: string)
    requires '/' !in a && '/' !in b && Tail(x) && Tail(y)
    requires a + x == b + y
    ensures a == b && x == y
  {
    if |a| < |b| {
      NameEnds(a, x, b, y);
    } else if |b| < |a| {
      NameEnds(b, y, a, x);
    } else {
      SameLength(a, x, b, y);
    }
  }

  lemma SameLength(a: string, x: string, b: string, y: string)
    requires |a| == |b| && a + x == b + y
    ensures a == b && x == y
  {
    assert a == (a + x)[..|a|] && b == (b + y)[..|b|];
    assert x == (a + x)[|a|..] && y == (b + y)[|b|..];
  }

  lemma SelectorEnds(s: string, f: Option<string>, t: string, g: Option<string>)
    requires |s| < |t| && !Contains(t, FIELD_MARK)
    ensures s + Part(FIELD_MARK, f) != t + Part(FIELD_MARK, g)
  {
    var a, b, n := s + Part(FIELD_MARK, f), t + Part(FIELD_MARK, g), |FIELD_MARK|;
    if f.Some? && |s| + n <= |t| {
      assert a[|s|..|s| + n] == FIELD_MARK;
      assert b[|s|..|s| + n] == t[|s|..|s| + n];
      assert !(FIELD_MARK <= t[|s|..]);
    } else if f.Some? && g.Some? {
      assert b[|t|] == '/';
      assert a[|t|] == FIELD_MARK[|t| - |s|];
      assert '/' !in FIELD_MARK[1..];
      assert FIELD_MARK[|t| - |s|] in FIELD_MARK[1..];
    }
  }

  /** Without the mark inside, a label selector ends where the field selector begins. */
  lemma SplitAtMark(s: string, f: Option<string>, t: string, g: Option<string>)
    requires !Contains(s, FIELD_MARK) && !Contains(t, FIELD_MARK)
    requires s + Part(FIELD_MARK, f) == t + Part(FIELD_MARK, g)
    ensures s == t && f == g
  {
    if |s| < |t| {
      SelectorEnds(s, f, t, g);
    } else if |t| < |s| {
      SelectorEnds(t, g, s, f);
    } else {
      SameLength(s, Part(FIELD_MARK, f), t, Part(FIELD_MARK, g));
      PartTellsApart(FIELD_MARK, f, g);
    }
  }

  lemma PartTellsApart(mark: string, f: Option<string>, g: Option<string>)
    requires mark != "" && Part(mark, f) == Part(mark, g)
    ensures f == g
  {
    if f.Some? && g.Some? {
      SameLength(mark, f.value, mark, g.value);
    }
  }

  function Selectors(s: Option<string>, f: Option<string>): string {
    Part(LABEL_MARK, s) + Part(FIELD_MARK, f)
  }

  lemma SelectorsTellApart(s: Option<string>, f: Option<string>, t: Option<string>, g: Option<string>)
    requires (s.Some? ==> !Contains(s.value, FIELD_MARK)) && (t.Some? ==> !Contains(t.value, FIELD_MARK))
    requires Selectors(s, f) == Selectors(t, g)
    ensures s == t && f == g
  {
    var p, q := Selectors(s, f), Selectors(t, g);
    assert (s.Some? ==> |p| > 1 && p[1] == 'l') && (t.Some? ==> |q| > 1 && q[1] == 'l');
    assert (s == None && f.Some? ==> p[1] == 'f') && (t == None && g.Some? ==> q[1] == 'f');
    if s.Some? && t.Some? {
      assert p == LABEL_MARK + (s.value + Part(FIELD_MARK, f));
      assert q == LABEL_MARK + (t.value + Part(FIELD_MARK, g));
      SameLength(LABEL_MARK, s.value + Part(FIELD_MARK, f), LABEL_MARK, t.value + Part(FIELD_MARK, g));
      SplitAtMark(s.value, f, t.value, g);
    } else if s == None && t == None {
      assert p == Part(FIELD_MARK, f) && q == Part(FIELD_MARK, g);
      PartTellsApart(FIELD_MARK, f, g);
    }
  }

  lemma NamesTellApart(a: string, n: string, p: string, b: string, m: string, q: string)
    requires '/' !in a && '/' !in b && '/' !in n && '/' !in m && Tail(p) && Tail(q)
    requires a + ("/" + (n + p)) == b + ("/" + (m + q))
    ensures a == b && n == m && p == q
  {
    SplitAtSlash(a, "/" + (n + p), b, "/" + (m + q));
    SameLength("/", n + p, "/", m + q);
    SplitAtSlash(n, p, m, q);
  }

  lemma TextByParts(a: ObjectMatcher)
    ensures a.Text() == a.name + ("/" + (a.namespace + Selectors(a.selector, a.fields)))
    ensures Tail(Selectors(a.selector, a.fields))
  {
  }

  /** The text under which a matcher is registered tells matchers apart exactly as Equals does. */
  lemma TextTellsApart(a: ObjectMatcher, b: ObjectMatcher)
    requires a.Plain() && b.Plain()
    ensures a.Text() == b.Text() <==> a.Equals(b)
    ensures a.Equals(b) <==> a == b
  {
    TextByParts(a);
    TextByParts(b);
    if a.Text() == b.Text() {
      NamesTellApart(a.name, a.namespace, Selectors(a.selector, a.fields), b.name, b.namespace,
          Selectors(b.selector, b.fields));
      SelectorsTellApart(a.selector, a.fields, b.selector, b.fields);
    }
  }

  /** With a '/' in a name two different matchers do share a text, and the second is never registered. */
  lemma SlashesConfuse()
    ensures var a := ObjectMatcher("", "a/b", None, None); var b := ObjectMatcher("b/", "a", None, None);
            !a.Equals(b) && a.Text() == b.Text()
  {
  }
}
