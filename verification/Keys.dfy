/** The keys of change events, triggers and replays (pkg/runtime/controller.go:333-336, 390-409,
    pkg/runtime/backend.go:99-107, pkg/router/handler.go:27-30, 255-287). */
module Keys {
  import opened Base
  import opened Kinds

  const TRIGGER_PREFIX := "_t "
  const REPLAY_PREFIX := "_r "

  datatype Flavour = Change | Trigger | Replay

  /** What a key is decoded to. */
  datatype Decoded = Decoded(flavour: Flavour, namespace: string, name: string)

  /** `strings.Cut` at a single character. */
  function Cut(s: string, sep: char): (r: (string, string, bool))
    ensures r.2 <==> sep in s
    ensures sep !in r.0 && s == r.0 + (if r.2 then [sep] + r.1 else "") && (!r.2 ==> r.1 == "")
  {
    if s == "" then ("", "", false)
    else if s[0] == sep then ("", s[1..], true)
    else
      var (before, after, found) := Cut(s[1..], sep);
      ([s[0]] + before, after, found)
  }

  function KeyFunc(namespace: string, name: string): string {
    ObjectKey(namespace, name).Text()
  }

  /** The key as it is put into a work queue. A replay goes through the backend's Trigger, which adds its own prefix. */
  function Encoded(flavour: Flavour, namespace: string, name: string): string {
    match flavour
    case Change => KeyFunc(namespace, name)
    case Trigger => TRIGGER_PREFIX + KeyFunc(namespace, name)
    case Replay => TRIGGER_PREFIX + (REPLAY_PREFIX + KeyFunc(namespace, name))
  }

  predicate IsSpecialKey(key: string) {
    |key| > 2 && key[0] == '_' && key[2] == ' '
  }

  function SplitKey(key: string): (string, string) {
    var (namespace, name, ok) := Cut(key, '/');
    if ok then (namespace, name) else ("", namespace)
  }

  function KeyParse(key: string): (string, string) {
    var (special, rest, ok) := Cut(key, ' ');
    SplitKey(if ok then rest else special)
  }

  function Strip(key: string, prefix: string): string {
    if HasPrefix(key, prefix) then key[|prefix|..] else key
  }

  /** How onChange reads a key. */
  function OnChangeKey(key: string): Decoded {
    var fromTrigger := HasPrefix(key, TRIGGER_PREFIX);
    var rest := Strip(key, TRIGGER_PREFIX);
    var fromReplay := HasPrefix(rest, REPLAY_PREFIX);
    var (namespace, name) := SplitKey(Strip(rest, REPLAY_PREFIX));
    Decoded(if fromReplay then Replay else if fromTrigger then Trigger else Change, namespace, name)
  }

  predicate Plain(s: string) {
    '/' !in s && ' ' !in s
  }

  lemma FirstOne(a: string, x: string, b: string, y: string, sep: char)
    requires sep !in b && |a| < |b|
    ensures a + ([sep] + x) != b + ([sep] + y)
  {
    assert (a + ([sep] + x))[|a|] == sep;
    assert (b + ([sep] + y))[|a|] == b[|a|];
    assert b[|a|] in b;
  }

  lemma FirstIsUnique(a: string, x: string, b: string, y: string, sep: char)
    requires sep !in a && sep !in b && a + ([sep] + x) == b + ([sep] + y)
    ensures a == b && x == y
  {
    if |a| < |b| {
      FirstOne(a, x, b, y, sep);
    } else if |b| < |a| {
      FirstOne(b, y, a, x, sep);
    } else {
      var s := a + ([sep] + x);
      assert a == s[..|a|] && x == s[|a| + 1..];
      assert b == s[..|a|] && y == s[|a| + 1..];
    }
  }

  lemma CutOnce(a: string, sep: char, b: string)
    requires sep !in a
    ensures Cut(a + ([sep] + b), sep) == (a, b, true)
    ensures Cut(a, sep) == (a, "", false)
  {
    var s := a + ([sep] + b);
    assert s[|a|] == sep;
    var r := Cut(s, sep);
    FirstIsUnique(a, b, r.0, r.1, sep);
  }

  /** A key made from a plain namespace and name has no space, and splits back into both. */
  lemma KeyFuncSplits(namespace: string, name: string)
    requires Plain(namespace) && Plain(name)
    ensures ' ' !in KeyFunc(namespace, name)
    ensures SplitKey(KeyFunc(namespace, name)) == (namespace, name)
  {
    if namespace == "" {
      CutOnce(name, '/', "");
    } else {
      assert KeyFunc(namespace, name) == namespace + (['/'] + name);
      CutOnce(namespace, '/', name);
    }
  }

  lemma NoSpaceNoPrefix(key: string)
    requires ' ' !in key
    ensures !IsSpecialKey(key) && !HasPrefix(key, TRIGGER_PREFIX) && !HasPrefix(key, REPLAY_PREFIX)
  {
    assert TRIGGER_PREFIX[2] == REPLAY_PREFIX[2] == ' ';
    InPrefix(key, TRIGGER_PREFIX, ' ');
    InPrefix(key, REPLAY_PREFIX, ' ');
  }

  lemma InPrefix(key: string, prefix: string, c: char)
    requires c in prefix
    ensures HasPrefix(key, prefix) ==> c in key
  {
    var i :| 0 <= i < |prefix| && prefix[i] == c;
    if HasPrefix(key, prefix) {
      assert key[i] == c;
    }
  }

  lemma StripPrefix(prefix: string, key: string)
    ensures HasPrefix(prefix + key, prefix) && Strip(prefix + key, prefix) == key
  {
  }

  /** onChange undoes the encoding of every flavour, so only change events are delayed; and the controller treats a key
      as special exactly when it is not a change. */
  lemma EncodingIsUndone(flavour: Flavour, namespace: string, name: string)
    requires Plain(namespace) && Plain(name)
    ensures OnChangeKey(Encoded(flavour, namespace, name)) == Decoded(flavour, namespace, name)
    ensures IsSpecialKey(Encoded(flavour, namespace, name)) <==> flavour != Change
  {
    var key := KeyFunc(namespace, name);
    KeyFuncSplits(namespace, name);
    NoSpaceNoPrefix(key);
    StripPrefix(TRIGGER_PREFIX, key);
    StripPrefix(TRIGGER_PREFIX, REPLAY_PREFIX + key);
    StripPrefix(REPLAY_PREFIX, key);
  }

  /** KeyParse drops one prefix only: it is right for changes and triggers, and never for the replays that are
      queued. */
  lemma KeyParseIsRightIff(flavour: Flavour, namespace: string, name: string)
    requires Plain(namespace) && Plain(name)
    ensures KeyParse(Encoded(flavour, namespace, name)) == (namespace, name) <==> flavour != Replay
  {
    var key := KeyFunc(namespace, name);
    KeyFuncSplits(namespace, name);
    match flavour
    case Change => CutOnce(key, ' ', "");
    case Trigger => ParseDropsPrefix(key);
    case Replay =>
      ParseDropsPrefix(REPLAY_PREFIX + key);
      ReplayKeepsPrefix(namespace, name);
  }

  lemma ParseDropsPrefix(rest: string)
    ensures KeyParse(TRIGGER_PREFIX + rest) == SplitKey(rest)
  {
    var special := TRIGGER_PREFIX[..2];
    assert ' ' !in special;
    assert TRIGGER_PREFIX + rest == special + ([' '] + rest);
    CutOnce(special, ' ', rest);
  }

  lemma ReplayKeepsPrefix(namespace: string, name: string)
    requires Plain(namespace) && Plain(name)
    ensures SplitKey(REPLAY_PREFIX + KeyFunc(namespace, name)) ==
            if namespace == "" then ("", REPLAY_PREFIX + name) else (REPLAY_PREFIX + namespace, name)
    ensures SplitKey(REPLAY_PREFIX + KeyFunc(namespace, name)) != (namespace, name)
  {
    if namespace == "" {
      CutOnce(REPLAY_PREFIX + name, '/', "");
      assert |REPLAY_PREFIX + name| != |name|;
    } else {
      assert REPLAY_PREFIX + KeyFunc(namespace, name) == REPLAY_PREFIX + namespace + (['/'] + name);
      CutOnce(REPLAY_PREFIX + namespace, '/', name);
      assert |REPLAY_PREFIX + namespace| != |namespace|;
    }
  }

  /** Two keys are the same only for one flavour of one object. */
  lemma KeysAreDistinct(f: Flavour, ns: string, n: string, g: Flavour, ms: string, m: string)
    requires Plain(ns) && Plain(n) && Plain(ms) && Plain(m)
    requires Encoded(f, ns, n) == Encoded(g, ms, m)
    ensures f == g && ns == ms && n == m
  {
    EncodingIsUndone(f, ns, n);
    EncodingIsUndone(g, ms, m);
  }
}
