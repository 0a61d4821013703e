/** The index from watched kinds to the keys they enqueue, and one pass over a batch (pkg/router/trigger.go:20-63,
    134-215). */
module Triggers {
  import opened Base
  import opened Kinds
  import opened Matcher

  datatype Target = Target(key: string, gvk: GVK)

  datatype TriggerKey = TriggerKey(name: string, namespace: string, gvk: GVK) {
    function Text(): string {
      ObjectKey(namespace, name).Text()
    }

    /** The matcher of exactly this object. */
    function Exact(): ObjectMatcher {
      ObjectMatcher(namespace, name, None, None)
    }

    predicate Plain() {
      '/' !in namespace && '/' !in name
    }
  }

  /** A batch: the last object seen under each key, None for a deleted one. */
  type Pending = map<TriggerKey, Option<Seen>>

  type ByText = map<string, ObjectMatcher>
  type ByTarget = map<Target, ByText>
  type Registry = map<GVK, ByTarget>

  function Find(r: Registry, g: GVK, t: Target, text: string): Option<ObjectMatcher> {
    if g in r && t in r[g] then Get(r[g][t], text) else None
  }

  /** Every matcher is kept under its own text. */
  ghost predicate Kept(r: Registry) {
    forall g, t, text :: Find(r, g, t, text).Some? ==> Find(r, g, t, text).value.Text() == text
  }

  ghost predicate AllPlain(r: Registry) {
    forall g, t, text :: Find(r, g, t, text).Some? ==> Find(r, g, t, text).value.Plain()
  }

  // ---------------------------------------------------------------- what the operations compute

  function StoredText(m: ByText, text: string, mr: ObjectMatcher): ByText {
    if text in m then m else m[text := mr]
  }

  function StoredTarget(m: ByTarget, t: Target, mr: ObjectMatcher): ByTarget {
    m[t := StoredText(if t in m then m[t] else map[], mr.Text(), mr)]
  }

  function Registered(r: Registry, g: GVK, t: Target, mr: ObjectMatcher): Registry {
    r[g := StoredTarget(if g in r then r[g] else map[], t, mr)]
  }

  /** Some pending object of kind g satisfies the matcher. */
  predicate Hit(how: Selecting, pending: Pending, g: GVK, mr: ObjectMatcher) {
    exists p | p in pending :: p.gvk == g && mr.Match(how, p.namespace, p.name, pending[p])
  }

  function FiredTexts(how: Selecting, pending: Pending, g: GVK, m: ByText): set<string> {
    set text | text in m && Hit(how, pending, g, m[text])
  }

  function FiredOfKind(how: Selecting, pending: Pending, g: GVK, m: ByTarget): set<Target> {
    set t | t in m && FiredTexts(how, pending, g, m[t]) != {}
  }

  function FiredBut(how: Selecting, pending: Pending, r: Registry, rest: set<GVK>): set<Target> {
    set g, t | g in r && g !in rest && t in FiredOfKind(how, pending, g, r[g]) :: t
  }

  /** The targets with a registered matcher that some pending object satisfies. */
  function Fired(how: Selecting, pending: Pending, r: Registry): set<Target> {
    FiredBut(how, pending, r, {})
  }

  predicate Deleted(pending: Pending, key: TriggerKey) {
    key in pending && pending[key] == None
  }

  function DeletedKeys(pending: Pending): set<TriggerKey> {
    set key | key in pending && pending[key] == None
  }

  function Targets(keys: set<TriggerKey>): set<Target> {
    set key | key in keys :: Target(key.Text(), key.gvk)
  }

  function ExactTexts(keys: set<TriggerKey>, g: GVK): set<string> {
    set key | key in keys && key.gvk == g :: key.Exact().Text()
  }

  function GoneTargets(pending: Pending): set<Target> {
    Targets(DeletedKeys(pending))
  }

  function GoneTexts(pending: Pending, g: GVK): set<string> {
    ExactTexts(DeletedKeys(pending), g)
  }

  function CleanedKind(pending: Pending, g: GVK, m: ByTarget): ByTarget {
    map t | t in m && t !in GoneTargets(pending) :: m[t] - GoneTexts(pending, g)
  }

  function Cleaned(pending: Pending, r: Registry): Registry {
    map g | g in r :: CleanedKind(pending, g, r[g])
  }

  // ---------------------------------------------------------------- counting

  ghost function Total<K>(counts: map<K, nat>, keys: set<K>): nat
    requires keys <= counts.Keys
  {
    if keys == {} then 0
    else
      var k :| k in keys;
      counts[k] + Total(counts, keys - {k})
  }

  lemma {:induction false} TotalWithout<K>(counts: map<K, nat>, keys: set<K>, k: K)
    requires k in keys && keys <= counts.Keys
    ensures Total(counts, keys) == counts[k] + Total(counts, keys - {k})
  {
    var c :| c in keys && Total(counts, keys) == counts[c] + Total(counts, keys - {c});
    if c != k {
      TotalWithout(counts, keys - {c}, k);
      TotalWithout(counts, keys - {k}, c);
      assert keys - {c} - {k} == keys - {k} - {c};
    }
  }

  function TextCounts(m: ByTarget): map<Target, nat> {
    map t | t in m :: |m[t]|
  }

  ghost function KindCounts(r: Registry): map<GVK, nat> {
    map g | g in r :: Total(TextCounts(r[g]), r[g].Keys)
  }

  /** How many matchers are registered, all kinds and targets together. */
  ghost function Registrations(r: Registry): nat {
    Total(KindCounts(r), r.Keys)
  }

  function Elements<T>(s: seq<T>): set<T> {
    if s == [] then {} else Elements(s[..|s| - 1]) + {s[|s| - 1]}
  }

  function With<T>(s: set<T>, x: T, really: bool): set<T> {
    if really then s + {x} else s
  }

  lemma {:induction false} ElementsAre<T>(s: seq<T>, x: T)
    ensures x in Elements(s) <==> x in s
  {
    if s != [] {
      ElementsAre(s[..|s| - 1], x);
      assert s == s[..|s| - 1] + [s[|s| - 1]];
    }
  }

  lemma ElementsAppend<T>(s: seq<T>, x: T)
    ensures Elements(s + [x]) == Elements(s) + {x}
  {
    assert (s + [x])[..|s|] == s;
  }

  // ---------------------------------------------------------------- the code

  class TriggerIndex {
    var matchers: Registry
    var enqueued: seq<Target>
    const how: Selecting

    constructor (how: Selecting)
      ensures this.how == how && matchers == map[] && enqueued == []
    {
      this.how := how;
      matchers, enqueued := map[], [];
    }

    /** Three LoadOrStore calls, one for each level. */
    method Register(source: GVK, key: string, targetGVK: GVK, mr: ObjectMatcher)
      modifies this`matchers
      ensures matchers == Registered(old(matchers), targetGVK, Target(key, source), mr)
    {
      var text, target := mr.Text(), Target(key, source);
      if targetGVK !in matchers {
        matchers := matchers[targetGVK := map[]];
      }
      if target !in matchers[targetGVK] {
        matchers := matchers[targetGVK := matchers[targetGVK][target := map[]]];
      }
      if text !in matchers[targetGVK][target] {
        var texts := matchers[targetGVK][target][text := mr];
        matchers := matchers[targetGVK := matchers[targetGVK][target := texts]];
      }
      assert matchers[targetGVK] ==
               StoredTarget(if targetGVK in old(matchers) then old(matchers)[targetGVK] else map[], target, mr);
    }

    method Enqueue(target: Target)
      modifies this`enqueued
      ensures enqueued == old(enqueued) + [target]
      ensures Elements(enqueued) == Elements(old(enqueued)) + {target}
    {
      ElementsAppend(enqueued, target);
      enqueued := enqueued + [target];
    }

    /** One matcher: a named one is looked up, any other is held against every pending object. */
    method Check(pending: Pending, g: GVK, target: Target, mt: ObjectMatcher)
      modifies this`enqueued
      ensures old(enqueued) <= enqueued
      ensures Elements(enqueued) == With(Elements(old(enqueued)), target, Hit(how, pending, g, mt))
    {
      if mt.name == "" {
        var rest := pending.Keys;
        while rest != {}
          invariant rest <= pending.Keys
          invariant old(enqueued) <= enqueued
          invariant Elements(enqueued) == With(Elements(old(enqueued)), target,
            exists p | p in pending.Keys - rest :: p.gvk == g && mt.Match(how, p.namespace, p.name, pending[p]))
        {
          var key :| key in rest;
          if key.gvk == g && mt.Match(how, key.namespace, key.name, pending[key]) {
            Enqueue(target);
          }
          rest := rest - {key};
        }
      } else {
        LookupRefinesScan(how, pending, g, mt);
        if TriggerKey(mt.name, mt.namespace, g) in pending {
          Enqueue(target);
        }
      }
    }

    method CheckTarget(pending: Pending, g: GVK, target: Target, texts: ByText) returns (checks: nat)
      modifies this`enqueued
      ensures old(enqueued) <= enqueued
      ensures Elements(enqueued) == With(Elements(old(enqueued)), target, FiredTexts(how, pending, g, texts) != {})
      ensures checks == |texts|
    {
      checks := 0;
      var rest := texts.Keys;
      while rest != {}
        invariant rest <= texts.Keys
        invariant old(enqueued) <= enqueued
        invariant Elements(enqueued) ==
                    With(Elements(old(enqueued)), target, FiredTexts(how, pending, g, texts) - rest != {})
        invariant checks + |rest| == |texts.Keys|
      {
        var text :| text in rest;
        checks := checks + 1;
        Check(pending, g, target, texts[text]);
        OneMore(FiredTexts(how, pending, g, texts), rest, text);
        rest := rest - {text};
      }
      assert FiredTexts(how, pending, g, texts) - rest == FiredTexts(how, pending, g, texts);
    }

    method CheckKind(pending: Pending, g: GVK, m: ByTarget) returns (checks: nat)
      modifies this`enqueued
      ensures old(enqueued) <= enqueued
      ensures Elements(enqueued) == Elements(old(enqueued)) + FiredOfKind(how, pending, g, m)
      ensures checks == Total(TextCounts(m), m.Keys)
    {
      checks := CheckTargets(pending, g, m, FiredOfKind(how, pending, g, m), TextCounts(m));
    }

    method CheckTargets(pending: Pending, g: GVK, m: ByTarget, ghost fired: set<Target>, ghost counts: map<Target, nat>)
        returns (checks: nat)
      requires fired <= m.Keys && counts.Keys == m.Keys
      requires forall t | t in m :: t in fired <==> FiredTexts(how, pending, g, m[t]) != {}
      requires forall t | t in m :: counts[t] == |m[t]|
      modifies this`enqueued
      ensures old(enqueued) <= enqueued
      ensures Elements(enqueued) == Elements(old(enqueued)) + fired
      ensures checks == Total(counts, m.Keys)
    {
      checks := 0;
      var rest := m.Keys;
      while rest != {}
        invariant rest <= m.Keys
        invariant old(enqueued) <= enqueued
        invariant Elements(enqueued) == Elements(old(enqueued)) + (fired - rest)
        invariant checks + Total(counts, rest) == Total(counts, m.Keys)
      {
        var target :| target in rest;
        ghost var was := Elements(enqueued);
        var n := CheckTarget(pending, g, target, m[target]);
        checks := checks + n;
        Advance(Elements(old(enqueued)), was, Elements(enqueued), fired, rest, target);
        TotalWithout(counts, rest, target);
        rest := rest - {target};
      }
      assert fired - rest == fired;
    }

    /** The deletes that follow a kind's scan. */
    method CleanKind(pending: Pending, g: GVK)
      requires g in matchers
      modifies this`matchers
      ensures matchers == old(matchers)[g := CleanedKind(pending, g, old(matchers)[g])]
    {
      var m := matchers[g];
      var deleteKeys: seq<string> := [];
      var rest := pending.Keys;
      ghost var gone: set<TriggerKey> := {};
      while rest != {}
        invariant rest <= pending.Keys && matchers == old(matchers)
        invariant gone == DeletedKeys(pending) - rest
        invariant m == old(matchers)[g] - Targets(gone)
        invariant Elements(deleteKeys) == ExactTexts(gone, g)
      {
        var key :| key in rest;
        OneMore(DeletedKeys(pending), rest, key);
        rest := rest - {key};
        if pending[key] == None {
          GoneGrows(old(matchers)[g], gone, g, key);
          gone := gone + {key};
          m := m - {Target(key.Text(), key.gvk)};
          if key.gvk == g {
            ElementsAppend(deleteKeys, key.Exact().Text());
            deleteKeys := deleteKeys + [key.Exact().Text()];
          }
        }
      }
      assert gone == DeletedKeys(pending);
      if |deleteKeys| > 0 {
        m := DropTexts(m, deleteKeys);
      } else {
        forall t | t in m ensures m[t] - Elements(deleteKeys) == m[t] {
        }
        assert m == map t | t in m :: m[t] - Elements(deleteKeys);
      }
      Assembled(pending, g, matchers[g], m);
      matchers := matchers[g := m];
    }

    method ProcessKind(pending: Pending, g: GVK) returns (checks: nat)
      requires g in matchers
      modifies this
      ensures matchers == old(matchers)[g := CleanedKind(pending, g, old(matchers)[g])]
      ensures old(enqueued) <= enqueued
      ensures Elements(enqueued) == Elements(old(enqueued)) + FiredOfKind(how, pending, g, old(matchers)[g])
      ensures checks == Total(TextCounts(old(matchers)[g]), old(matchers)[g].Keys)
    {
      checks := CheckKind(pending, g, matchers[g]);
      CleanKind(pending, g);
    }

    /** One pass over a batch. Every map is walked in an arbitrary order. */
    method Process(pending: Pending) returns (checks: nat)
      modifies this
      ensures matchers == Cleaned(pending, old(matchers))
      ensures old(enqueued) <= enqueued
      ensures Elements(enqueued) == Elements(old(enqueued)) + Fired(how, pending, old(matchers))
      ensures checks == Registrations(old(matchers))
    {
      checks := 0;
      ghost var before, counts := matchers, KindCounts(matchers);
      var rest := matchers.Keys;
      while rest != {}
        invariant rest <= before.Keys
        invariant matchers == PartlyCleaned(pending, before, rest)
        invariant old(enqueued) <= enqueued
        invariant Elements(enqueued) == Elements(old(enqueued)) + FiredBut(how, pending, before, rest)
        invariant checks + Total(counts, rest) == Total(counts, before.Keys)
      {
        var g :| g in rest;
        ghost var was := Elements(enqueued);
        PartlyCleanedNext(pending, before, rest, g);
        var n := ProcessKind(pending, g);
        checks := checks + n;
        TotalWithout(counts, rest, g);
        FiredGrows(how, pending, before, rest, g, Elements(old(enqueued)), was, Elements(enqueued));
        rest := rest - {g};
      }
    }
  }

  method DropTexts(m: ByTarget, texts: seq<string>) returns (r: ByTarget)
    ensures r == map t | t in m :: m[t] - Elements(texts)
  {
    r := m;
    var rest := m.Keys;
    while rest != {}
      invariant rest <= m.Keys == r.Keys
      invariant forall t | t in m :: r[t] == if t in rest then m[t] else m[t] - Elements(texts)
    {
      var t :| t in rest;
      var byText := r[t];
      for i := 0 to |texts|
        invariant byText == m[t] - Elements(texts[..i])
      {
        byText := byText - {texts[i]};
        assert texts[..i + 1] == texts[..i] + [texts[i]];
      }
      assert texts[..|texts|] == texts;
      r := r[t := byText];
      rest := rest - {t};
    }
  }

  lemma OneMore<T>(all: set<T>, rest: set<T>, x: T)
    requires x in rest
    ensures all - (rest - {x}) == all - rest + (if x in all then {x} else {})
  {
  }

  lemma Advance<T>(base: set<T>, was: set<T>, now: set<T>, fired: set<T>, rest: set<T>, x: T)
    requires x in rest && was == base + (fired - rest)
    requires now == With(was, x, x in fired)
    ensures now == base + (fired - (rest - {x}))
  {
  }

  lemma GoneGrows(m: ByTarget, gone: set<TriggerKey>, g: GVK, key: TriggerKey)
    ensures m - Targets(gone + {key}) == m - Targets(gone) - {Target(key.Text(), key.gvk)}
    ensures ExactTexts(gone + {key}, g) == ExactTexts(gone, g) + (if key.gvk == g then {key.Exact().Text()} else {})
  {
    assert Targets(gone + {key}) == Targets(gone) + {Target(key.Text(), key.gvk)};
  }

  /** The registry with the kinds in `rest` still to be cleaned. */
  function PartlyCleaned(pending: Pending, r: Registry, rest: set<GVK>): Registry {
    map g | g in r :: if g in rest then r[g] else CleanedKind(pending, g, r[g])
  }

  lemma PartlyCleanedNext(pending: Pending, r: Registry, rest: set<GVK>, g: GVK)
    requires g in r && g in rest
    ensures PartlyCleaned(pending, r, rest)[g] == r[g]
    ensures PartlyCleaned(pending, r, rest - {g}) == PartlyCleaned(pending, r, rest)[g := CleanedKind(pending, g, r[g])]
  {
  }

  lemma Assembled(pending: Pending, g: GVK, m: ByTarget, r: ByTarget)
    requires r == map t | t in m - GoneTargets(pending) :: (m - GoneTargets(pending))[t] - GoneTexts(pending, g)
    ensures r == CleanedKind(pending, g, m)
  {
  }

  lemma FiredGrows(how: Selecting, pending: Pending, r: Registry, rest: set<GVK>, g: GVK, base: set<Target>,
                   was: set<Target>, now: set<Target>)
    requires g in r && g in rest
    requires was == base + FiredBut(how, pending, r, rest) && now == was + FiredOfKind(how, pending, g, r[g])
    ensures now == base + FiredBut(how, pending, r, rest - {g})
  {
    assert FiredBut(how, pending, r, rest - {g}) ==
             FiredBut(how, pending, r, rest) + FiredOfKind(how, pending, g, r[g]);
  }

  // ---------------------------------------------------------------- what it means

  /** For a matcher with a name, one lookup finds what a scan of all pending objects would. */
  lemma LookupRefinesScan(how: Selecting, pending: Pending, g: GVK, mt: ObjectMatcher)
    requires mt.name != ""
    ensures TriggerKey(mt.name, mt.namespace, g) in pending <==> Hit(how, pending, g, mt)
  {
    var key := TriggerKey(mt.name, mt.namespace, g);
    if key in pending {
      assert mt.Match(how, key.namespace, key.name, pending[key]);
    }
  }

  /** A target fires exactly when some matcher registered for it under some kind asks for some pending object of that
      kind. */
  lemma FiredIff(how: Selecting, pending: Pending, r: Registry, t: Target)
    ensures t in Fired(how, pending, r) <==>
            exists g, text, p :: Find(r, g, t, text).Some? && p in pending && p.gvk == g &&
                                 Asked(how, Find(r, g, t, text).value, p.namespace, p.name, pending[p])
  {
    if t in Fired(how, pending, r) {
      var g: GVK :| g in r && t in FiredOfKind(how, pending, g, r[g]);
      var text :| text in FiredTexts(how, pending, g, r[g][t]);
      var p :| p in pending && p.gvk == g && r[g][t][text].Match(how, p.namespace, p.name, pending[p]);
      assert Find(r, g, t, text).value == r[g][t][text];
      MatchIff(how, r[g][t][text], p.namespace, p.name, pending[p]);
    }
    if g, text, p :| Find(r, g, t, text).Some? && p in pending && p.gvk == g &&
                     Asked(how, Find(r, g, t, text).value, p.namespace, p.name, pending[p]) {
      MatchIff(how, r[g][t][text], p.namespace, p.name, pending[p]);
      assert Hit(how, pending, g, r[g][t][text]);
      assert text in FiredTexts(how, pending, g, r[g][t]);
      assert t in FiredOfKind(how, pending, g, r[g]);
    }
  }

  /** What one matcher contributes. */
  lemma HitIff(how: Selecting, pending: Pending, g: GVK, mr: ObjectMatcher)
    ensures Hit(how, pending, g, mr) <==>
              exists p | p in pending :: p.gvk == g && Asked(how, mr, p.namespace, p.name, pending[p])
  {
    forall p | p in pending
      ensures mr.Match(how, p.namespace, p.name, pending[p]) <==> Asked(how, mr, p.namespace, p.name, pending[p])
    {
      MatchIff(how, mr, p.namespace, p.name, pending[p]);
    }
  }

  /** LoadOrStore at three levels: the first matcher under a text stays, and nothing else moves. */
  lemma RegisteredAt(r: Registry, g: GVK, t: Target, mr: ObjectMatcher, h: GVK, u: Target, text: string)
    ensures Find(Registered(r, g, t, mr), h, u, text) ==
            if h == g && u == t && text == mr.Text() && Find(r, g, t, text) == None then Some(mr)
                else Find(r, h, u, text)
  {
  }

  lemma RegisteredKeeps(r: Registry, g: GVK, t: Target, mr: ObjectMatcher)
    requires Kept(r)
    ensures Kept(Registered(r, g, t, mr))
    ensures AllPlain(r) && mr.Plain() ==> AllPlain(Registered(r, g, t, mr))
  {
    var s := Registered(r, g, t, mr);
    forall h, u, text | Find(s, h, u, text).Some?
      ensures Find(s, h, u, text).value.Text() == text
      ensures AllPlain(r) && mr.Plain() ==> Find(s, h, u, text).value.Plain()
    {
      RegisteredAt(r, g, t, mr, h, u, text);
    }
  }

  /** Once a matcher is registered, every object it matches fires its target. */
  lemma RegisteredFires(how: Selecting, r: Registry, g: GVK, t: Target, mr: ObjectMatcher, pending: Pending)
    requires Kept(r) && AllPlain(r) && mr.Plain()
    requires Hit(how, pending, g, mr)
    ensures t in Fired(how, pending, Registered(r, g, t, mr))
  {
    var s, text := Registered(r, g, t, mr), mr.Text();
    RegisteredAt(r, g, t, mr, g, t, text);
    if Find(r, g, t, text).Some? {
      TextTellsApart(Find(r, g, t, text).value, mr);
    }
    assert Find(s, g, t, text) == Some(mr);
    FiredIff(how, pending, s, t);
  }

  lemma CleanedAt(pending: Pending, r: Registry, g: GVK, t: Target, text: string)
    ensures Find(Cleaned(pending, r), g, t, text) ==
            if t in GoneTargets(pending) || text in GoneTexts(pending, g) then None else Find(r, g, t, text)
  {
  }

  lemma CleanedKeeps(pending: Pending, r: Registry)
    requires Kept(r)
    ensures Kept(Cleaned(pending, r))
    ensures AllPlain(r) ==> AllPlain(Cleaned(pending, r))
  {
    var s := Cleaned(pending, r);
    forall h, u, text | Find(s, h, u, text).Some?
      ensures Find(s, h, u, text).value.Text() == text
      ensures AllPlain(r) ==> Find(s, h, u, text).value.Plain()
    {
      CleanedAt(pending, r, h, u, text);
    }
  }

  lemma SlashInText(a: TriggerKey)
    requires a.Plain()
    ensures '/' in a.Text() <==> a.namespace != ""
    ensures a.namespace != "" ==> a.Text() == a.namespace + ("/" + a.name)
  {
    if a.namespace != "" {
      assert a.Text()[|a.namespace|] == '/';
    }
  }

  /** Texts of plain keys tell the keys apart. */
  lemma KeyTextTellsApart(a: TriggerKey, b: TriggerKey)
    requires a.Plain() && b.Plain()
    ensures a.Text() == b.Text() && a.gvk == b.gvk <==> a == b
  {
    SlashInText(a);
    SlashInText(b);
    if a.Text() == b.Text() && a.namespace != "" {
      SplitAtSlash(a.namespace, "/" + a.name, b.namespace, "/" + b.name);
      SameLength("/", a.name, "/", b.name);
    }
  }

  /** The clean-up and its frame: a registration goes when the object it enqueues was deleted, or when it is the exact,
      selector-free matcher of a deleted object. Every other registration stays as it was. */
  lemma CleanedExactly(pending: Pending, r: Registry, g: GVK, source: TriggerKey, mr: ObjectMatcher)
    requires Kept(r) && AllPlain(r) && source.Plain() && mr.Plain()
    requires forall p | p in pending :: p.Plain()
    ensures var t := Target(source.Text(), source.gvk);
            Find(Cleaned(pending, r), g, t, mr.Text()) ==
            if Deleted(pending, source) ||
                (mr.selector == mr.fields == None && Deleted(pending, TriggerKey(mr.name, mr.namespace, g)))
            then None
            else Find(r, g, t, mr.Text())
  {
    var t := Target(source.Text(), source.gvk);
    CleanedAt(pending, r, g, t, mr.Text());
    if t in GoneTargets(pending) {
      var p :| p in pending && pending[p] == None && Target(p.Text(), p.gvk) == t;
      KeyTextTellsApart(p, source);
    }
    if mr.Text() in GoneTexts(pending, g) {
      var p :| p in pending && pending[p] == None && p.gvk == g && p.Exact().Text() == mr.Text();
      TextTellsApart(p.Exact(), mr);
      assert p == TriggerKey(mr.name, mr.namespace, g);
    }
    var q := TriggerKey(mr.name, mr.namespace, g);
    if Deleted(pending, q) && mr.selector == mr.fields == None {
      assert q.Exact() == mr;
    }
  }

  /** What happens to a registry: a registration, or a pass over a batch. */
  datatype Op = Registers(gvk: GVK, target: Target, matcher: ObjectMatcher) | Passes(pending: Pending)

  function Done(r: Registry, op: Op): Registry {
    match op
    case Registers(g, t, mr) => Registered(r, g, t, mr)
    case Passes(pending) => Cleaned(pending, r)
  }

  function AllDone(r: Registry, ops: seq<Op>): Registry {
    if ops == [] then r else Done(AllDone(r, ops[..|ops| - 1]), ops[|ops| - 1])
  }

  /** No matcher is registered for the target. */
  ghost predicate Absent(r: Registry, t: Target) {
    forall g, text :: Find(r, g, t, text) == None
  }

  lemma AbsentIsQuiet(how: Selecting, pending: Pending, r: Registry, t: Target)
    requires Absent(r, t)
    ensures t !in Fired(how, pending, r)
  {
    FiredIff(how, pending, r, t);
  }

  lemma StaysAbsent(r: Registry, op: Op, t: Target)
    requires Absent(r, t) && (op.Registers? ==> op.target != t)
    ensures Absent(Done(r, op), t)
  {
    forall g, text ensures Find(Done(r, op), g, t, text) == None {
      assert Find(r, g, t, text) == None;
      match op
      case Registers(h, u, mr) => RegisteredAt(r, h, u, mr, g, t, text);
      case Passes(pending) => CleanedAt(pending, r, g, t, text);
    }
  }

  lemma {:induction false} StaysAbsentLater(r: Registry, ops: seq<Op>, t: Target)
    requires Absent(r, t) && forall i | 0 <= i < |ops| && ops[i].Registers? :: ops[i].target != t
    ensures Absent(AllDone(r, ops), t)
    decreases |ops|
  {
    if ops != [] {
      StaysAbsentLater(r, ops[..|ops| - 1], t);
      StaysAbsent(AllDone(r, ops[..|ops| - 1]), ops[|ops| - 1], t);
    }
  }

  /** After the pass that deletes it, an object is enqueued by no later pass, whatever passes and registrations come in
      between, until it registers anew. */
  lemma DeletedStaysQuiet(how: Selecting, pending: Pending, r: Registry, source: TriggerKey, ops: seq<Op>,
                          later: Pending)
    requires Deleted(pending, source)
    requires forall i | 0 <= i < |ops| && ops[i].Registers? :: ops[i].target != Target(source.Text(), source.gvk)
    ensures Target(source.Text(), source.gvk) !in Fired(how, later, AllDone(Cleaned(pending, r), ops))
  {
    var t := Target(source.Text(), source.gvk);
    forall g, text ensures Find(Cleaned(pending, r), g, t, text) == None {
      CleanedAt(pending, r, g, t, text);
    }
    StaysAbsentLater(Cleaned(pending, r), ops, t);
    AbsentIsQuiet(how, later, AllDone(Cleaned(pending, r), ops), t);
  }
}
