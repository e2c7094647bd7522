/** Field-level differences between two configurations, and what they mean for a running service. */
module ConfigDiff {
  import opened Ordering
  import opened Config

  type Path = seq<string>

  /** A field that differs; None stands for an absent one. */
  datatype FieldDiff = FieldDiff(path: Path, was: Option<Json>, now: Option<Json>)

  // ---------------------------------------------------------------------
  // What a difference means
  // ---------------------------------------------------------------------

  function Get(v: Json, path: Path): Option<Json>
    decreases |path|
  {
    if path == [] then Some(v)
    else if v.Object? && path[0] in v.fields then Get(v.fields[path[0]], path[1..])
    else None
  }

  /** Make the change: set the field, or take it away. */
  function Patch(v: Json, path: Path, now: Option<Json>): Json
    decreases |path|
  {
    if path == [] then if now.Some? then now.value else v
    else if !v.Object? then v
    else
      var k := path[0];
      if |path| == 1 then Object(if now.Some? then v.fields[k := now.value] else v.fields - {k})
      else if k in v.fields then Object(v.fields[k := Patch(v.fields[k], path[1..], now)])
      else v
  }

  function PatchAll(v: Json, diffs: seq<FieldDiff>): Json
    decreases |diffs|
  {
    if diffs == [] then v else PatchAll(Patch(v, diffs[0].path, diffs[0].now), diffs[1..])
  }

  /** The difference reports the two values of its field, and they do differ. */
  ghost predicate Accurate(d: FieldDiff, was: Json, now: Json) {
    Get(was, d.path) == d.was && Get(now, d.path) == d.now && d.was != d.now
  }

  /** Making the changes turns `was` into `now`, and each of them is a real one. */
  ghost predicate Describes(diffs: seq<FieldDiff>, was: Json, now: Json) {
    PatchAll(was, diffs) == now && forall d :: d in diffs ==> Accurate(d, was, now)
  }

  /** So there are none exactly when there is nothing to change. */
  lemma EmptyIffEqual(diffs: seq<FieldDiff>, was: Json, now: Json)
    requires Describes(diffs, was, now)
    ensures diffs == [] <==> was == now
  {
    if diffs != [] {
      assert Accurate(diffs[0], was, now);
    }
  }

  // ---------------------------------------------------------------------
  // Differences inside a field
  // ---------------------------------------------------------------------

  function Under(prefix: Path, diffs: seq<FieldDiff>): (r: seq<FieldDiff>)
    ensures |r| == |diffs| && forall i :: 0 <= i < |r| ==> r[i] == diffs[i].(path := prefix + diffs[i].path)
  {
    seq(|diffs|, i requires 0 <= i < |diffs| => diffs[i].(path := prefix + diffs[i].path))
  }

  lemma UnderUnder(prefix: Path, k: string, diffs: seq<FieldDiff>)
    ensures Under(prefix, Under([k], diffs)) == Under(prefix + [k], diffs)
  {
    forall i | 0 <= i < |diffs| ensures prefix + ([k] + diffs[i].path) == (prefix + [k]) + diffs[i].path {}
  }

  lemma {:induction false} PatchAppend(v: Json, a: seq<FieldDiff>, b: seq<FieldDiff>)
    ensures PatchAll(v, a + b) == PatchAll(PatchAll(v, a), b)
    decreases |a|
  {
    if a == [] {
      assert a + b == b;
    } else {
      assert (a + b)[1..] == a[1..] + b;
      PatchAppend(Patch(v, a[0].path, a[0].now), a[1..], b);
    }
  }

  /** Changes inside a field change that field and no other. */
  lemma {:induction false} PatchUnder(fields: map<string, Json>, k: string, diffs: seq<FieldDiff>)
    requires k in fields && forall d :: d in diffs && d.path == [] ==> d.now.Some?
    ensures PatchAll(Object(fields), Under([k], diffs)) == Object(fields[k := PatchAll(fields[k], diffs)])
    decreases |diffs|
  {
    if diffs == [] {
      assert fields[k := fields[k]] == fields;
    } else {
      var d, u := diffs[0], Under([k], diffs);
      assert d in diffs && u[1..] == Under([k], diffs[1..]);
      assert ([k] + d.path)[1..] == d.path;
      var next := fields[k := Patch(fields[k], d.path, d.now)];
      assert Patch(Object(fields), [k] + d.path, d.now) == Object(next);
      PatchUnder(next, k, diffs[1..]);
      assert next[k := PatchAll(next[k], diffs[1..])] == fields[k := PatchAll(fields[k], diffs)];
    }
  }

  lemma AccurateUnder(was: Json, now: Json, k: string, diffs: seq<FieldDiff>)
    requires was.Object? && now.Object? && k in was.fields && k in now.fields
    requires forall d :: d in diffs ==> Accurate(d, was.fields[k], now.fields[k])
    ensures forall d :: d in Under([k], diffs) ==> Accurate(d, was, now)
  {
    forall d | d in Under([k], diffs) ensures Accurate(d, was, now) {
      var i :| 0 <= i < |diffs| && Under([k], diffs)[i] == d;
      assert diffs[i] in diffs && d.path[1..] == diffs[i].path;
    }
  }

  // ---------------------------------------------------------------------
  // Computing the differences
  // ---------------------------------------------------------------------

  /** `a` with every key outside `todo` as in `b`. */
  ghost function Updated(a: map<string, Json>, b: map<string, Json>, todo: set<string>): map<string, Json> {
    map k | k in a && (k in todo || k in b) :: if k in todo then a[k] else b[k]
  }

  /** `b` without its new keys in `todo`. */
  ghost function Extended(a: map<string, Json>, b: map<string, Json>, todo: set<string>): map<string, Json> {
    map k | k in b && (k in a || k !in todo) :: b[k]
  }

  ghost predicate Reaches(diffs: seq<FieldDiff>, was: Json, now: Json, sofar: map<string, Json>) {
    PatchAll(was, diffs) == Object(sofar) && forall d :: d in diffs ==> Accurate(d, was, now)
  }

  lemma UpdateStep(was: Json, now: Json, diffs: seq<FieldDiff>, todo: set<string>, k: string, inner: seq<FieldDiff>)
    requires was.Object? && now.Object? && k in todo && k in was.fields && k in now.fields
    requires Reaches(diffs, was, now, Updated(was.fields, now.fields, todo)) && Describes(inner, was.fields[k], now.fields[k])
    ensures Reaches(diffs + Under([k], inner), was, now, Updated(was.fields, now.fields, todo - {k}))
  {
    var m := Updated(was.fields, now.fields, todo);
    PatchAppend(was, diffs, Under([k], inner));
    forall d | d in inner && d.path == [] ensures d.now.Some? { assert Accurate(d, was.fields[k], now.fields[k]); }
    PatchUnder(m, k, inner);
    assert m[k := now.fields[k]] == Updated(was.fields, now.fields, todo - {k});
    AccurateUnder(was, now, k, inner);
  }

  lemma PatchOne(v: Json, d: FieldDiff)
    ensures PatchAll(v, [d]) == Patch(v, d.path, d.now)
  {
    assert [d][1..] == [];
  }

  lemma RemoveStep(was: Json, now: Json, diffs: seq<FieldDiff>, todo: set<string>, k: string)
    requires was.Object? && now.Object? && k in todo && k in was.fields && k !in now.fields
    requires Reaches(diffs, was, now, Updated(was.fields, now.fields, todo))
    ensures Reaches(diffs + [FieldDiff([k], Some(was.fields[k]), None)], was, now, Updated(was.fields, now.fields, todo - {k}))
  {
    var d := FieldDiff([k], Some(was.fields[k]), None);
    var m := Updated(was.fields, now.fields, todo);
    PatchAppend(was, diffs, [d]);
    PatchOne(Object(m), d);
    assert m - {k} == Updated(was.fields, now.fields, todo - {k});
    assert [k][1..] == [];
    assert Accurate(d, was, now);
  }

  lemma AddStep(was: Json, now: Json, diffs: seq<FieldDiff>, todo: set<string>, k: string)
    requires was.Object? && now.Object? && k in todo && k !in was.fields && k in now.fields
    requires Reaches(diffs, was, now, Extended(was.fields, now.fields, todo))
    ensures Reaches(diffs + [FieldDiff([k], None, Some(now.fields[k]))], was, now, Extended(was.fields, now.fields, todo - {k}))
  {
    var d := FieldDiff([k], None, Some(now.fields[k]));
    var m := Extended(was.fields, now.fields, todo);
    PatchAppend(was, diffs, [d]);
    PatchOne(Object(m), d);
    assert m[k := now.fields[k]] == Extended(was.fields, now.fields, todo - {k});
    assert [k][1..] == [];
    assert Accurate(d, was, now);
  }

  lemma UnderNothing(diffs: seq<FieldDiff>)
    ensures Under([], diffs) == diffs
  {
    forall i | 0 <= i < |diffs| ensures Under([], diffs)[i] == diffs[i] {
      assert [] + diffs[i].path == diffs[i].path;
    }
  }

  lemma UnderAppend(prefix: Path, a: seq<FieldDiff>, b: seq<FieldDiff>)
    ensures Under(prefix, a + b) == Under(prefix, a) + Under(prefix, b)
  {}

  /** One difference more, found under `prefix`. */
  lemma UnderSnoc(prefix: Path, sofar: seq<FieldDiff>, inner: seq<FieldDiff>, d: FieldDiff)
    ensures sofar + Under(prefix, inner) + [d.(path := prefix + d.path)] == sofar + Under(prefix, inner + [d])
  {
    UnderAppend(prefix, inner, [d]);
  }

  /** Differences more, found in a field. */
  lemma UnderMore(prefix: Path, sofar: seq<FieldDiff>, inner: seq<FieldDiff>, k: string, nested: seq<FieldDiff>)
    ensures sofar + Under(prefix, inner) + Under(prefix + [k], nested) == sofar + Under(prefix, inner + Under([k], nested))
  {
    UnderUnder(prefix, k, nested);
    UnderAppend(prefix, inner, Under([k], nested));
  }

  /** Append to `sofar` the differences `inner` of two values found under `prefix`, visiting keys in any order. */
  method DiffRecursive(was: Json, now: Json, prefix: Path, sofar: seq<FieldDiff>) returns (diffs: seq<FieldDiff>, ghost inner: seq<FieldDiff>)
    ensures diffs == sofar + Under(prefix, inner)
    ensures Describes(inner, was, now)
    decreases was
  {
    diffs, inner := sofar, [];
    if was.Object? && now.Object? {
      diffs, inner := DiffOldKeys(was, now, prefix, sofar);
      diffs, inner := DiffNewKeys(was, now, prefix, sofar, diffs, inner);
    } else if was != now {
      diffs := diffs + [FieldDiff(prefix, Some(was), Some(now))];
      inner := [FieldDiff([], Some(was), Some(now))];
      PatchOne(was, inner[0]);
      assert prefix + [] == prefix;
    }
  }

  /** The keys of the old object: changed inside, or gone. */
  method DiffOldKeys(was: Json, now: Json, prefix: Path, sofar: seq<FieldDiff>) returns (diffs: seq<FieldDiff>, ghost inner: seq<FieldDiff>)
    requires was.Object? && now.Object?
    ensures diffs == sofar + Under(prefix, inner)
    ensures Reaches(inner, was, now, Updated(was.fields, now.fields, {}))
    decreases was, 0
  {
    diffs, inner := sofar, [];
    var todo := was.fields.Keys;
    assert Updated(was.fields, now.fields, todo) == was.fields;
    while todo != {}
      invariant todo <= was.fields.Keys
      invariant Reaches(inner, was, now, Updated(was.fields, now.fields, todo))
      invariant diffs == sofar + Under(prefix, inner)
      decreases |todo|
    {
      var k :| k in todo;
      if k in now.fields {
        ghost var nested;
        diffs, nested := DiffRecursive(was.fields[k], now.fields[k], prefix + [k], diffs);
        UpdateStep(was, now, inner, todo, k, nested);
        UnderMore(prefix, sofar, inner, k, nested);
        inner := inner + Under([k], nested);
      } else {
        RemoveStep(was, now, inner, todo, k);
        UnderSnoc(prefix, sofar, inner, FieldDiff([k], Some(was.fields[k]), None));
        diffs := diffs + [FieldDiff(prefix + [k], Some(was.fields[k]), None)];
        inner := inner + [FieldDiff([k], Some(was.fields[k]), None)];
      }
      todo := todo - {k};
    }
  }

  /** The keys that only the new object has. */
  method DiffNewKeys(was: Json, now: Json, prefix: Path, ghost sofar: seq<FieldDiff>, diffs0: seq<FieldDiff>, ghost inner0: seq<FieldDiff>)
    returns (diffs: seq<FieldDiff>, ghost inner: seq<FieldDiff>)
    requires was.Object? && now.Object? && diffs0 == sofar + Under(prefix, inner0)
    requires Reaches(inner0, was, now, Updated(was.fields, now.fields, {}))
    ensures diffs == sofar + Under(prefix, inner) && Describes(inner, was, now)
  {
    diffs, inner := diffs0, inner0;
    var todo := now.fields.Keys - was.fields.Keys;
    assert Updated(was.fields, now.fields, {}) == Extended(was.fields, now.fields, todo);
    while todo != {}
      invariant todo <= now.fields.Keys - was.fields.Keys
      invariant Reaches(inner, was, now, Extended(was.fields, now.fields, todo))
      invariant diffs == sofar + Under(prefix, inner)
      decreases |todo|
    {
      var k :| k in todo;
      AddStep(was, now, inner, todo, k);
      UnderSnoc(prefix, sofar, inner, FieldDiff([k], None, Some(now.fields[k])));
      diffs := diffs + [FieldDiff(prefix + [k], None, Some(now.fields[k]))];
      inner := inner + [FieldDiff([k], None, Some(now.fields[k]))];
      todo := todo - {k};
    }
    assert Extended(was.fields, now.fields, {}) == now.fields;
  }

  /** The differences turn the old configuration into the new one; there are none exactly when the two are equal. */
  method DiffConfigs(was: Json, now: Json) returns (diffs: seq<FieldDiff>)
    ensures Describes(diffs, was, now)
    ensures diffs == [] <==> was == now
  {
    ghost var inner;
    diffs, inner := DiffRecursive(was, now, [], []);
    UnderNothing(inner);
    assert [] + inner == inner;
    EmptyIffEqual(diffs, was, now);
  }

  // ---------------------------------------------------------------------
  // Paths as text
  // ---------------------------------------------------------------------

  /** Keys are joined with '/' as they are, without escaping. */
  function Render(path: Path): (text: string)
    ensures path == [] || '/' in text
  {
    if path == [] then "" else ['/'] + path[0] + Render(path[1..])
  }

  predicate SlashFree(path: Path) {
    forall i :: 0 <= i < |path| ==> '/' !in path[i]
  }

  lemma FirstPart(a: string, x: string, b: string, y: string)
    requires a + x == b + y && '/' !in a && '/' !in b
    requires (x == "" || x[0] == '/') && (y == "" || y[0] == '/')
    ensures a == b && x == y
  {
    FirstIndexAfter(a, x, '/');
    FirstIndexAfter(b, y, '/');
    assert a == (a + x)[..|a|] && b == (b + y)[..|b|] && x == (a + x)[|a|..] && y == (b + y)[|b|..];
  }

  /** Paths whose keys have no '/' can be told apart by their text. */
  lemma {:induction false} RenderInjective(p: Path, q: Path)
    requires SlashFree(p) && SlashFree(q) && Render(p) == Render(q)
    ensures p == q
  {
    if p != [] && q != [] {
      assert Render(p)[1..] == p[0] + Render(p[1..]) && Render(q)[1..] == q[0] + Render(q[1..]);
      FirstPart(p[0], Render(p[1..]), q[0], Render(q[1..]));
      RenderInjective(p[1..], q[1..]);
      assert p == [p[0]] + p[1..] && q == [q[0]] + q[1..];
    }
  }

  lemma SlashFreeText(k: string, p: Path)
    requires '/' !in k && Render(p) == Render([k])
    ensures p == [k]
  {
    RenderOne(k);
    assert p != [];
    assert k == Render([k])[1..] == Render(p)[1..] == p[0] + Render(p[1..]);
    assert forall c :: c in Render(p[1..]) ==> c in k;
    assert p[1..] == [] && p == [p[0]] + p[1..];
    assert k == p[0] + "" == p[0];
  }

  lemma SlashSplits(k: string, i: nat)
    requires i < |k| && k[i] == '/'
    ensures Render([k[..i], k[i + 1..]]) == Render([k])
  {
    var p := [k[..i], k[i + 1..]];
    RenderOne(k);
    RenderOne(k[i + 1..]);
    assert p[1..] == [k[i + 1..]];
    assert k == k[..i] + (['/'] + k[i + 1..]);
    assert ['/'] + k == ['/'] + k[..i] + (['/'] + k[i + 1..]);
  }

  /** The whole path could also be a single key. */
  lemma OneKeySameText(q: Path)
    requires q != []
    ensures Render([q[0] + Render(q[1..])]) == Render(q)
  {
    RenderOne(q[0] + Render(q[1..]));
    assert ['/'] + (q[0] + Render(q[1..])) == ['/'] + q[0] + Render(q[1..]);
  }

  /** A nested field and a top-level one with the same text. */
  lemma SameText()
    ensures Render(["a", "b"]) == Render(["a/b"])
  {
    SlashSplits("a/b", 1);
    assert "a/b"[..1] == "a" && "a/b"[2..] == "b";
  }

  /** The text of a top-level field stands for that field alone exactly when its key has no '/'. */
  lemma KeyIsUnique(k: string)
    ensures '/' !in k <==> forall p: Path :: Render(p) == Render([k]) ==> p == [k]
  {
    if '/' !in k {
      forall p: Path | Render(p) == Render([k]) ensures p == [k] {
        SlashFreeText(k, p);
      }
    } else {
      var i :| 0 <= i < |k| && k[i] == '/';
      SlashSplits(k, i);
      var p: Path := [k[..i], k[i + 1..]];
      assert |p| == 2 && Render(p) == Render([k]);
    }
  }

  /**
   The text of a path stands for that path alone exactly when it is empty or one key without '/': the text
   of every nested field is also that of a top-level one.
   */
  lemma TextIsUnique(q: Path)
    ensures q == [] || (|q| == 1 && '/' !in q[0]) <==> forall p: Path :: Render(p) == Render(q) ==> p == q
  {
    if |q| == 1 {
      KeyIsUnique(q[0]);
      assert q == [q[0]];
    } else if |q| > 1 {
      OneKeySameText(q);
      assert |[q[0] + Render(q[1..])]| != |q|;
    }
  }

  lemma RenderOne(k: string)
    ensures Render([k]) == ['/'] + k
  {
    assert [k][1..] == [];
  }

  // ---------------------------------------------------------------------
  // Drift
  // ---------------------------------------------------------------------

  datatype Descriptor = Descriptor(fieldPath: string, reloadable: bool, isSecretRef: bool)

  datatype Drift = NoDiff | Reloadable | RestartRequired

  /** The first descriptor of a field. */
  function Describing(descriptors: seq<Descriptor>, path: string): Option<Descriptor> {
    if descriptors == [] then None
    else if descriptors[0].fieldPath == path then Some(descriptors[0])
    else Describing(descriptors[1..], path)
  }

  /** A field may be changed in a running service: it is described, reloadable, and no secret reference. */
  predicate MayReload(descriptors: seq<Descriptor>, path: string) {
    var d := Describing(descriptors, path);
    d.Some? && d.value.reloadable && !d.value.isSecretRef
  }

  method ClassifyField(descriptors: seq<Descriptor>, path: string) returns (status: Drift)
    ensures status == if MayReload(descriptors, path) then Reloadable else RestartRequired
  {
    for i := 0 to |descriptors|
      invariant Describing(descriptors[i..], path) == Describing(descriptors, path)
    {
      assert descriptors[i..][1..] == descriptors[i + 1..];
      if descriptors[i].fieldPath == path {
        if descriptors[i].isSecretRef { return RestartRequired; }
        return if descriptors[i].reloadable then Reloadable else RestartRequired;
      }
    }
    return RestartRequired;
  }

  /** A restart is needed exactly when some changed field may not be reloaded. */
  method ClassifyDrift(diffs: seq<FieldDiff>, descriptors: seq<Descriptor>) returns (worst: Drift)
    ensures worst.NoDiff? <==> diffs == []
    ensures worst.RestartRequired? <==> exists d :: d in diffs && !MayReload(descriptors, Render(d.path))
  {
    if diffs == [] { return NoDiff; }
    worst := Reloadable;
    for i := 0 to |diffs|
      invariant worst.Reloadable? && forall k :: 0 <= k < i ==> MayReload(descriptors, Render(diffs[k].path))
    {
      var status := ClassifyField(descriptors, Render(diffs[i].path));
      if status.RestartRequired? { return RestartRequired; }
    }
  }
}
