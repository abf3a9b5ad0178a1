/**
 * The structural diff the controllers use to decide how to reconcile a live
 * object with its desired specification (src/k8s/specDiff.js): the simple
 * diff with unit-aware scalar comparison, the ignore-list and the echo of
 * `name`; the complex diff; and the patch/replace classifiers.
 *
 * A diff call returns `undefined`, a JSON value, or throws a TypeError
 * (reading a property of null or undefined); `DiffResult` has one case for each.
 */
module SpecDiff {
  import opened Wrappers
  import opened Strings
  import opened Json

  datatype DiffResult = Undefined | Value(json: Json) | Crash

  /** Whether a computed entry survives the filter of the object branch. */
  predicate Kept(r: DiffResult) { r.Value? && Keep(Some(r.json)) }

  // ------------------------------------------------------------ unit patterns

  /** `/^([0-9]+)[%]$/`: the value of the captured digits. */
  function Percentage(s: string): Option<nat>
  {
    if |s| >= 2 && s[|s| - 1] == '%' && AllDigits(s[..|s| - 1]) then Some(DigitsValue(s[..|s| - 1])) else None
  }

  /** `/^([0-9]+)[m]$/`: the value of the captured digits. */
  function Milli(s: string): Option<nat>
  {
    if |s| >= 2 && s[|s| - 1] == 'm' && AllDigits(s[..|s| - 1]) then Some(DigitsValue(s[..|s| - 1])) else None
  }

  /** `/^[0-9.]+$/`. */
  predicate Whole(s: string) { |s| > 0 && forall i :: 0 <= i < |s| ==> IsDigit(s[i]) || s[i] == '.' }

  /**
   * `parseFloat` of a string made of digits and dots: the longest prefix of
   * the form digits [. digits]; NaN (`None`) when that prefix has no digit.
   */
  function ParseFloat(s: string): Option<Num>
  {
    var n := DigitRun(s, 0);
    var f := if n < |s| && s[n] == '.' then DigitRun(s, n + 1) else 0;
    var frac := if n < |s| && s[n] == '.' then s[n + 1..n + 1 + f] else "";
    if n + f == 0 then None else Some(Num(DigitsValue(s[..n] + frac), f))
  }

  lemma ParseFloatOfNat(d: nat)
    ensures ParseFloat(NatToString(d)) == Some(Int(d))
  {
    var s := NatToString(d);
    assert DigitRun(s, 0) == |s|;
    assert s[..|s|] + "" == s;
    NatToStringRoundTrip(d);
  }

  lemma PercentageOf(n: nat)
    ensures Percentage(NatToString(n) + "%") == Some(n)
    ensures Milli(NatToString(n) + "%") == None
  {
    var s := NatToString(n) + "%";
    assert s[..|s| - 1] == NatToString(n);
    NatToStringRoundTrip(n);
  }

  lemma MilliOf(n: nat)
    ensures Milli(NatToString(n) + "m") == Some(n)
    ensures Percentage(NatToString(n) + "m") == None
    ensures !Whole(NatToString(n) + "m")
  {
    var s := NatToString(n) + "m";
    assert s[..|s| - 1] == NatToString(n);
    assert s[|s| - 1] == 'm';
    NatToStringRoundTrip(n);
  }

  // ------------------------------------------------------------- simple diff

  /** `IGNORE_LIST = { hostPath: 'type' }`: the key skipped under parent key k. */
  predicate Ignored(k: Option<string>, c: string) { k == Some("hostPath") && c == "type" }

  /** The scalar branch: units first, then loose equality. */
  function ScalarDiff(a: JsVal, b: Json): (r: DiffResult)
    requires !b.JArr? && !b.JObj?
    ensures r == Undefined || r == Value(b)
  {
    var bs := JsonToStr(b);
    var as_ := ToStr(a);
    if Percentage(bs).Some? && Milli(as_).Some? then
      if Percentage(bs).value * 10 != Milli(as_).value then Value(b) else Undefined
    else if Milli(bs).Some? && Whole(as_) then
      var an := ParseFloat(as_);
      if an.None? || !NumEq(Int(Milli(bs).value), Num(an.value.mant * 1000, an.value.exp)) then Value(b)
      else Undefined
    else if LooseEq(a, Some(b)) then Undefined
    else Value(b)
  }

  /** simpleDiff(a, b, k): what of the desired b differs from the live a; k is the parent key. */
  function SimpleDiff(a: JsVal, b: Json, k: Option<string>): (r: DiffResult)
    ensures b.JObj? ==> r.Crash? || (r.Value? && r.json.JObj? && r.json.m.Keys <= b.m.Keys)
    ensures !b.JArr? && !b.JObj? ==> r == Undefined || r == Value(b)
    decreases b, 2, 0
  {
    match b
    case JArr(_) => ArrayDiff(a, b)
    case JObj(_) => ObjectDiff(a, b, k)
    case _ => ScalarDiff(a, b)
  }

  /** The keys of b the for-in loop visits. */
  function Visited(b: Json, k: Option<string>): set<string>
    requires b.JObj?
  {
    set c | c in b.m && !Ignored(k, c)
  }

  /** `nested[c]` for one key c of b. */
  function Entry(a: JsVal, b: Json, c: string): DiffResult
    requires b.JObj? && c in b.m
    decreases b, 0, 0
  {
    var live := Prop(a, c);
    if IsNullish(live) then Value(b.m[c]) else SimpleDiff(live, b.m[c], Some(c))
  }

  /** The object branch before the echo of `name`. */
  function Entries(a: JsVal, b: Json, k: Option<string>): (diffs: map<string, Json>)
    requires b.JObj?
    ensures diffs.Keys <= Visited(b, k)
    decreases b, 1, 0
  {
    map c | c in Visited(b, k) && Kept(Entry(a, b, c)) :: Entry(a, b, c).json
  }

  /** Whether `b.name && b.name === a.name`. */
  predicate SameName(a: JsVal, b: Json)
  {
    Truthy(Prop(Some(b), "name")) && StrictEq(Prop(Some(b), "name"), Prop(a, "name"))
  }

  function ObjectDiff(a: JsVal, b: Json, k: Option<string>): (r: DiffResult)
    requires b.JObj?
    ensures r.Crash? || (r.Value? && r.json.JObj? && r.json.m.Keys <= b.m.Keys)
    decreases b, 1, 1
  {
    if Visited(b, k) == {} then Value(JObj(map[]))
    else if IsNullish(a) then Crash
    else if exists c :: c in Visited(b, k) && Entry(a, b, c).Crash? then Crash
    else
      var diffs := Entries(a, b, k);
      if |diffs| > 0 && SameName(a, b) then Value(JObj(diffs["name" := b.m["name"]]))
      else Value(JObj(diffs))
  }

  /** `a.length - 1 >= i`, with `a.length` converted by ToNumber (NaN compares false). */
  predicate LengthCovers(a: JsVal, i: nat)
  {
    var n := ToNumber(Prop(a, "length"));
    n.Some? && NumLe(Int(i + 1), n.value)
  }

  /** The mapped entries for indexes i.. of the desired array b. */
  function Elements(a: JsVal, b: Json, i: nat): (rs: seq<DiffResult>)
    requires b.JArr? && i <= |b.a|
    ensures |rs| == |b.a| - i
    decreases b, 0, |b.a| - i
  {
    if i == |b.a| then []
    else
      var r := if LengthCovers(a, i) then SimpleDiff(At(a, i), b.a[i], None) else Value(b.a[i]);
      [r] + Elements(a, b, i + 1)
  }

  /** A sub-diff the filter keeps: a value that is not empty. */
  predicate Listed(r: DiffResult)
  {
    r.Value? && !IsEmpty(Some(r.json))
  }

  /** `_.filter(rs, x => !_.isEmpty(x))` on results none of which threw: exactly the kept values. */
  function NonEmpty(rs: seq<DiffResult>): (xs: seq<Json>)
    ensures |xs| <= |rs|
    ensures forall x :: x in xs <==> exists i :: 0 <= i < |rs| && Listed(rs[i]) && rs[i].json == x
  {
    if |rs| == 0 then []
    else
      var rest := NonEmpty(rs[1..]);
      assert forall i :: 1 <= i < |rs| ==> rs[i] == rs[1..][i - 1];
      if Listed(rs[0]) then [rs[0].json] + rest else rest
  }

  /** The filter keeps order: filtering a concatenation concatenates the filtered parts. */
  lemma {:induction false} NonEmptyKeepsOrder(a: seq<DiffResult>, b: seq<DiffResult>)
    ensures NonEmpty(a + b) == NonEmpty(a) + NonEmpty(b)
    ensures forall r :: NonEmpty([r]) == if Listed(r) then [r.json] else []
  {
    if |a| > 0 {
      assert (a + b)[1..] == a[1..] + b;
      NonEmptyKeepsOrder(a[1..], b);
    } else {
      assert a + b == b;
    }
  }

  predicate AnyCrash(rs: seq<DiffResult>) { exists i :: 0 <= i < |rs| && rs[i].Crash? }

  function ArrayDiff(a: JsVal, b: Json): (r: DiffResult)
    requires b.JArr?
    decreases b, 1, 1
  {
    if DeepEq(a, Some(b)) then Undefined
    else if |b.a| == 0 || !IsObject(Some(b.a[0])) then Value(b)
    else if IsNullish(a) then Crash
    else
      var rs := Elements(a, b, 0);
      if AnyCrash(rs) then Crash else Value(JArr(NonEmpty(rs)))
  }

  // ------------------------------------------------------------ complex diff

  /** isNested: some value of the object (or element of the array) is itself an array or object. */
  predicate IsNested(x: Json)
  {
    match x
    case JObj(m) => exists c :: c in m && IsObject(Some(m[c]))
    case JArr(s) => exists i :: 0 <= i < |s| && IsObject(Some(s[i]))
    case _ => false
  }

  /** The desired elements in xs that match no element of the live collection a, in order. */
  function Unmatched(a: JsVal, xs: seq<Json>): (ys: seq<Json>)
    ensures forall y :: y in ys ==> y in xs && !CollectionHas(a, y)
    ensures forall x :: x in xs && !CollectionHas(a, x) ==> x in ys
  {
    if |xs| == 0 then []
    else if CollectionHas(a, xs[0]) then Unmatched(a, xs[1..])
    else [xs[0]] + Unmatched(a, xs[1..])
  }

  /** The reduce of the source: the accumulator grows by each unmatched element. */
  function PushUnmatched(a: JsVal, xs: seq<Json>, acc: seq<Json>): seq<Json>
  {
    if |xs| == 0 then acc
    else PushUnmatched(a, xs[1..], if CollectionHas(a, xs[0]) then acc else acc + [xs[0]])
  }

  lemma {:induction false} PushUnmatchedIsFilter(a: JsVal, xs: seq<Json>, acc: seq<Json>)
    ensures PushUnmatched(a, xs, acc) == acc + Unmatched(a, xs)
  {
    if |xs| > 0 {
      var acc' := if CollectionHas(a, xs[0]) then acc else acc + [xs[0]];
      PushUnmatchedIsFilter(a, xs[1..], acc');
    }
  }

  /** complexDiff(a, b, k); the parent key k is passed along by the source but never read. */
  function ComplexDiff(a: JsVal, b: Json): DiffResult
    decreases b, 2, 0
  {
    match b
    case JArr(_) => ComplexArray(a, b)
    case JObj(_) => ComplexObject(a, b)
    case _ => if LooseEq(a, Some(b)) then Undefined else Value(b)
  }

  function ComplexArray(a: JsVal, b: Json): DiffResult
    requires b.JArr?
    decreases b, 1, 1
  {
    if |b.a| > 1 then Value(JArr(PushUnmatched(a, b.a, [])))
    else if DeepEq(a, Some(b)) then Undefined
    else if |b.a| == 0 || !IsObject(Some(b.a[0])) || !IsNested(b.a[0]) then Value(b)
    else if IsNullish(a) then Crash
    else
      var rs := ComplexElements(a, b, 0);
      if AnyCrash(rs) then Crash else Value(JArr(NonEmpty(rs)))
  }

  function ComplexElements(a: JsVal, b: Json, i: nat): (rs: seq<DiffResult>)
    requires b.JArr? && i <= |b.a|
    ensures |rs| == |b.a| - i
    decreases b, 0, |b.a| - i
  {
    if i == |b.a| then []
    else
      var r := if LengthCovers(a, i) then ComplexDiff(At(a, i), b.a[i]) else Value(b.a[i]);
      [r] + ComplexElements(a, b, i + 1)
  }

  /**
   * `nested[c]` of the complex object branch. A desired array value whose
   * first element is missing or null makes `b[c][0].name` throw.
   */
  function ComplexEntry(a: JsVal, b: Json, c: string): DiffResult
    requires b.JObj? && c in b.m
    decreases b, 0, 0
  {
    var live := Prop(a, c);
    var want := b.m[c];
    if IsNullish(live) then Value(want)
    else if want.JArr? then
      if |want.a| == 0 || want.a[0].JNull? then Crash
      else if Truthy(Prop(Some(want.a[0]), "name")) || Truthy(Prop(Some(want.a[0]), "key")) then ComplexDiff(live, want)
      else if !DeepEq(live, Some(want)) then Value(want)
      else Undefined
    else ComplexDiff(live, want)
  }

  function ComplexObject(a: JsVal, b: Json): DiffResult
    requires b.JObj?
    decreases b, 1, 1
  {
    if b.m == map[] then Value(JObj(map[]))
    else if IsNullish(a) then Crash
    else if exists c :: c in b.m && ComplexEntry(a, b, c).Crash? then Crash
    else Value(JObj(map c | c in b.m && Kept(ComplexEntry(a, b, c)) :: ComplexEntry(a, b, c).json))
  }

  // ------------------------------------------------------------- classifiers

  const Unpatchable: seq<string> := ["job", "cronjob", "service"]
  const Unreplaceable: seq<string> := ["job", "cronjob"]

  /** `diff.kind` is truthy, or `diff.spec && diff.spec.clusterIP` is. */
  predicate SetsKindOrClusterIP(diff: Json)
  {
    Truthy(Prop(Some(diff), "kind"))
    || (Truthy(Prop(Some(diff), "spec")) && Truthy(Prop(Prop(Some(diff), "spec"), "clusterIP")))
  }

  predicate CanPatch(diff: Json, t: Option<string>)
    requires diff != JNull
  {
    !(t.Some? && t.value != "" && t.value in Unpatchable) && !SetsKindOrClusterIP(diff)
  }

  predicate CanReplace(diff: Json, t: Option<string>)
    requires diff != JNull
  {
    !(t.Some? && t.value != "" && t.value in Unreplaceable) && !SetsKindOrClusterIP(diff)
  }

  /** The merge patch that sets one container's image: spec.template.spec.containers = [{name, image}]. */
  function GetImagePatch(name: string, image: string): Json
  {
    JObj(map["spec" := JObj(map["template" := JObj(map["spec" :=
      JObj(map["containers" := JArr([JObj(map["name" := JStr(name), "image" := JStr(image)])])])])])])
  }

  /** `{spec: {template: {spec: {backoffLimit: v}}}}`. */
  function BackoffTemplate(v: Json): Json
  {
    JObj(map["spec" := JObj(map["template" := JObj(map["spec" := JObj(map["backoffLimit" := v])])])])
  }

  /** `job.spec.template.spec.backoffLimit`, each missing level read as `{}`. */
  function BackoffLimit(job: Json): JsVal
    requires job != JNull
  {
    Prop(OrEmpty(Prop(OrEmpty(Prop(OrEmpty(Prop(Some(job), "spec")), "template")), "spec")), "backoffLimit")
  }

  /**
   * isBackoffOnly: the diff is exactly the template carrying the job's own
   * backoffLimit. When the job has none, the template holds `undefined`,
   * which `_.isEqual` tells apart from every JSON value.
   */
  predicate IsBackoffOnly(diff: Json, job: Json)
    requires job != JNull
  {
    BackoffLimit(job).Some? && DeepEqJ(diff, BackoffTemplate(BackoffLimit(job).value))
  }

  // ------------------------------------------------------------------ lemmas

  /**
   * d draws only on the desired b: an object diff uses keys of b (each
   * scoped to its value), an array diff holds elements each scoped to some
   * element of b, and a scalar diff is b itself.
   */
  predicate Scoped(d: Json, b: Json)
    decreases b
  {
    match b
    case JObj(bm) => d.JObj? && forall c :: c in d.m ==> c in bm && Scoped(d.m[c], bm[c])
    case JArr(bs) => d.JArr? && forall x :: x in d.a ==> exists i :: 0 <= i < |bs| && Scoped(x, bs[i])
    case _ => d == b
  }

  lemma {:induction false} ScopedReflexive(b: Json)
    ensures Scoped(b, b)
    decreases b
  {
    match b
    case JObj(bm) =>
      forall c | c in bm ensures Scoped(bm[c], bm[c]) {
        ScopedReflexive(bm[c]);
      }
    case JArr(bs) =>
      forall x | x in bs ensures exists i :: 0 <= i < |bs| && Scoped(x, bs[i]) {
        var i :| 0 <= i < |bs| && bs[i] == x;
        ScopedReflexive(x);
      }
    case _ =>
  }

  lemma NonEmptyFrom(rs: seq<DiffResult>, x: Json)
    requires x in NonEmpty(rs)
    ensures exists j :: 0 <= j < |rs| && rs[j] == Value(x)
  {
    if rs[0].Value? && !IsEmpty(Some(rs[0].json)) && x == rs[0].json {
    } else {
      NonEmptyFrom(rs[1..], x);
      var j :| 0 <= j < |rs[1..]| && rs[1..][j] == Value(x);
      assert rs[j + 1] == Value(x);
    }
  }

  /** Key scope: every part of a simple diff comes from the desired document. */
  lemma {:induction false} DiffScoped(a: JsVal, b: Json, k: Option<string>)
    ensures SimpleDiff(a, b, k).Value? ==> Scoped(SimpleDiff(a, b, k).json, b)
    decreases b, 2, 0
  {
    match b
    case JObj(_) => ObjectScoped(a, b, k);
    case JArr(_) => ArrayScoped(a, b);
    case _ =>
  }

  lemma {:induction false} ObjectScoped(a: JsVal, b: Json, k: Option<string>)
    requires b.JObj?
    ensures ObjectDiff(a, b, k).Value? ==> Scoped(ObjectDiff(a, b, k).json, b)
    decreases b, 1, 0
  {
    var r := ObjectDiff(a, b, k);
    if r.Value? && Visited(b, k) != {} {
      var diffs := Entries(a, b, k);
      forall c | c in diffs ensures Scoped(diffs[c], b.m[c]) {
        EntryScoped(a, b, c);
      }
      if "name" in b.m {
        ScopedReflexive(b.m["name"]);
      }
    }
  }

  lemma {:induction false} ArrayScoped(a: JsVal, b: Json)
    requires b.JArr?
    ensures ArrayDiff(a, b).Value? ==> Scoped(ArrayDiff(a, b).json, b)
    decreases b, 1, 0
  {
    var r := ArrayDiff(a, b);
    if r == Value(b) {
      ScopedReflexive(b);
    } else if r.Value? {
      var rs := Elements(a, b, 0);
      ElementsScoped(a, b, 0);
      forall x | x in r.json.a ensures exists i :: 0 <= i < |b.a| && Scoped(x, b.a[i]) {
        NonEmptyFrom(rs, x);
        var j :| 0 <= j < |rs| && rs[j] == Value(x);
        assert Scoped(x, b.a[j]);
      }
    }
  }

  lemma {:induction false} EntryScoped(a: JsVal, b: Json, c: string)
    requires b.JObj? && c in b.m
    ensures Entry(a, b, c).Value? ==> Scoped(Entry(a, b, c).json, b.m[c])
    decreases b, 0, 0
  {
    var live := Prop(a, c);
    if IsNullish(live) {
      ScopedReflexive(b.m[c]);
    } else {
      DiffScoped(live, b.m[c], Some(c));
    }
  }

  lemma {:induction false} ElementsScoped(a: JsVal, b: Json, i: nat)
    requires b.JArr? && i <= |b.a|
    ensures forall j :: 0 <= j < |b.a| - i && Elements(a, b, i)[j].Value? ==>
      Scoped(Elements(a, b, i)[j].json, b.a[i + j])
    decreases b, 0, |b.a| - i
  {
    if i < |b.a| {
      ElementsScoped(a, b, i + 1);
      if LengthCovers(a, i) {
        DiffScoped(At(a, i), b.a[i], None);
      } else {
        ScopedReflexive(b.a[i]);
      }
      var rs := Elements(a, b, i);
      forall j | 0 <= j < |b.a| - i && rs[j].Value? ensures Scoped(rs[j].json, b.a[i + j]) {
        if j > 0 {
          assert rs[j] == Elements(a, b, i + 1)[j - 1];
        }
      }
    }
  }

  /** Under a `hostPath` parent, a desired `type` never appears in the diff. */
  lemma HostPathTypeIgnored(a: JsVal, b: Json)
    requires b.JObj?
    ensures SimpleDiff(a, b, Some("hostPath")).Value? ==> "type" !in SimpleDiff(a, b, Some("hostPath")).json.m
  {
  }

  /** A document diffed against itself has no entries: `{}` for objects, `undefined` otherwise. */
  lemma {:induction false} SelfDiffEmpty(x: Json, k: Option<string>)
    ensures SimpleDiff(Some(x), x, k) == if x.JObj? then Value(JObj(map[])) else Undefined
    decreases x
  {
    match x
    case JObj(xm) =>
      forall c | c in Visited(x, k) ensures !Kept(Entry(Some(x), x, c)) && !Entry(Some(x), x, c).Crash? {
        assert Prop(Some(x), c) == Some(xm[c]);
        if !xm[c].JNull? {
          SelfDiffEmpty(xm[c], Some(c));
        }
      }
      assert Entries(Some(x), x, k) == map[];
    case JArr(_) =>
      DeepEqReflexive(x);
    case _ =>
      LooseEqReflexive(x);
  }

  /** A visited key whose live value is missing or null is copied whole, when the copy passes the filter. */
  lemma MissingKeyCopied(a: JsVal, b: Json, k: Option<string>, c: string)
    requires b.JObj? && c in b.m && !Ignored(k, c)
    requires !IsNullish(a) && IsNullish(Prop(a, c)) && Keep(Some(b.m[c]))
    ensures SimpleDiff(a, b, k).Value? ==> c in SimpleDiff(a, b, k).json.m && SimpleDiff(a, b, k).json.m[c] == b.m[c]
  {
    assert c in Visited(b, k);
    assert Entry(a, b, c) == Value(b.m[c]);
    var diffs := Entries(a, b, k);
    assert c in diffs && diffs[c] == b.m[c];
    assert SimpleDiff(a, b, k) == ObjectDiff(a, b, k);
  }

  /** A non-empty object diff carries the desired `name` when it is set and strictly equals the live one. */
  lemma NameEchoed(a: JsVal, b: Json, k: Option<string>)
    requires b.JObj? && SameName(a, b)
    requires SimpleDiff(a, b, k).Value? && SimpleDiff(a, b, k).json.m != map[]
    ensures "name" in SimpleDiff(a, b, k).json.m && SimpleDiff(a, b, k).json.m["name"] == b.m["name"]
  {
  }

  /** Every entry of an object diff passes the filter: no falsy primitive and no empty object or array. */
  lemma DiffEntriesKept(a: JsVal, b: Json, k: Option<string>)
    requires b.JObj? && SimpleDiff(a, b, k).Value?
    ensures forall c :: c in SimpleDiff(a, b, k).json.m ==> Keep(Some(SimpleDiff(a, b, k).json.m[c]))
  {
    assert SimpleDiff(a, b, k) == ObjectDiff(a, b, k);
    if Visited(b, k) != {} && SameName(a, b) {
      var name := Prop(Some(b), "name");
      assert name == Some(b.m["name"]);
      assert !IsObject(name);
    }
  }

  /** A desired change to 0, false, '' or null is never reported. */
  lemma FalsyChangeDropped(a: JsVal, b: Json, k: Option<string>, c: string)
    requires b.JObj? && c in b.m && !IsObject(Some(b.m[c])) && !Truthy(Some(b.m[c]))
    ensures SimpleDiff(a, b, k).Value? ==> c !in SimpleDiff(a, b, k).json.m
  {
    assert SimpleDiff(a, b, k) == ObjectDiff(a, b, k);
    if SimpleDiff(a, b, k).Value? && c in Visited(b, k) {
      var e := Entry(a, b, c);
      assert e == Undefined || e == Value(b.m[c]);
      assert !Kept(e);
      assert c !in Entries(a, b, k);
      if c == "name" {
        assert Prop(Some(b), "name") == Some(b.m[c]);
        assert !SameName(a, b);
      }
    }
  }

  /** Desired 'N%' against live 'Mm' counts as equal exactly when M = 10·N. */
  lemma PercentAgainstMilli(m: nat, n: nat, k: Option<string>)
    ensures SimpleDiff(Str(NatToString(m) + "m"), JStr(NatToString(n) + "%"), k)
      == if m == 10 * n then Undefined else Value(JStr(NatToString(n) + "%"))
  {
    PercentageOf(n);
    MilliOf(m);
  }

  /** Desired 'Nm' against a live whole number D counts as equal exactly when N = 1000·D. */
  lemma MilliAgainstWhole(d: nat, n: nat, k: Option<string>)
    ensures SimpleDiff(Some(JNum(Int(d))), JStr(NatToString(n) + "m"), k)
      == if n == 1000 * d then Undefined else Value(JStr(NatToString(n) + "m"))
  {
    var a := Some(JNum(Int(d)));
    var b := JStr(NatToString(n) + "m");
    MilliOf(n);
    NatToStr(d);
    ParseFloatOfNat(d);
    assert ToStr(a) == NatToString(d);
    assert Whole(NatToString(d));
    assert Int(d).mant * 1000 == 1000 * d * Pow10(Int(d).exp) by {
      assert Int(d).exp == 0 && Pow10(0) == 1;
    }
    MilliScaled(n, Int(d), 1000 * d);
    MilliBranch(a, b, k);
    assert Milli(b.s).value == n && ParseFloat(ToStr(a)).value == Int(d);
  }

  /** The milli rule: desired 'Nm' against a live string of digits and dots compares N with 1000·parseFloat. */
  lemma MilliBranch(a: JsVal, b: Json, k: Option<string>)
    requires b.JStr? && Percentage(b.s).None? && Milli(b.s).Some? && Whole(ToStr(a))
    requires ParseFloat(ToStr(a)).Some?
    ensures var x := ParseFloat(ToStr(a)).value;
      SimpleDiff(a, b, k) == if NumEq(Int(Milli(b.s).value), Num(x.mant * 1000, x.exp)) then Undefined else Value(b)
  {
  }

  /** Milli-units N against a parsed live number x: equal when 1000·x is N. */
  lemma MilliScaled(n: nat, x: Num, v: int)
    requires x.mant * 1000 == v * Pow10(x.exp)
    ensures NumEq(Int(n), Num(x.mant * 1000, x.exp)) <==> n == v
  {
    var p := Pow10(x.exp);
    assert Pow10(0) == 1;
    assert NumEq(Int(n), Num(x.mant * 1000, x.exp)) <==> n * p == v * p;
    if n * p == v * p {
      assert (n - v) * p == 0;
    }
  }

  /** The unit rules are one-directional: live '1000m' against desired '1' is a change. */
  lemma MilliAgainstPlainDiffers()
    ensures SimpleDiff(Str("1000m"), JStr("1"), None) == Value(JStr("1"))
  {
  }

  /** Live '1000m' against desired '100%' is no change. */
  lemma ExampleMilliPercent()
    ensures SimpleDiff(Str("1000m"), JStr("100%"), None) == Undefined
  {
    assert "1000m"[..4] == "1000" && "100%"[..3] == "100";
    assert DigitsValue("100") == 100 by {
      assert "100"[..2] == "10" && "10"[..1] == "1" && "1"[..0] == "";
    }
    assert DigitsValue("1000") == 1000 by {
      assert "1000"[..3] == "100";
    }
    assert Percentage("100%") == Some(100);
    assert Milli("1000m") == Some(1000);
  }

  /** Live '1.5' against desired '1500m' is no change. */
  lemma ExampleWholeMilli()
    ensures SimpleDiff(Str("1.5"), JStr("1500m"), None) == Undefined
  {
    MilliOf1500();
    ParseOnePointFive();
    assert Pow10(1) == 10;
    MilliScaled(1500, Num(15, 1), 1500);
    MilliBranch(Str("1.5"), JStr("1500m"), None);
  }

  lemma MilliOf1500()
    ensures Milli("1500m") == Some(1500) && Percentage("1500m") == None
  {
    assert "1500m"[..4] == "1500";
    assert DigitsValue("1500") == 1500 by {
      assert "1500"[..3] == "150" && "150"[..2] == "15" && "15"[..1] == "1" && "1"[..0] == "";
    }
  }

  lemma ParseOnePointFive()
    ensures Whole("1.5") && ParseFloat("1.5") == Some(Num(15, 1))
  {
    assert DigitRun("1.5", 0) == 1 && DigitRun("1.5", 2) == 1;
    assert "1.5"[..1] + "1.5"[2..3] == "15";
    assert DigitsValue("15") == 15 by {
      assert "15"[..1] == "1" && "1"[..0] == "";
    }
  }

  /** For more than one desired element, the complex diff keeps exactly the unmatched ones, in order. */
  lemma ComplexArrayUnmatched(a: JsVal, b: Json)
    requires b.JArr? && |b.a| > 1
    ensures ComplexDiff(a, b) == Value(JArr(Unmatched(a, b.a)))
  {
    assert ComplexDiff(a, b) == ComplexArray(a, b);
    PushUnmatchedIsFilter(a, b.a, []);
    assert [] + Unmatched(a, b.a) == Unmatched(a, b.a);
  }

  /** An empty desired array under a key the live object has makes the complex diff throw. */
  lemma ComplexEmptyArrayThrows(a: JsVal, b: Json, c: string)
    requires b.JObj? && c in b.m && b.m[c] == JArr([]) && !IsNullish(a) && !IsNullish(Prop(a, c))
    ensures ComplexDiff(a, b) == Crash
  {
    assert ComplexEntry(a, b, c).Crash?;
  }

  lemma CanPatchImpliesCanReplace(d: Json, t: Option<string>)
    requires d != JNull
    ensures CanPatch(d, t) ==> CanReplace(d, t)
  {
  }

  /** Except for type 'service' the two classifiers agree, so "replace" is never chosen after "patch" failed. */
  lemma CanReplaceOnlyAddsService(d: Json, t: Option<string>)
    requires d != JNull
    ensures CanReplace(d, t) && !CanPatch(d, t) <==> CanReplace(d, t) && t == Some("service")
  {
  }

  lemma JobsNeverPatchedOrReplaced(d: Json)
    requires d != JNull
    ensures !CanPatch(d, Some("job")) && !CanReplace(d, Some("job"))
    ensures !CanPatch(d, Some("cronjob")) && !CanReplace(d, Some("cronjob"))
  {
  }

  lemma ImagePatchIsPatchable(name: string, image: string, t: Option<string>)
    requires t.None? || t.value !in Unpatchable
    ensures CanPatch(GetImagePatch(name, image), t)
  {
  }

  /** A backoff-only diff has `spec` as its only key; `{}` is never backoff-only. */
  lemma BackoffOnlyShape(d: Json, job: Json)
    requires job != JNull
    ensures IsBackoffOnly(d, job) ==> d.JObj? && d.m.Keys == {"spec"}
    ensures !IsBackoffOnly(JObj(map[]), job)
  {
    if BackoffLimit(job).Some? {
      var t := BackoffTemplate(BackoffLimit(job).value);
      assert t.m.Keys == {"spec"};
      var e: map<string, Json> := map[];
      assert "spec" !in e;
    }
  }

  /** The template built from the job's own limit is backoff-only; a job without one has no backoff-only diff. */
  lemma BackoffOnlyExactly(d: Json, job: Json)
    requires job != JNull
    ensures BackoffLimit(job).Some? ==> IsBackoffOnly(BackoffTemplate(BackoffLimit(job).value), job)
    ensures BackoffLimit(job).None? ==> !IsBackoffOnly(d, job)
  {
    if BackoffLimit(job).Some? {
      DeepEqReflexive(BackoffTemplate(BackoffLimit(job).value));
    }
  }
}
