/**
 * The older copy of the diff engine (src/specDiff.js). Its simple diff
 * compares scalars with loose `==` only, has no ignore-list and never
 * echoes `name`; its canPatch looks for command, args or env changes in the
 * containers of the pod template. Its complexDiff and isBackoffOnly are
 * the same text as the controller copy and are `SpecDiff.ComplexDiff` and
 * `SpecDiff.IsBackoffOnly` here.
 */
module LegacyDiff {
  import opened Wrappers
  import opened Json
  import opened SpecDiff

  function LegacySimpleDiff(a: JsVal, b: Json): (r: DiffResult)
    ensures b.JObj? ==> r.Crash? || (r.Value? && r.json.JObj? && r.json.m.Keys <= b.m.Keys)
    ensures !b.JArr? && !b.JObj? ==> r == Undefined || r == Value(b)
    decreases b, 2, 0
  {
    match b
    case JArr(_) => LegacyArray(a, b)
    case JObj(_) => LegacyObject(a, b)
    case _ => if LooseEq(a, Some(b)) then Undefined else Value(b)
  }

  function LegacyEntry(a: JsVal, b: Json, c: string): DiffResult
    requires b.JObj? && c in b.m
    decreases b, 0, 0
  {
    var live := Prop(a, c);
    if IsNullish(live) then Value(b.m[c]) else LegacySimpleDiff(live, b.m[c])
  }

  function LegacyObject(a: JsVal, b: Json): (r: DiffResult)
    requires b.JObj?
    ensures r.Crash? || (r.Value? && r.json.JObj? && r.json.m.Keys <= b.m.Keys)
    decreases b, 1, 1
  {
    if b.m == map[] then Value(JObj(map[]))
    else if IsNullish(a) then Crash
    else if exists c :: c in b.m && LegacyEntry(a, b, c).Crash? then Crash
    else Value(JObj(LegacyEntries(a, b)))
  }

  function LegacyEntries(a: JsVal, b: Json): (diffs: map<string, Json>)
    requires b.JObj?
    ensures diffs.Keys <= b.m.Keys
    decreases b, 1, 0
  {
    map c | c in b.m && Kept(LegacyEntry(a, b, c)) :: LegacyEntry(a, b, c).json
  }

  function LegacyElements(a: JsVal, b: Json, i: nat): (rs: seq<DiffResult>)
    requires b.JArr? && i <= |b.a|
    ensures |rs| == |b.a| - i
    decreases b, 0, |b.a| - i
  {
    if i == |b.a| then []
    else
      var r := if LengthCovers(a, i) then LegacySimpleDiff(At(a, i), b.a[i]) else Value(b.a[i]);
      [r] + LegacyElements(a, b, i + 1)
  }

  function LegacyArray(a: JsVal, b: Json): DiffResult
    requires b.JArr?
    decreases b, 1, 1
  {
    if DeepEq(a, Some(b)) then Undefined
    else if |b.a| == 0 || !IsObject(Some(b.a[0])) then Value(b)
    else if IsNullish(a) then Crash
    else
      var rs := LegacyElements(a, b, 0);
      if AnyCrash(rs) then Crash else Value(JArr(NonEmpty(rs)))
  }

  /** `(c.command && c.command.length) || (c.args && c.args.length)`. */
  predicate HasCommandChange(c: Json)
    requires c != JNull
  {
    var command := Prop(Some(c), "command");
    var args := Prop(Some(c), "args");
    (Truthy(command) && Truthy(Prop(command, "length"))) || (Truthy(args) && Truthy(Prop(args, "length")))
  }

  /** `c.env && c.env.length`. */
  predicate HasEnvironmentChanges(c: Json)
    requires c != JNull
  {
    var env := Prop(Some(c), "env");
    Truthy(env) && Truthy(Prop(env, "length"))
  }

  predicate Changes(c: Json)
    requires c != JNull
  {
    HasCommandChange(c) || HasEnvironmentChanges(c)
  }

  /** `diff.spec.template.spec.containers`, each missing level read as `{}`. */
  function Containers(diff: Json): JsVal
    requires diff != JNull
  {
    Prop(OrEmpty(Prop(OrEmpty(Prop(OrEmpty(Prop(Some(diff), "spec")), "template")), "spec")), "containers")
  }

  /**
   * `_.some(cs, c => hasCommandChange(c) || hasEnvironmentChanges(c))` over
   * an array from index i: stops at the first changing container, throws
   * (`Err`) at a null container reached before one.
   */
  function SomeChanges(cs: seq<Json>, i: nat): (r: Result<bool>)
    requires i <= |cs|
    ensures r == Ok(true) ==> exists j :: i <= j < |cs| && cs[j] != JNull && Changes(cs[j])
    decreases |cs| - i
  {
    if i == |cs| then Ok(false)
    else if cs[i] == JNull then Err("TypeError")
    else if Changes(cs[i]) then Ok(true)
    else SomeChanges(cs, i + 1)
  }

  /**
   * canPatch of the older copy: false when some container of the pod
   * template changes its command, args or env. Containers held in an object
   * are visited in no particular order: a changing one wins over a null one.
   */
  function LegacyCanPatch(diff: Json): Result<bool>
    requires diff != JNull
  {
    var cs := Containers(diff);
    if !Truthy(cs) then Ok(true)
    else match cs.value
      case JArr(s) =>
        (match SomeChanges(s, 0) case Ok(found) => Ok(!found) case Err(e) => Err(e))
      case JObj(m) =>
        if exists c :: c in m && m[c] != JNull && Changes(m[c]) then Ok(false)
        else if exists c :: c in m && m[c] == JNull then Err("TypeError")
        else Ok(true)
      case _ => Ok(true)
  }

  // ------------------------------------------------------------------ lemmas

  lemma {:induction false} SomeChangesExact(cs: seq<Json>, i: nat)
    requires i <= |cs| && forall j :: i <= j < |cs| ==> cs[j] != JNull
    ensures SomeChanges(cs, i) == Ok(exists j :: i <= j < |cs| && Changes(cs[j]))
    decreases |cs| - i
  {
    if i < |cs| && !Changes(cs[i]) {
      SomeChangesExact(cs, i + 1);
      assert (exists j :: i <= j < |cs| && Changes(cs[j])) == (exists j :: i + 1 <= j < |cs| && Changes(cs[j]));
    }
  }

  /** With an array of non-null containers, patching is refused exactly when one of them changes command, args or env. */
  lemma LegacyCanPatchExact(diff: Json)
    requires diff != JNull && Containers(diff).Some? && Containers(diff).value.JArr?
    requires forall j :: 0 <= j < |Containers(diff).value.a| ==> Containers(diff).value.a[j] != JNull
    ensures LegacyCanPatch(diff)
      == Ok(!exists j :: 0 <= j < |Containers(diff).value.a| && Changes(Containers(diff).value.a[j]))
  {
    SomeChangesExact(Containers(diff).value.a, 0);
  }

  /** Without a containers list, or with containers that change nothing, the diff is patchable. */
  lemma LegacyCanPatchWithoutContainers(diff: Json)
    requires diff != JNull && !Truthy(Containers(diff))
    ensures LegacyCanPatch(diff) == Ok(true)
  {
  }

  /** A null container met before any changing one makes canPatch throw. */
  lemma LegacyCanPatchNullContainer(diff: Json)
    requires diff != JNull && Containers(diff).Some? && Containers(diff).value.JArr?
    requires |Containers(diff).value.a| > 0 && Containers(diff).value.a[0] == JNull
    ensures LegacyCanPatch(diff).Err?
  {
  }

  lemma {:induction false} LegacyDiffScoped(a: JsVal, b: Json)
    ensures LegacySimpleDiff(a, b).Value? ==> Scoped(LegacySimpleDiff(a, b).json, b)
    decreases b, 2, 0
  {
    match b
    case JObj(bm) =>
      var r := LegacyObject(a, b);
      if r.Value? && bm != map[] {
        var diffs := LegacyEntries(a, b);
        assert r.json.m == diffs;
        forall c | c in diffs ensures Scoped(diffs[c], bm[c]) {
          LegacyEntryScoped(a, b, c);
        }
      }
    case JArr(bs) =>
      var r := LegacyArray(a, b);
      if r == Value(b) {
        ScopedReflexive(b);
      } else if r.Value? {
        var rs := LegacyElements(a, b, 0);
        LegacyElementsScoped(a, b, 0);
        forall x | x in r.json.a ensures exists i :: 0 <= i < |bs| && Scoped(x, bs[i]) {
          NonEmptyFrom(rs, x);
          var j :| 0 <= j < |rs| && rs[j] == Value(x);
          assert Scoped(x, bs[j]);
        }
      }
    case _ =>
  }

  lemma {:induction false} LegacyEntryScoped(a: JsVal, b: Json, c: string)
    requires b.JObj? && c in b.m
    ensures LegacyEntry(a, b, c).Value? ==> Scoped(LegacyEntry(a, b, c).json, b.m[c])
    decreases b, 0, 0
  {
    var live := Prop(a, c);
    if IsNullish(live) {
      ScopedReflexive(b.m[c]);
    } else {
      LegacyDiffScoped(live, b.m[c]);
    }
  }

  lemma {:induction false} LegacyElementsScoped(a: JsVal, b: Json, i: nat)
    requires b.JArr? && i <= |b.a|
    ensures forall j :: 0 <= j < |b.a| - i && LegacyElements(a, b, i)[j].Value? ==>
      Scoped(LegacyElements(a, b, i)[j].json, b.a[i + j])
    decreases b, 0, |b.a| - i
  {
    if i < |b.a| {
      LegacyElementsScoped(a, b, i + 1);
      if LengthCovers(a, i) {
        LegacyDiffScoped(At(a, i), b.a[i]);
      } else {
        ScopedReflexive(b.a[i]);
      }
      var rs := LegacyElements(a, b, i);
      forall j | 0 <= j < |b.a| - i && rs[j].Value? ensures Scoped(rs[j].json, b.a[i + j]) {
        if j > 0 {
          assert rs[j] == LegacyElements(a, b, i + 1)[j - 1];
        }
      }
    }
  }

  lemma {:induction false} LegacySelfDiffEmpty(x: Json)
    ensures LegacySimpleDiff(Some(x), x) == if x.JObj? then Value(JObj(map[])) else Undefined
    decreases x
  {
    match x
    case JObj(xm) =>
      forall c | c in xm ensures !Kept(LegacyEntry(Some(x), x, c)) && !LegacyEntry(Some(x), x, c).Crash? {
        assert Prop(Some(x), c) == Some(xm[c]);
        if !xm[c].JNull? {
          LegacySelfDiffEmpty(xm[c]);
        }
      }
      assert LegacyEntries(Some(x), x) == map[];
    case JArr(_) =>
      DeepEqReflexive(x);
    case _ =>
      LooseEqReflexive(x);
  }

  /** Falsy desired scalars are dropped exactly as in the controller copy. */
  lemma LegacyFalsyChangeDropped(a: JsVal, b: Json, c: string)
    requires b.JObj? && c in b.m && !IsObject(Some(b.m[c])) && !Truthy(Some(b.m[c]))
    ensures LegacySimpleDiff(a, b).Value? ==> c !in LegacySimpleDiff(a, b).json.m
  {
    assert LegacySimpleDiff(a, b) == LegacyObject(a, b);
    if LegacySimpleDiff(a, b).Value? && b.m != map[] {
      var e := LegacyEntry(a, b, c);
      assert e == Undefined || e == Value(b.m[c]);
      assert !Kept(e);
    }
  }

  /** The older copy never compares units: live '1000m' against desired '100%' is a change. */
  lemma LegacyHasNoUnits()
    ensures LegacySimpleDiff(Str("1000m"), JStr("100%")) == Value(JStr("100%"))
  {
  }
}
