/**
 * The upgrade half of src/cluster.js: finding deployed resources by image
 * or by image metadata (findResourcesByImage, findResourcesByMetadata),
 * sorting the candidates of an upgrade into buckets by what compare says
 * (getUpgradeCandidates), and issuing the upgrade calls for the
 * 'upgrade' bucket (upgradeResources, upgradeResource).
 *
 * The image metadata of the cluster, which getImageMetadata reads from
 * Kubernetes, is an input: one entry per namespace, in key order, each
 * holding the lists `daemonSets`, `deployments` and `statefulSets`.
 */
module Upgrades {
  import opened Wrappers
  import opened Strings
  import opened Json
  import ImageParser
  import ImageComparer
  import C = Cluster

  const TypeError: string := C.TypeError

  /** The image metadata of the cluster: namespace name and the object of its lists. */
  type Images = seq<(string, Json)>

  // ------------------------------------------------------ finding resources

  /** findResourcesByMetadata tests `match(resource.metadata, metadata, resource.labels)`; findResourcesByImage `resource.image.indexOf(image) >= 0`. */
  datatype Test = ByMetadata(metadata: map<string, Json>) | ByImage(image: string)

  /** One test of the forEach callback; reading through a missing value throws. */
  function Tested(t: Test, resource: Json): (r: Result<bool>)
    ensures r.Err? ==> r.error == TypeError
  {
    match t
    case ByMetadata(metadata) =>
      C.Match(Prop(Some(resource), "metadata"), Some(JObj(metadata)), Prop(Some(resource), "labels"))
    case ByImage(image) =>
      match Prop(Some(resource), "image")
      case Some(JStr(s)) => Ok(Includes(s, image))
      case Some(JArr(a)) => Ok(JStr(image) in a)
      case _ => Err(TypeError)
  }

  /** `resources[key].forEach`: the list must be an array. */
  function ListOf(resources: Json, key: string): (r: Result<seq<Json>>)
    ensures r.Err? ==> r.error == TypeError
  {
    match Prop(Some(resources), key)
    case Some(JArr(a)) => Ok(a)
    case _ => Err(TypeError)
  }

  /** The resources of one namespace in the order they are visited: daemon sets, deployments, stateful sets. */
  function InNamespace(resources: Json): (r: Result<seq<Json>>)
    ensures r.Err? ==> r.error == TypeError
  {
    match ListOf(resources, "daemonSets")
    case Err(e) => Err(e)
    case Ok(a) =>
      match ListOf(resources, "deployments")
      case Err(e) => Err(e)
      case Ok(b) =>
        match ListOf(resources, "statefulSets")
        case Err(e) => Err(e)
        case Ok(c) => Ok(a + b + c)
  }

  /** Every resource of the cluster, namespace after namespace. */
  function Flat(images: Images): (r: Result<seq<Json>>)
    ensures r.Err? ==> r.error == TypeError
  {
    if |images| == 0 then Ok([])
    else
      match Flat(images[..|images| - 1])
      case Err(e) => Err(e)
      case Ok(p) =>
        match InNamespace(images[|images| - 1].1)
        case Err(e) => Err(e)
        case Ok(q) => Ok(p + q)
  }

  /** A test of the forEach callback, as a function value: it completes, or throws a TypeError. */
  type Tester = Json -> Result<bool>

  ghost predicate TypeErrors(test: Tester)
  {
    forall x :: test(x).Err? ==> test(x).error == TypeError
  }

  function TesterOf(t: Test): (test: Tester)
    ensures TypeErrors(test)
  {
    x => Tested(t, x)
  }

  /** The resources that pass the test, in order; a test that throws ends the walk. */
  function Keep(test: Tester, xs: seq<Json>): (r: Result<seq<Json>>)
    ensures r.Ok? ==> |r.value| <= |xs|
  {
    if |xs| == 0 then Ok([])
    else
      match Keep(test, xs[..|xs| - 1])
      case Err(e) => Err(e)
      case Ok(p) =>
        match test(xs[|xs| - 1])
        case Err(e) => Err(e)
        case Ok(b) => Ok(if b then p + [xs[|xs| - 1]] else p)
  }

  /** What findResources* resolve with: all resources, filtered by the test. */
  function Found(test: Tester, images: Images): Result<seq<Json>>
  {
    match Flat(images)
    case Err(e) => Err(e)
    case Ok(xs) => Keep(test, xs)
  }

  /** The inner forEach: tests each resource of one list and pushes the ones that pass. */
  method ScanList(test: Tester, list: seq<Json>, acc0: seq<Json>, ghost seen: seq<Json>) returns (r: Result<seq<Json>>)
    requires Keep(test, seen) == Ok(acc0)
    ensures r == Keep(test, seen + list)
  {
    var acc := acc0;
    assert seen + list[..0] == seen;
    for j := 0 to |list|
      invariant Keep(test, seen + list[..j]) == Ok(acc)
    {
      assert (seen + list[..j + 1])[..|seen + list[..j + 1]| - 1] == seen + list[..j];
      assert (seen + list[..j + 1])[|seen + list[..j + 1]| - 1] == list[j];
      var b := test(list[j]);
      if b.Err? {
        KeepErrorStays(test, seen + list[..j + 1], list[j + 1..]);
        assert seen + list[..j + 1] + list[j + 1..] == seen + list;
        return Err(b.error);
      }
      if b.value {
        acc := acc + [list[j]];
      }
    }
    assert list[..|list|] == list;
    r := Ok(acc);
  }

  /**
   * findResourcesByMetadata / findResourcesByImage after the metadata is
   * read: a reduce over the namespaces whose accumulator the three forEach
   * callbacks push into. The result is the filter of all resources.
   */
  method FindResources(test: Tester, images: Images) returns (r: Result<seq<Json>>)
    requires TypeErrors(test)
    ensures r == Found(test, images)
  {
    var acc: seq<Json> := [];
    ghost var seen: seq<Json> := [];
    for n := 0 to |images|
      invariant Flat(images[..n]) == Ok(seen)
      invariant Keep(test, seen) == Ok(acc)
    {
      assert images[..n + 1][..n] == images[..n];
      var resources := images[n].1;
      var daemonSets := ListOf(resources, "daemonSets");
      var deployments := ListOf(resources, "deployments");
      var statefulSets := ListOf(resources, "statefulSets");
      if daemonSets.Err? || deployments.Err? || statefulSets.Err? {
        // The first list that is not an array throws; what the earlier lists pushed is lost with the rejection.
        FlatPrefix(images, n + 1);
        return Err(TypeError);
      }
      ghost var lists := daemonSets.value + deployments.value + statefulSets.value;
      assert InNamespace(resources) == Ok(lists);
      assert Flat(images[..n + 1]) == Ok(seen + lists);
      var res := ScanNamespace(test, daemonSets.value, deployments.value, statefulSets.value, acc, seen);
      if res.Err? {
        // A test that throws inside the reduce rejects the whole search.
        FoundErrorAt(test, images, n + 1, seen + lists);
        return Err(TypeError);
      }
      acc := res.value;
      seen := seen + lists;
    }
    assert images[..|images|] == images;
    r := Ok(acc);
  }

  /** The three forEach of one namespace: daemon sets, then deployments, then stateful sets. */
  method ScanNamespace(test: Tester, d: seq<Json>, e: seq<Json>, f: seq<Json>, acc: seq<Json>, ghost seen: seq<Json>)
    returns (r: Result<seq<Json>>)
    requires Keep(test, seen) == Ok(acc)
    ensures r == Keep(test, seen + (d + e + f))
  {
    assert seen + (d + e + f) == seen + d + (e + f) == seen + d + e + f;
    r := ScanList(test, d, acc, seen);
    if r.Err? {
      KeepErrorStays(test, seen + d, e + f);
      return;
    }
    r := ScanList(test, e, r.value, seen + d);
    if r.Err? {
      KeepErrorStays(test, seen + d + e, f);
      return;
    }
    r := ScanList(test, f, r.value, seen + d + e);
  }

  lemma {:induction false} KeepErrorStays(test: Tester, xs: seq<Json>, ys: seq<Json>)
    requires Keep(test, xs).Err?
    ensures Keep(test, xs + ys) == Keep(test, xs)
    decreases |ys|
  {
    if |ys| > 0 {
      var n := |ys|;
      KeepErrorStays(test, xs, ys[..n - 1]);
      assert (xs + ys)[..|xs + ys| - 1] == xs + ys[..n - 1];
    } else {
      assert xs + ys == xs;
    }
  }

  /** A prefix of the namespaces yields a prefix of the resources. */
  lemma {:induction false} FlatPrefix(images: Images, m: nat)
    requires m <= |images|
    ensures Flat(images).Ok? ==> Flat(images[..m]).Ok? && Flat(images[..m]).value <= Flat(images).value
    decreases |images| - m
  {
    if m < |images| && Flat(images).Ok? {
      var n := |images|;
      FlatPrefix(images[..n - 1], m);
      assert images[..n - 1][..m] == images[..m];
    } else if m == |images| {
      assert images[..m] == images;
    }
  }

  lemma FoundErrorAt(test: Tester, images: Images, m: nat, prefix: seq<Json>)
    requires TypeErrors(test)
    requires m <= |images| && Flat(images[..m]) == Ok(prefix) && Keep(test, prefix).Err?
    ensures Found(test, images) == Err(TypeError)
  {
    KeepTypeErrors(test, prefix);
    FlatPrefix(images, m);
    if Flat(images).Ok? {
      var all := Flat(images).value;
      assert all == prefix + all[|prefix|..];
      KeepErrorStays(test, prefix, all[|prefix|..]);
    }
  }

  /** The walk resolves iff every list is an array and every test completes; it keeps exactly the resources that pass. */
  lemma {:induction false} KeepMeaning(test: Tester, xs: seq<Json>)
    ensures Keep(test, xs).Ok? <==> forall i :: 0 <= i < |xs| ==> test(xs[i]).Ok?
    ensures Keep(test, xs).Ok? ==> forall x :: x in Keep(test, xs).value <==> x in xs && test(x) == Ok(true)
  {
    if |xs| > 0 {
      var n := |xs|;
      KeepMeaning(test, xs[..n - 1]);
      assert xs == xs[..n - 1] + [xs[n - 1]];
      if Keep(test, xs).Ok? {
        forall i | 0 <= i < |xs|
          ensures test(xs[i]).Ok?
        {
          if i < n - 1 {
            assert xs[i] == xs[..n - 1][i];
          }
        }
      } else if Keep(test, xs[..n - 1]).Err? {
        var i :| 0 <= i < n - 1 && test(xs[..n - 1][i]).Err?;
        assert xs[i] == xs[..n - 1][i];
      }
    }
  }

  lemma {:induction false} KeepTypeErrors(test: Tester, xs: seq<Json>)
    requires TypeErrors(test)
    ensures Keep(test, xs).Err? ==> Keep(test, xs).error == TypeError
  {
    if |xs| > 0 {
      KeepTypeErrors(test, xs[..|xs| - 1]);
    }
  }

  /** findResourcesByImage over string images finds the resources whose image contains the given text. */
  lemma ImageSearch(image: string, images: Images, x: Json)
    requires Found(TesterOf(ByImage(image)), images).Ok?
    ensures x in Found(TesterOf(ByImage(image)), images).value
      <==> x in Flat(images).value && match Prop(Some(x), "image")
           case Some(JStr(s)) => Includes(s, image)
           case Some(JArr(a)) => JStr(image) in a
           case _ => false
  {
    KeepMeaning(TesterOf(ByImage(image)), Flat(images).value);
  }

  // ---------------------------------------------------------------- buckets

  /** The four buckets of getUpgradeCandidates. */
  datatype Buckets = Buckets(upgrade: seq<Json>, obsolete: seq<Json>, equal: seq<Json>, error: seq<Json>)

  datatype Bin = UpgradeBin | ObsoleteBin | EqualBin | ErrorBin

  /** `acc[diff]`: 'upgrade', 'obsolete' and 'equal' name a bucket; every mismatch goes to `error`. */
  function BinOf(l: ImageComparer.Label): (b: Bin)
    ensures b == UpgradeBin <==> l == ImageComparer.Upgrade
    ensures b == ObsoleteBin <==> l == ImageComparer.Obsolete
    ensures b == EqualBin <==> l == ImageComparer.Equal
  {
    match l
    case Upgrade => UpgradeBin
    case Obsolete => ObsoleteBin
    case Equal => EqualBin
    case _ => ErrorBin
  }

  /** `compare(resource.image, image)`: the installed image must be a string for parse's `split`. */
  function LabelOf(resource: Json, image: string): Result<ImageComparer.Label>
  {
    match Prop(Some(resource), "image")
    case Some(JStr(s)) => ImageComparer.Compare(s, image, None)
    case _ => Err(TypeError)
  }

  /** The compare of the reduce callback, as a function value. */
  type Labeller = Json -> Result<ImageComparer.Label>

  function LabellerOf(image: string): (labeller: Labeller)
    ensures forall x :: labeller(x) == LabelOf(x, image)
  {
    x => LabelOf(x, image)
  }

  /** The resource after `resource.diff = diff` and `resource.comparedTo = image`. */
  function Annotated(resource: Json, l: ImageComparer.Label, image: string): (r: Json)
    ensures resource.JObj? ==> r.JObj? && r.m.Keys == resource.m.Keys + {"diff", "comparedTo"}
    ensures resource.JObj? ==> Prop(Some(r), "diff") == Str(ImageComparer.LabelText(l))
    ensures resource.JObj? ==> Prop(Some(r), "comparedTo") == Str(image)
    ensures forall k :: k != "diff" && k != "comparedTo" ==> Prop(Some(r), k) == Prop(Some(resource), k)
  {
    match resource
    case JObj(m) => JObj(m["diff" := JStr(ImageComparer.LabelText(l))]["comparedTo" := JStr(image)])
    case _ => resource
  }

  function Push(b: Buckets, bin: Bin, x: Json): Buckets
  {
    match bin
    case UpgradeBin => b.(upgrade := b.upgrade + [x])
    case ObsoleteBin => b.(obsolete := b.obsolete + [x])
    case EqualBin => b.(equal := b.equal + [x])
    case ErrorBin => b.(error := b.error + [x])
  }

  const NoBuckets: Buckets := Buckets([], [], [], [])

  /** The reduce of getUpgradeCandidates: compare, annotate, push; a compare that throws rejects. */
  function Bucketed(labeller: Labeller, found: seq<Json>, image: string): Result<Buckets>
  {
    if |found| == 0 then Ok(NoBuckets)
    else
      match Bucketed(labeller, found[..|found| - 1], image)
      case Err(e) => Err(e)
      case Ok(b) =>
        var x := found[|found| - 1];
        match labeller(x)
        case Err(e) => Err(e)
        case Ok(l) => Ok(Push(b, BinOf(l), Annotated(x, l, image)))
  }

  /** The annotated resources of one bin, in order (every compare completing). */
  function Column(labeller: Labeller, found: seq<Json>, image: string, bin: Bin): seq<Json>
  {
    if |found| == 0 then []
    else
      var x := found[|found| - 1];
      Column(labeller, found[..|found| - 1], image, bin)
      + match labeller(x)
        case Ok(l) => if BinOf(l) == bin then [Annotated(x, l, image)] else []
        case Err(_) => []
  }

  /** The reduce of getUpgradeCandidates, pushing into the four arrays of its accumulator. */
  method BucketResources(labeller: Labeller, found: seq<Json>, image: string) returns (r: Result<Buckets>)
    ensures r == Bucketed(labeller, found, image)
  {
    var upgrade, obsolete, equal, error := [], [], [], [];
    for i := 0 to |found|
      invariant Bucketed(labeller, found[..i], image) == Ok(Buckets(upgrade, obsolete, equal, error))
    {
      assert found[..i + 1][..i] == found[..i];
      var l := labeller(found[i]);
      if l.Err? {
        BucketedErrorStays(labeller, found, image, i + 1);
        return Err(l.error);
      }
      var x := Annotated(found[i], l.value, image);
      var bin := BinOf(l.value);
      if bin == UpgradeBin {
        upgrade := upgrade + [x];
      } else if bin == ObsoleteBin {
        obsolete := obsolete + [x];
      } else if bin == EqualBin {
        equal := equal + [x];
      } else {
        error := error + [x];
      }
    }
    assert found[..|found|] == found;
    r := Ok(Buckets(upgrade, obsolete, equal, error));
  }

  lemma {:induction false} BucketedErrorStays(labeller: Labeller, found: seq<Json>, image: string, i: nat)
    requires i <= |found| && Bucketed(labeller, found[..i], image).Err?
    ensures Bucketed(labeller, found, image) == Bucketed(labeller, found[..i], image)
    decreases |found| - i
  {
    if i < |found| {
      var n := |found|;
      assert found[..n - 1][..i] == found[..i];
      BucketedErrorStays(labeller, found[..n - 1], image, i);
    } else {
      assert found[..i] == found;
    }
  }

  /**
   * The buckets partition the candidates: bucketing succeeds iff every
   * compare completes, and then each bucket holds, in order, exactly the
   * annotated resources whose label selects it.
   */
  lemma {:induction false} BucketsPartition(labeller: Labeller, found: seq<Json>, image: string)
    ensures Bucketed(labeller, found, image).Ok? <==> forall i :: 0 <= i < |found| ==> labeller(found[i]).Ok?
    ensures Bucketed(labeller, found, image).Ok? ==>
              Bucketed(labeller, found, image).value
              == Buckets(Column(labeller, found, image, UpgradeBin), Column(labeller, found, image, ObsoleteBin),
                         Column(labeller, found, image, EqualBin), Column(labeller, found, image, ErrorBin))
  {
    if |found| > 0 {
      var n := |found|;
      BucketsPartition(labeller, found[..n - 1], image);
      if Bucketed(labeller, found, image).Ok? {
        forall i | 0 <= i < n
          ensures labeller(found[i]).Ok?
        {
          if i < n - 1 {
            assert found[i] == found[..n - 1][i];
          }
        }
      } else if Bucketed(labeller, found[..n - 1], image).Err? {
        var i :| 0 <= i < n - 1 && labeller(found[..n - 1][i]).Err?;
        assert found[i] == found[..n - 1][i];
      }
    }
  }

  /** No candidate is lost or duplicated: the bucket sizes add up to the number of candidates. */
  lemma {:induction false} ColumnsCount(labeller: Labeller, found: seq<Json>, image: string)
    requires forall i :: 0 <= i < |found| ==> labeller(found[i]).Ok?
    ensures |Column(labeller, found, image, UpgradeBin)| + |Column(labeller, found, image, ObsoleteBin)|
      + |Column(labeller, found, image, EqualBin)| + |Column(labeller, found, image, ErrorBin)| == |found|
  {
    if |found| > 0 {
      var n := |found|;
      assert forall i :: 0 <= i < n - 1 ==> found[..n - 1][i] == found[i];
      ColumnsCount(labeller, found[..n - 1], image);
      ColumnGrows(labeller, found, image, UpgradeBin);
      ColumnGrows(labeller, found, image, ObsoleteBin);
      ColumnGrows(labeller, found, image, EqualBin);
      ColumnGrows(labeller, found, image, ErrorBin);
    }
  }

  /** The last candidate adds one entry to the bucket of its label and none to the others. */
  lemma ColumnGrows(labeller: Labeller, found: seq<Json>, image: string, bin: Bin)
    requires |found| > 0
    ensures |Column(labeller, found, image, bin)|
            == |Column(labeller, found[..|found| - 1], image, bin)|
               + (if labeller(found[|found| - 1]).Ok? && BinOf(labeller(found[|found| - 1]).value) == bin then 1 else 0)
  {
  }

  /** Everything in the upgrade bucket was compared with `image` and labelled 'upgrade'. */
  lemma {:induction false} UpgradeColumnLabelled(labeller: Labeller, found: seq<Json>, image: string, x: Json)
    requires forall i :: 0 <= i < |found| ==> found[i].JObj?
    requires x in Column(labeller, found, image, UpgradeBin)
    ensures Prop(Some(x), "diff") == Str("upgrade") && Prop(Some(x), "comparedTo") == Str(image)
  {
    var n := |found|;
    if x !in Column(labeller, found[..n - 1], image, UpgradeBin) {
      var l := labeller(found[n - 1]).value;
      assert l == ImageComparer.Upgrade;
      assert ImageComparer.LabelText(l) == "upgrade";
    } else {
      assert forall i :: 0 <= i < n - 1 ==> found[..n - 1][i] == found[i];
      UpgradeColumnLabelled(labeller, found[..n - 1], image, x);
    }
  }

  // ---------------------------------------------------- getUpgradeCandidates

  /** How a call of getUpgradeCandidates / upgradeResources settles: a synchronous throw, a rejection, a value, or never. */
  datatype Settled<T> = Throws(thrown: string) | Refused(image: string) | Rejects(reason: string) | Resolves(value: T) | Hangs

  /** The default `options.filter`. */
  const DefaultFilter: seq<Json> := [JStr("imageName"), JStr("imageOwner"), JStr("owner"), JStr("repo"), JStr("branch")]

  function Refusal(image: string): string
  {
    "hikaru was given an upgrade command with image '" + image
    + " and no filter which would result in forcing all resources to the same image."
    + " This command would certainly destroy the cluster and is refused."
  }

  function Put(m: map<string, Json>, key: string, v: Option<string>): map<string, Json>
  {
    if v.Some? then m[key := JStr(v.value)] else m
  }

  /** The object parse returns: `image: {name, owner}` and the tag fields that are defined. */
  function MetaObject(meta: ImageParser.ImageMeta): (r: map<string, Json>)
    ensures r.Keys <= {"image", "owner", "repo", "branch", "version", "build", "commit"}
    ensures "owner" in r <==> meta.owner.Some?
    ensures "repo" in r <==> meta.repo.Some?
    ensures "branch" in r <==> meta.branch.Some?
    ensures "owner" in r ==> r["owner"] == JStr(meta.owner.value)
    ensures "repo" in r ==> r["repo"] == JStr(meta.repo.value)
    ensures "branch" in r ==> r["branch"] == JStr(meta.branch.value)
  {
    var image := JObj(map["name" := JStr(meta.imageName), "owner" := JStr(meta.imageOwner)]);
    Put(Put(Put(Put(Put(Put(map["image" := image], "owner", meta.owner), "repo", meta.repo), "branch", meta.branch),
      "version", meta.version), "build", meta.build), "commit", meta.commit)
  }

  function KeyNames(paths: seq<Json>): set<string>
  {
    set i | 0 <= i < |paths| :: JsonToStr(paths[i])
  }

  /** `_.pickBy(_.pick(meta, filter), _.identity)`: the listed keys whose values are truthy. */
  function Picked(meta: map<string, Json>, paths: seq<Json>): map<string, Json>
  {
    map k | k in meta && k in KeyNames(paths) && Truthy(Some(meta[k])) :: meta[k]
  }

  /** getUpgradeCandidates, given the image metadata findResourcesByMetadata reads. */
  function Candidates(image: string, options: JsVal, images: Images): Settled<Buckets>
  {
    var opts := if options.None? then JObj(map["filter" := JArr(DefaultFilter)]) else options.value;
    if opts.JNull? then Throws(TypeError)
    else
      var filter := Prop(Some(opts), "filter");
      if !Truthy(filter) || StrictEq(Prop(filter, "length"), Some(JNum(Int(0)))) then Refused(image)
      else
        match ImageParser.Parse(image)
        case Err(e) => Throws(e)
        case Ok(meta) =>
          if !filter.value.JArr? then Throws(TypeError)
          else
            match Found(TesterOf(ByMetadata(Picked(MetaObject(meta), filter.value.a))), images)
            case Err(e) => Rejects(e)
            case Ok(list) =>
              match Bucketed(LabellerOf(image), list, image)
              case Err(e) => Rejects(e)
              case Ok(b) => Resolves(b)
  }

  /** getUpgradeCandidates with its reduces as loops. */
  method GetUpgradeCandidates(image: string, options: JsVal, images: Images) returns (r: Settled<Buckets>)
    ensures r == Candidates(image, options, images)
  {
    var opts := if options.None? then JObj(map["filter" := JArr(DefaultFilter)]) else options.value;
    if opts.JNull? {
      return Throws(TypeError);
    }
    var filter := Prop(Some(opts), "filter");
    if !Truthy(filter) || StrictEq(Prop(filter, "length"), Some(JNum(Int(0)))) {
      return Refused(image);
    }
    var meta := ImageParser.Parse(image);
    if meta.Err? {
      return Throws(meta.error);
    }
    if !filter.value.JArr? {
      return Throws(TypeError);
    }
    var list := FindResources(TesterOf(ByMetadata(Picked(MetaObject(meta.value), filter.value.a))), images);
    if list.Err? {
      return Rejects(list.error);
    }
    var b := BucketResources(LabellerOf(image), list.value, image);
    if b.Err? {
      return Rejects(b.error);
    }
    r := Resolves(b.value);
  }

  /** Without a filter, or with an empty one, the upgrade is refused before anything is read. */
  lemma RefusedWithoutFilter(image: string, images: Images, filter: Json)
    requires filter == JArr([]) || filter == JStr("") || filter == JNull || filter == JBool(false)
    ensures Candidates(image, Some(JObj(map[])), images) == Refused(image)
    ensures Candidates(image, Some(JObj(map["filter" := filter])), images) == Refused(image)
  {
    RefusedOn(image, JObj(map[]), images);
    PropOfObject(map["filter" := filter], "filter");
    RefusedOn(image, JObj(map["filter" := filter]), images);
  }

  /** A falsy or empty filter option refuses the upgrade. */
  lemma RefusedOn(image: string, opts: Json, images: Images)
    requires !opts.JNull?
    requires var filter := Prop(Some(opts), "filter");
             !Truthy(filter) || StrictEq(Prop(filter, "length"), Some(JNum(Int(0))))
    ensures Candidates(image, Some(opts), images) == Refused(image)
  {
  }

  /** The default filter names imageName and imageOwner, but parse has no such fields: only owner, repo and branch are picked. */
  lemma DefaultFilterPicks(meta: ImageParser.ImageMeta)
    ensures Picked(MetaObject(meta), DefaultFilter).Keys <= {"owner", "repo", "branch"}
    ensures "owner" in Picked(MetaObject(meta), DefaultFilter) <==> meta.owner.Some? && meta.owner.value != ""
    ensures "branch" in Picked(MetaObject(meta), DefaultFilter) <==> meta.branch.Some? && meta.branch.value != ""
    ensures "imageOwner" !in Picked(MetaObject(meta), DefaultFilter) && "imageName" !in Picked(MetaObject(meta), DefaultFilter)
  {
    var names := KeyNames(DefaultFilter);
    assert names == {"imageName", "imageOwner", "owner", "repo", "branch"} by {
      assert JsonToStr(DefaultFilter[0]) == "imageName";
      assert JsonToStr(DefaultFilter[1]) == "imageOwner";
      assert JsonToStr(DefaultFilter[2]) == "owner";
      assert JsonToStr(DefaultFilter[3]) == "repo";
      assert JsonToStr(DefaultFilter[4]) == "branch";
    }
  }

  /**
   * When the picked metadata has neither imageOwner nor imageName and a
   * resource's labels set no filter of their own, a resource that matches
   * defines neither field: match compares the default keys, and the
   * undefined fields of the metadata only equal undefined fields.
   */
  lemma MatchedLackAbsentKeys(props: map<string, Json>, images: Images, x: Json)
    requires "imageOwner" !in props && "imageName" !in props
    requires Found(TesterOf(ByMetadata(props)), images).Ok?
    requires x in Found(TesterOf(ByMetadata(props)), images).value
    requires !Truthy(Prop(Prop(Some(x), "labels"), "filter"))
    ensures Prop(Prop(Some(x), "metadata"), "imageOwner").None?
    ensures Prop(Prop(Some(x), "metadata"), "imageName").None?
  {
    var target, labels := Prop(Some(x), "metadata"), Prop(Some(x), "labels");
    FoundMatches(props, images, x);
    AbsentKeyUnmatched(target, props, labels, 0);
    AbsentKeyUnmatched(target, props, labels, 1);
  }

  /** A resource found by the metadata test matches the pattern under its own labels. */
  lemma FoundMatches(props: map<string, Json>, images: Images, x: Json)
    requires Found(TesterOf(ByMetadata(props)), images).Ok?
    requires x in Found(TesterOf(ByMetadata(props)), images).value
    ensures C.Match(Prop(Some(x), "metadata"), Some(JObj(props)), Prop(Some(x), "labels")) == Ok(true)
  {
    FoundPasses(TesterOf(ByMetadata(props)), images, x);
    assert Tested(ByMetadata(props), x) == Ok(true);
  }

  /** Every resource found passed the test. */
  lemma FoundPasses(test: Tester, images: Images, x: Json)
    requires Found(test, images).Ok? && x in Found(test, images).value
    ensures test(x) == Ok(true)
  {
    KeepMeaning(test, Flat(images).value);
  }

  /** A default match key the pattern lacks only matches a target that lacks it too. */
  lemma AbsentKeyUnmatched(target: JsVal, props: map<string, Json>, labels: JsVal, i: nat)
    requires C.Match(target, Some(JObj(props)), labels) == Ok(true)
    requires !Truthy(Prop(labels, "filter"))
    requires i < |C.MatchKeys| && C.MatchKeys[i] !in props
    ensures Prop(target, C.MatchKeys[i]).None?
  {
    var opts := if labels.None? then JObj(map[]) else labels.value;
    assert C.MatchKeyList(opts) == Ok(C.MatchKeys);
    assert C.KeyMatches(target.value, JObj(props), opts, C.MatchKeys[i]);
  }

  /**
   * With the default filter, candidates (whose labels set no filter) have
   * metadata without imageOwner and imageName: the filter names fields
   * that parse does not return.
   */
  lemma DefaultCandidatesLackImageFields(meta: ImageParser.ImageMeta, images: Images, x: Json)
    requires Found(TesterOf(ByMetadata(Picked(MetaObject(meta), DefaultFilter))), images).Ok?
    requires x in Found(TesterOf(ByMetadata(Picked(MetaObject(meta), DefaultFilter))), images).value
    requires !Truthy(Prop(Prop(Some(x), "labels"), "filter"))
    ensures Prop(Prop(Some(x), "metadata"), "imageOwner").None?
    ensures Prop(Prop(Some(x), "metadata"), "imageName").None?
  {
    var props := Picked(MetaObject(meta), DefaultFilter);
    DefaultFilterPicks(meta);
    MatchedLackAbsentKeys(props, images, x);
  }

  // ------------------------------------------------------- upgradeResources

  /** upgradeResource: the call for a resource, chosen by a case-insensitive search of its type; none for other types. */
  function UpgradeCall(resource: Json): Option<C.Call>
  {
    var kind := Lower(ToStr(Prop(Some(resource), "type")));
    var namespace, name := Prop(Some(resource), "namespace"), Prop(Some(resource), "service");
    var image, container := Prop(Some(resource), "comparedTo"), Prop(Some(resource), "container");
    if Includes(kind, "daemonset") then Some(C.UpdateDaemonSet(namespace, name, image, container))
    else if Includes(kind, "deployment") then Some(C.UpgradeDeployment(namespace, name, image, container))
    else if Includes(kind, "statefulset") then Some(C.UpgradeStatefulSet(namespace, name, image, container))
    else None
  }

  /** The map of upgradeResources: reading a field of a null resource throws; a type without a call resolves at once. */
  function UpgradeStarts(outcome: C.Call -> C.Status, rs: seq<Json>): (r: seq<Option<C.Trace>>)
    ensures |r| == |rs|
  {
    seq(|rs|, i requires 0 <= i < |rs| =>
      if rs[i].JNull? then None
      else match UpgradeCall(rs[i])
        case None => Some(C.Done)
        case Some(c) => Some(C.Step(outcome, c)))
  }

  /** What upgradeResources settles with and the calls it issues. */
  datatype Upgraded = Upgraded(outcome: Settled<Option<Buckets>>, calls: seq<C.Call>)

  /**
   * upgradeResources once the candidates are settled: a refused or
   * unparsable request throws; a rejected search is logged and resolves
   * undefined; otherwise every resource of the 'upgrade' bucket is
   * upgraded and the buckets are the result, unless an upgrade never
   * settles and no other rejects.
   */
  function UpgradeOf(outcome: C.Call -> C.Status, cands: Settled<Buckets>): Upgraded
  {
    match cands
    case Throws(e) => Upgraded(Throws(e), [])
    case Refused(i) => Upgraded(Refused(i), [])
    case Rejects(_) => Upgraded(Resolves(None), [])
    case Hangs => Upgraded(Hangs, [])
    case Resolves(b) =>
      var t := C.Joined(C.All(UpgradeStarts(outcome, b.upgrade)));
      Upgraded(
        match t.result
        case Failed(e) => Rejects(e)
        case Pending => Hangs
        case Fulfilled => Resolves(Some(b)),
        t.calls)
  }

  /** upgradeResources: getUpgradeCandidates, then the upgrades. */
  function UpgradeRun(outcome: C.Call -> C.Status, image: string, options: JsVal, images: Images): Upgraded
  {
    UpgradeOf(outcome, Candidates(image, options, images))
  }

  method UpgradeResources(k: C.K8s, image: string, options: JsVal, images: Images) returns (o: Settled<Option<Buckets>>)
    modifies k
    ensures C.Extends(old(k.log), k.log)
    ensures Upgraded(o, k.log[|old(k.log)|..]) == UpgradeRun(k.outcome, image, options, images)
  {
    var cands := GetUpgradeCandidates(image, options, images);
    o := UpgradeCandidates(k, cands);
  }

  /** The `.then` of upgradeResources: a Promise.all over the upgrade bucket. */
  method UpgradeCandidates(k: C.K8s, cands: Settled<Buckets>) returns (o: Settled<Option<Buckets>>)
    modifies k
    ensures C.Extends(old(k.log), k.log)
    ensures Upgraded(o, k.log[|old(k.log)|..]) == UpgradeOf(k.outcome, cands)
  {
    if cands.Throws? {
      return Throws(cands.thrown);
    }
    if cands.Refused? {
      return Refused(cands.image);
    }
    if cands.Rejects? {
      return Resolves(None);
    }
    if cands.Hangs? {
      return Hangs;
    }
    var rs := cands.value.upgrade;
    ghost var items := UpgradeStarts(k.outcome, rs);
    ghost var start := k.log;
    var failure: Option<string> := None;
    var hung := false;
    for i := 0 to |rs|
      invariant C.Extends(start, k.log)
      invariant C.All(items[..i]) == C.Batch(false, failure, hung, k.log[|start|..])
    {
      if rs[i].JNull? {
        assert items[..i + 1][..i] == items[..i];
        C.AllThrewStays(items, i + 1);
        return Rejects(TypeError);
      }
      var call := UpgradeCall(rs[i]);
      if call.Some? {
        failure, hung := C.SendInBatch(k, call.value, items, i, start, failure, hung);
      } else {
        C.AllGrows(items, i, failure, hung, k.log[|start|..], C.Done);
        assert k.log[|start|..] + [] == k.log[|start|..];
      }
    }
    assert items[..|rs|] == items;
    if failure.Some? {
      return Rejects(failure.value);
    }
    if hung {
      return Hangs;
    }
    o := Resolves(Some(cands.value));
  }

  /** upgradeResources only issues upgrade calls, at most one per resource of the 'upgrade' bucket. */
  lemma UpgradeCallsOnly(outcome: C.Call -> C.Status, cands: Settled<Buckets>)
    ensures var u := UpgradeOf(outcome, cands);
      C.Every(u.calls, (c: C.Call) => c.UpdateDaemonSet? || c.UpgradeDeployment? || c.UpgradeStatefulSet?)
      && (cands.Resolves? ==> |u.calls| <= |cands.value.upgrade|)
  {
    var p := (c: C.Call) => c.UpdateDaemonSet? || c.UpgradeDeployment? || c.UpgradeStatefulSet?;
    if cands.Resolves? {
      var items := UpgradeStarts(outcome, cands.value.upgrade);
      C.AllEvery(items, p);
      AllCallsBound(items);
    }
  }

  lemma {:induction false} AllCallsBound(items: seq<Option<C.Trace>>)
    requires forall i :: 0 <= i < |items| && items[i].Some? ==> |items[i].value.calls| <= 1
    ensures |C.All(items).calls| <= |items|
  {
    if |items| > 0 {
      AllCallsBound(items[..|items| - 1]);
    }
  }

  /**
   * A stateful set in the 'upgrade' bucket keeps upgradeResources from
   * resolving: its upgrade never settles once patched, so the joined
   * upgrades either reject or never settle.
   */
  lemma StatefulSetNeverResolves(outcome: C.Call -> C.Status, b: Buckets, j: nat)
    requires j < |b.upgrade| && forall i :: 0 <= i < |b.upgrade| ==> !b.upgrade[i].JNull?
    requires UpgradeCall(b.upgrade[j]).Some? && UpgradeCall(b.upgrade[j]).value.UpgradeStatefulSet?
    ensures UpgradeOf(outcome, Resolves(b)).outcome.Rejects? || UpgradeOf(outcome, Resolves(b)).outcome.Hangs?
  {
    var items := UpgradeStarts(outcome, b.upgrade);
    StartsUnresolved(outcome, b.upgrade, j);
    C.AllUnresolved(items, j);
    UnresolvedJoin(outcome, b);
  }

  /** Joined upgrades that do not resolve make upgradeResources reject or never settle. */
  lemma UnresolvedJoin(outcome: C.Call -> C.Status, b: Buckets)
    requires !C.Joined(C.All(UpgradeStarts(outcome, b.upgrade))).result.Fulfilled?
    ensures UpgradeOf(outcome, Resolves(b)).outcome.Rejects? || UpgradeOf(outcome, Resolves(b)).outcome.Hangs?
  {
  }

  /** The start of a stateful set's upgrade does not resolve, and no start of a non-null resource throws. */
  lemma StartsUnresolved(outcome: C.Call -> C.Status, rs: seq<Json>, j: nat)
    requires j < |rs| && forall i :: 0 <= i < |rs| ==> !rs[i].JNull?
    requires UpgradeCall(rs[j]).Some? && UpgradeCall(rs[j]).value.UpgradeStatefulSet?
    ensures var items := UpgradeStarts(outcome, rs);
      items[j].Some? && !items[j].value.result.Fulfilled? && forall i :: 0 <= i < |items| ==> items[i].Some?
  {
    var c := UpgradeCall(rs[j]).value;
    assert UpgradeStarts(outcome, rs)[j] == Some(C.Step(outcome, c));
  }

  /** A rejected search is swallowed: upgradeResources then resolves undefined without calls. */
  lemma RejectedSearchResolves(outcome: C.Call -> C.Status, image: string, options: JsVal, images: Images)
    requires Candidates(image, options, images).Rejects?
    ensures UpgradeRun(outcome, image, options, images) == Upgraded(Resolves(None), [])
  {
  }
}
