/**
 * The image comparer (src/imageComparer.js): two image strings are parsed
 * into their metadata and classified by an ordered ladder of checks into
 * one of eight labels. Versions are padded with lodash's `padEnd(v, 5, '.0')`
 * and ordered by Semantic Versioning 2.0.0 precedence (section 11) restricted
 * to release versions `major.minor.patch`; build numbers are read with
 * JavaScript's `parseInt(b, 10)`, whose NaN is `None` here.
 */
module ImageComparer {
  import opened Wrappers
  import opened Strings
  import opened Json
  import opened ImageParser

  /** The eight answers of compare. */
  datatype Label =
    | MismatchedImageOwners
    | MismatchedImageNames
    | MismatchedBranches
    | MismatchedOwners
    | MismatchedRepos
    | Equal
    | Upgrade
    | Obsolete

  function LabelText(l: Label): string
  {
    match l
    case MismatchedImageOwners => "mismatched image owners"
    case MismatchedImageNames => "mismatched image names"
    case MismatchedBranches => "mismatched branches"
    case MismatchedOwners => "mismatched owners"
    case MismatchedRepos => "mismatched repos"
    case Equal => "equal"
    case Upgrade => "upgrade"
    case Obsolete => "obsolete"
  }

  // ------------------------------------------------------------ lodash padEnd

  /** `fill` repeated and cut to exactly k characters. */
  function Cycle(fill: string, k: nat): (r: string)
    requires |fill| > 0
    ensures |r| == k && forall i :: 0 <= i < k ==> r[i] == fill[i % |fill|]
  {
    if k == 0 then "" else Cycle(fill, k - 1) + [fill[(k - 1) % |fill|]]
  }

  /** `_.padEnd(s, n, fill)`: a string shorter than n is filled up to n with the fill repeated. */
  function PadEnd(s: string, n: nat, fill: string): (r: string)
    requires |fill| > 0
    ensures |s| >= n ==> r == s
    ensures |s| < n ==>
      |r| == n && r[..|s|] == s && forall i :: |s| <= i < n ==> r[i] == fill[(i - |s|) % |fill|]
  {
    if |s| < n then s + Cycle(fill, n - |s|) else s
  }

  /** `_.toString` of the metadata field: undefined becomes the empty string. */
  function OrEmptyString(v: Option<string>): string
  {
    if v.Some? then v.value else ""
  }

  function Padded(v: Option<string>): string { PadEnd(OrEmptyString(v), 5, ".0") }

  // ---------------------------------------------------------------- semver

  /** A release version of Semantic Versioning 2.0.0 (section 2). */
  datatype SemVer = SemVer(major: nat, minor: nat, patch: nat)

  /**
   * `new SemVer(v)` for release versions: exactly three numeric identifiers
   * separated by '.', each `0` or a digit string without a leading zero;
   * anything else throws a TypeError "Invalid Version: v".
   */
  function ParseVersion(v: string): (r: Result<SemVer>)
    ensures r.Err? ==> r.error == "Invalid Version: " + v
  {
    var parts := Split(v, '.');
    if |parts| == 3 && ParseIndex(parts[0]).Some? && ParseIndex(parts[1]).Some? && ParseIndex(parts[2]).Some? then
      Ok(SemVer(ParseIndex(parts[0]).value, ParseIndex(parts[1]).value, ParseIndex(parts[2]).value))
    else Err("Invalid Version: " + v)
  }

  /** The canonical text of a release version. */
  function VersionString(v: SemVer): string
  {
    Join([NatToString(v.major), NatToString(v.minor), NatToString(v.patch)], '.')
  }

  /** Precedence (Semantic Versioning 2.0.0, section 11): major, minor and patch compared numerically, left to right. */
  predicate Gte(a: SemVer, b: SemVer)
  {
    a.major > b.major
    || (a.major == b.major && (a.minor > b.minor || (a.minor == b.minor && a.patch >= b.patch)))
  }

  /** `semver.gte(a, b)`: both versions are parsed, `a` first, and a parse failure throws. */
  function SemverGte(a: string, b: string): (r: Result<bool>)
    ensures r.Ok? <==> ParseVersion(a).Ok? && ParseVersion(b).Ok?
    ensures r.Ok? ==> (r.value <==> Gte(ParseVersion(a).value, ParseVersion(b).value))
    ensures ParseVersion(a).Err? ==> r == Err("Invalid Version: " + a)
  {
    match ParseVersion(a)
    case Err(e) => Err(e)
    case Ok(x) =>
      match ParseVersion(b)
      case Err(e) => Err(e)
      case Ok(y) => Ok(Gte(x, y))
  }

  // ------------------------------------------------------------ parseInt

  /** The longest prefix of s made of decimal digits. */
  function LeadingDigits(s: string): (d: string)
    ensures |d| <= |s| && d == s[..|d|] && AllDigits(d)
    ensures |d| == |s| || !IsDigit(s[|d|])
  {
    if |s| > 0 && IsDigit(s[0]) then [s[0]] + LeadingDigits(s[1..]) else ""
  }

  /**
   * `parseInt(s, 10)`: leading white space is skipped, an optional sign is
   * read, then the longest run of digits; `None` (NaN) when there is none.
   */
  function ParseInt(s: string): (r: Option<int>)
    ensures r.None? <==> |LeadingDigits(SignStripped(TrimStart(s)))| == 0
  {
    var t := TrimStart(s);
    var body := SignStripped(t);
    var d := LeadingDigits(body);
    if |d| == 0 then None
    else
      var n: int := DigitsValue(d);
      if |t| > 0 && t[0] == '-' then Some(-n) else Some(n)
  }

  function SignStripped(t: string): string
  {
    if |t| > 0 && (t[0] == '-' || t[0] == '+') then t[1..] else t
  }

  /** `meta.build ? parseInt(meta.build, 10) : 0`. */
  function BuildNumber(b: Option<string>): Option<int>
  {
    if b.Some? && b.value != "" then ParseInt(b.value) else Some(0)
  }

  /** `x >= y` on numbers: false whenever either side is NaN. */
  predicate NumGte(x: Option<int>, y: Option<int>)
  {
    x.Some? && y.Some? && x.value >= y.value
  }

  // ------------------------------------------------------------ the ladder

  /** `options && options[key]`. */
  predicate OptionSet(options: JsVal, key: string)
  {
    Truthy(options) && Truthy(Prop(options, key))
  }

  /** `meta.commit` is a non-empty string. */
  predicate CommitSet(m: ImageMeta)
  {
    m.commit.Some? && m.commit.value != ""
  }

  /** The metadata, commit and 'latest' checks of compare, in order; `None` when all of them pass. */
  function Gate(i: ImageMeta, b: ImageMeta, options: JsVal): Option<Label>
  {
    if i.imageOwner != b.imageOwner then Some(MismatchedImageOwners)
    else if i.imageName != b.imageName then Some(MismatchedImageNames)
    else if i.branch != b.branch && OptionSet(options, "branch") then Some(MismatchedBranches)
    else if i.owner != b.owner && OptionSet(options, "owner") then Some(MismatchedOwners)
    else if i.repo != b.repo && OptionSet(options, "repo") then Some(MismatchedRepos)
    else if CommitSet(i) && i.commit == b.commit then Some(Equal)
    else if b.version == Some("latest") || i.version == Some("latest") then Some(Upgrade)
    else None
  }

  /** The last check: padded versions by precedence, then build numbers. */
  function ByVersion(i: ImageMeta, b: ImageMeta): (r: Result<Label>)
    ensures r.Ok? ==> r.value == Upgrade || r.value == Obsolete
  {
    match SemverGte(Padded(b.version), Padded(i.version))
    case Err(e) => Err(e)
    case Ok(gte) =>
      if gte then Ok(if NumGte(BuildNumber(b.build), BuildNumber(i.build)) then Upgrade else Obsolete)
      else Ok(Obsolete)
  }

  /** The checks of compare after both images are parsed. */
  function Decide(i: ImageMeta, b: ImageMeta, options: JsVal): Result<Label>
  {
    match Gate(i, b, options)
    case Some(l) => Ok(l)
    case None => ByVersion(i, b)
  }

  /** compare(installed, built, options): the installed image is parsed first, then the built one. */
  function Compare(installed: string, built: string, options: JsVal): Result<Label>
  {
    match Parse(installed)
    case Err(e) => Err(e)
    case Ok(i) =>
      match Parse(built)
      case Err(e) => Err(e)
      case Ok(b) => Decide(i, b, options)
  }

  // ------------------------------------------------------------------ lemmas

  /** Precedence is a total order on release versions. */
  lemma GteTotalOrder(a: SemVer, b: SemVer, c: SemVer)
    ensures Gte(a, a)
    ensures Gte(a, b) || Gte(b, a)
    ensures Gte(a, b) && Gte(b, a) ==> a == b
    ensures Gte(a, b) && Gte(b, c) ==> Gte(a, c)
  {
  }

  /** Every release version reads back from its canonical text. */
  lemma ParseVersionRoundTrip(v: SemVer)
    ensures ParseVersion(VersionString(v)) == Ok(v)
  {
    var parts := [NatToString(v.major), NatToString(v.minor), NatToString(v.patch)];
    forall k | 0 <= k < 3 ensures '.' !in parts[k] {
      NoSeparatorInDigits(parts[k]);
    }
    SplitJoin(parts, '.');
    ParseIndexOfNat(v.major);
    ParseIndexOfNat(v.minor);
    ParseIndexOfNat(v.patch);
  }

  /** A version string that parses is the canonical text of what it parses to. */
  lemma ParseVersionCanonical(s: string)
    requires ParseVersion(s).Ok?
    ensures VersionString(ParseVersion(s).value) == s
  {
    var parts := Split(s, '.');
    JoinSplit(s, '.');
    assert [NatToString(ParseVersion(s).value.major), NatToString(ParseVersion(s).value.minor),
            NatToString(ParseVersion(s).value.patch)] == parts;
  }

  lemma NoSeparatorInDigits(d: string)
    requires AllDigits(d)
    ensures '.' !in d
  {
    forall k | 0 <= k < |d| ensures d[k] != '.' {
      assert IsDigit(d[k]);
    }
  }

  lemma PadCycles()
    ensures Cycle(".0", 1) == "." && Cycle(".0", 2) == ".0"
    ensures Cycle(".0", 3) == ".0." && Cycle(".0", 4) == ".0.0"
  {
    assert Cycle(".0", 1) == Cycle(".0", 0) + ["."[0]];
    assert Cycle(".0", 2) == Cycle(".0", 1) + ["0"[0]];
    assert Cycle(".0", 3) == Cycle(".0", 2) + ["."[0]];
    assert Cycle(".0", 4) == Cycle(".0", 3) + ["0"[0]];
  }

  /** `x.y.z` for digit strings x, y, z without a leading zero parses to their values. */
  lemma ThreeParts(x: nat, y: nat, z: nat)
    requires x < 10 && y < 10 && z < 10
    ensures ParseVersion([DigitChar(x), '.', DigitChar(y), '.', DigitChar(z)]) == Ok(SemVer(x, y, z))
  {
    var dx, dy, dz := [DigitChar(x)], [DigitChar(y)], [DigitChar(z)];
    assert [DigitChar(x), '.', DigitChar(y), '.', DigitChar(z)] == dx + ['.'] + (dy + ['.'] + dz);
    SplitNoSep(dz, '.');
    SplitPrefix(dy, dz, '.');
    SplitPrefix(dx, dy + ['.'] + dz, '.');
    assert NatToString(x) == dx && NatToString(y) == dy && NatToString(z) == dz;
    ParseIndexOfNat(x);
    ParseIndexOfNat(y);
    ParseIndexOfNat(z);
  }

  /** A single digit pads to `d.0.0`. */
  lemma OneDigitPads(d: nat)
    requires d < 10
    ensures ParseVersion(PadEnd(NatToString(d), 5, ".0")) == Ok(SemVer(d, 0, 0))
  {
    PadCycles();
    assert PadEnd(NatToString(d), 5, ".0") == [DigitChar(d), '.', DigitChar(0), '.', DigitChar(0)];
    ThreeParts(d, 0, 0);
  }

  /** `d.e` pads to `d.e.0`. */
  lemma TwoDigitsPad(d: nat, e: nat)
    requires d < 10 && e < 10
    ensures ParseVersion(PadEnd(NatToString(d) + "." + NatToString(e), 5, ".0")) == Ok(SemVer(d, e, 0))
  {
    PadCycles();
    assert PadEnd(NatToString(d) + "." + NatToString(e), 5, ".0") == [DigitChar(d), '.', DigitChar(e), '.', DigitChar(0)];
    ThreeParts(d, e, 0);
  }

  /** Behaviour as coded: a two-digit component in a short version pads to an invalid one, and semver throws. */
  lemma TwoDigitMinorIsInvalid()
    ensures PadEnd("1.10", 5, ".0") == "1.10."
    ensures ParseVersion(PadEnd("1.10", 5, ".0")).Err?
  {
    PadCycles();
    assert PadEnd("1.10", 5, ".0") == "1.10." + Cycle(".0", 0);
    assert "1.10." == "1" + "." + "10" + ".";
    TrailingDotInvalid("1", "10");
  }

  /** A version ending in the separator has an empty last part and is invalid. */
  lemma TrailingDotInvalid(x: string, y: string)
    requires '.' !in x && '.' !in y
    ensures ParseVersion(x + "." + y + ".").Err?
  {
    var s := x + "." + y + ".";
    assert s == x + ['.'] + (y + ['.'] + "");
    SplitNoSep("", '.');
    SplitPrefix(y, "", '.');
    SplitPrefix(x, y + ['.'] + "", '.');
    assert Split(s, '.') == [x, y, ""];
    assert ParseIndex("").None?;
  }

  /** The first check that fails decides; the option-gated checks only count when their option is set. */
  lemma LadderOrder(i: ImageMeta, b: ImageMeta, options: JsVal)
    ensures Decide(i, b, options) == Ok(MismatchedImageOwners) <==> i.imageOwner != b.imageOwner
    ensures Decide(i, b, options) == Ok(MismatchedImageNames) <==> i.imageOwner == b.imageOwner && i.imageName != b.imageName
    ensures Decide(i, b, options) == Ok(MismatchedBranches) <==>
      i.imageOwner == b.imageOwner && i.imageName == b.imageName
      && i.branch != b.branch && OptionSet(options, "branch")
    ensures Decide(i, b, options) == Ok(MismatchedOwners) <==>
      i.imageOwner == b.imageOwner && i.imageName == b.imageName
      && !(i.branch != b.branch && OptionSet(options, "branch"))
      && i.owner != b.owner && OptionSet(options, "owner")
    ensures Decide(i, b, options) == Ok(MismatchedRepos) <==>
      i.imageOwner == b.imageOwner && i.imageName == b.imageName
      && !(i.branch != b.branch && OptionSet(options, "branch"))
      && !(i.owner != b.owner && OptionSet(options, "owner"))
      && i.repo != b.repo && OptionSet(options, "repo")
  {
  }

  /** The metadata checks all pass. */
  predicate SameLine(i: ImageMeta, b: ImageMeta, options: JsVal)
  {
    i.imageOwner == b.imageOwner && i.imageName == b.imageName
    && !(i.branch != b.branch && OptionSet(options, "branch"))
    && !(i.owner != b.owner && OptionSet(options, "owner"))
    && !(i.repo != b.repo && OptionSet(options, "repo"))
  }

  /** 'equal' is given exactly when the metadata checks pass and the installed commit is set and equal to the built one. */
  lemma EqualExactly(i: ImageMeta, b: ImageMeta, options: JsVal)
    ensures Decide(i, b, options) == Ok(Equal) <==> SameLine(i, b, options) && CommitSet(i) && i.commit == b.commit
  {
  }

  /** Past the commit check, a 'latest' on either side is an upgrade. */
  lemma LatestUpgrades(i: ImageMeta, b: ImageMeta, options: JsVal)
    requires SameLine(i, b, options) && !(CommitSet(i) && i.commit == b.commit)
    requires b.version == Some("latest") || i.version == Some("latest")
    ensures Decide(i, b, options) == Ok(Upgrade)
  {
  }

  /**
   * Otherwise the answer is 'upgrade' exactly when the padded built version
   * is at least the installed one and the built build number at least the
   * installed one, and 'obsolete' when both versions are valid but that fails;
   * an invalid padded version throws.
   */
  lemma VersionDecides(i: ImageMeta, b: ImageMeta, options: JsVal)
    requires SameLine(i, b, options) && !(CommitSet(i) && i.commit == b.commit)
    requires b.version != Some("latest") && i.version != Some("latest")
    ensures var bv := ParseVersion(Padded(b.version));
      var iv := ParseVersion(Padded(i.version));
      (Decide(i, b, options).Err? <==> bv.Err? || iv.Err?)
      && (Decide(i, b, options) == Ok(Upgrade) <==>
            bv.Ok? && iv.Ok? && Gte(bv.value, iv.value) && NumGte(BuildNumber(b.build), BuildNumber(i.build)))
      && (Decide(i, b, options) == Ok(Obsolete) <==>
            bv.Ok? && iv.Ok? && !(Gte(bv.value, iv.value) && NumGte(BuildNumber(b.build), BuildNumber(i.build))))
  {
  }

  /** An image compared with itself is never a mismatch; without a commit and with a numeric build it is an upgrade. */
  lemma SelfComparison(image: string, options: JsVal)
    requires Parse(image).Ok?
    ensures Compare(image, image, options).Ok? ==> Compare(image, image, options).value in {Equal, Upgrade, Obsolete}
    ensures var m := Parse(image).value;
      !CommitSet(m) && ParseVersion(Padded(m.version)).Ok? && BuildNumber(m.build).Some?
      ==> Compare(image, image, options) == Ok(Upgrade)
    ensures CommitSet(Parse(image).value) ==> Compare(image, image, options) == Ok(Equal)
  {
    var m := Parse(image).value;
    assert Compare(image, image, options) == Decide(m, m, options);
    SelfDecides(m, options);
  }

  lemma SelfDecides(m: ImageMeta, options: JsVal)
    ensures Decide(m, m, options).Ok? ==> Decide(m, m, options).value in {Equal, Upgrade, Obsolete}
    ensures !CommitSet(m) && ParseVersion(Padded(m.version)).Ok? && BuildNumber(m.build).Some?
      ==> Decide(m, m, options) == Ok(Upgrade)
    ensures CommitSet(m) ==> Decide(m, m, options) == Ok(Equal)
  {
    if ParseVersion(Padded(m.version)).Ok? {
      var v := ParseVersion(Padded(m.version)).value;
      GteTotalOrder(v, v, v);
    }
  }

  /** Behaviour as coded: a build that parseInt reads as NaN makes an image obsolete against itself. */
  lemma NaNBuildIsObsolete(image: string, options: JsVal)
    requires Parse(image).Ok?
    requires var m := Parse(image).value;
      !CommitSet(m) && m.version != Some("latest") && ParseVersion(Padded(m.version)).Ok? && BuildNumber(m.build).None?
    ensures Compare(image, image, options) == Ok(Obsolete)
  {
  }

  /**
   * Upgrades both ways between valid, non-latest versions without an equal
   * commit mean the same version and the same build number.
   */
  lemma MutualUpgradeMeansSame(x: string, y: string, options: JsVal)
    requires Parse(x).Ok? && Parse(y).Ok?
    requires Compare(x, y, options) == Ok(Upgrade) && Compare(y, x, options) == Ok(Upgrade)
    requires Parse(x).value.version != Some("latest") && Parse(y).value.version != Some("latest")
    requires !CommitSet(Parse(x).value) && !CommitSet(Parse(y).value)
    ensures ParseVersion(Padded(Parse(x).value.version)) == ParseVersion(Padded(Parse(y).value.version))
    ensures BuildNumber(Parse(x).value.build) == BuildNumber(Parse(y).value.build)
  {
    var mx := Parse(x).value;
    var my := Parse(y).value;
    assert Compare(x, y, options) == Decide(mx, my, options);
    assert Compare(y, x, options) == Decide(my, mx, options);
    MutualUpgradeDecides(mx, my, options);
  }

  lemma MutualUpgradeDecides(mx: ImageMeta, my: ImageMeta, options: JsVal)
    requires Decide(mx, my, options) == Ok(Upgrade) && Decide(my, mx, options) == Ok(Upgrade)
    requires mx.version != Some("latest") && my.version != Some("latest")
    requires !CommitSet(mx) && !CommitSet(my)
    ensures ParseVersion(Padded(mx.version)) == ParseVersion(Padded(my.version))
    ensures BuildNumber(mx.build) == BuildNumber(my.build)
  {
    assert Gate(mx, my, options).None? && Gate(my, mx, options).None?;
    UpgradeByVersion(mx, my);
    UpgradeByVersion(my, mx);
    var vx := ParseVersion(Padded(mx.version)).value;
    var vy := ParseVersion(Padded(my.version)).value;
    GteTotalOrder(vx, vy, vx);
  }

  lemma UpgradeByVersion(i: ImageMeta, b: ImageMeta)
    requires ByVersion(i, b) == Ok(Upgrade)
    ensures ParseVersion(Padded(b.version)).Ok? && ParseVersion(Padded(i.version)).Ok?
    ensures Gte(ParseVersion(Padded(b.version)).value, ParseVersion(Padded(i.version)).value)
    ensures NumGte(BuildNumber(b.build), BuildNumber(i.build))
  {
  }
}
