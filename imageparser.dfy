/**
 * Docker image reference parsing (src/imageParser.js). An image
 * `registry/owner/name:tag` yields the image owner and name, and the tag
 * yields the source owner, repository, branch, version, build number and
 * commit according to how many underscore-separated parts it has. Tags with
 * more than six parts are picked apart by searching for a commit hash, a
 * semantic version and a build number, in that order.
 */
module ImageParser {
  import opened Wrappers
  import opened Strings

  const TypeError: string := "TypeError"

  // ------------------------------------------------------------- images

  /** parseImage: the (owner, name) of an image path; the first segment is dropped when there are three or more. */
  function ParseImage(image: string): (r: seq<string>)
    ensures |r| >= 2
  {
    var parts := Split(image, '/');
    if |parts| == 1 then ["official", parts[0]]
    else if |parts| == 2 then parts
    else parts[1..]
  }

  // -------------------------------------------------------- tag patterns

  predicate IsHex(c: char) { '0' <= c <= '9' || 'a' <= c <= 'f' }

  /** The number of consecutive decimal digits of s from position k. */
  function DigitRun(s: string, k: nat): (n: nat)
    ensures k + n <= |s| || (k >= |s| && n == 0)
    decreases |s| - k
  {
    if k < |s| && IsDigit(s[k]) then 1 + DigitRun(s, k + 1) else 0
  }

  /** The three regular expressions of the parser: `/_[a-f0-9]{8}/`, `/_[0-9]+[.][0-9]+[.][0-9]+/` and `/_[0-9]+/`. */
  datatype Pattern = ShaPattern | SemverPattern | BuildPattern

  /** The length of the pattern's match starting at position i, if there is one (the digit runs are greedy). */
  function MatchAt(p: Pattern, s: string, i: nat): (r: Option<nat>)
    ensures r.Some? ==> i + r.value <= |s| && r.value >= 2
  {
    if i >= |s| || s[i] != '_' then None
    else
      match p
      case ShaPattern =>
        if i + 9 <= |s| && forall l :: i + 1 <= l < i + 9 ==> IsHex(s[l]) then Some(9) else None
      case BuildPattern =>
        var a := DigitRun(s, i + 1);
        if a > 0 then Some(1 + a) else None
      case SemverPattern =>
        var a := DigitRun(s, i + 1);
        var j := i + 1 + a;
        if a == 0 || j >= |s| || s[j] != '.' then None
        else
          var b := DigitRun(s, j + 1);
          var k := j + 1 + b;
          if b == 0 || k >= |s| || s[k] != '.' then None
          else
            var c := DigitRun(s, k + 1);
            if c == 0 then None else Some(k + 1 + c - i)
  }

  /** `regex.exec(s)`: the leftmost match at or after position i, as (start, length). */
  function FirstMatch(p: Pattern, s: string, i: nat): (r: Option<(nat, nat)>)
    ensures r.Some? ==>
      i <= r.value.0 && MatchAt(p, s, r.value.0) == Some(r.value.1)
      && forall j :: i <= j < r.value.0 ==> MatchAt(p, s, j).None?
    ensures r.None? ==> forall j :: i <= j ==> MatchAt(p, s, j).None?
    decreases |s| - i
  {
    if i >= |s| then None
    else
      match MatchAt(p, s, i)
      case Some(n) => Some((i, n))
      case None => FirstMatch(p, s, i + 1)
  }

  /**
   * extractAndReplace: the first match with its leading underscore removed,
   * and the tag with the first occurrence of the matched text removed; ''
   * and the tag itself when nothing matches.
   */
  function Extract(p: Pattern, tag: string): (r: (string, string))
    ensures FirstMatch(p, tag, 0).None? ==> r == ("", tag)
    ensures FirstMatch(p, tag, 0).Some? ==>
      var m := FirstMatch(p, tag, 0).value;
      r == (tag[m.0 + 1..m.0 + m.1], tag[..m.0] + tag[m.0 + m.1..])
  {
    var m := FirstMatch(p, tag, 0);
    if m.None? then
      ReplaceEmpty(tag);
      ("", ReplaceFirst(tag, "", ""))
    else
      var i := m.value.0;
      var n := m.value.1;
      MatchTextIsFirstOccurrence(p, tag, i, n);
      (ReplaceFirst(tag[i..i + n], "_", ""), ReplaceFirst(tag, tag[i..i + n], ""))
  }

  /** The tag left once the commit hash, the version and the build number are cut out, in that order. */
  function Stripped(tag: string): string
  {
    var (_, tag1) := Extract(ShaPattern, tag);
    var (_, tag2) := Extract(SemverPattern, tag1);
    Extract(BuildPattern, tag2).1
  }

  /** What the stripped tag leaves once the first `owner_` and then the first `image_` are removed from it. */
  function Remainder(tag3: string, repoOwner: string, imageName: string): string
  {
    ReplaceFirst(ReplaceFirst(tag3, repoOwner + "_", ""), imageName + "_", "")
  }

  /**
   * The owner, repo and branch of a problem tag, read from the stripped tag.
   * When exactly one of the image owner and name occurs in it and the
   * remainder still has an underscore, the remainder's first segment names
   * the other one and the rest is the branch; otherwise owner and repo come
   * from the image and the whole remainder is the branch.
   */
  function Named(tag3: string, repoOwner: string, imageName: string): (r: seq<string>)
    ensures |r| == 3
    ensures var hasOwner := Includes(tag3, repoOwner);
      var remainder := Remainder(tag3, repoOwner, imageName);
      if hasOwner != Includes(tag3, imageName) && '_' in remainder then
        var named := if hasOwner then r[1] else r[0];
        (if hasOwner then r[0] == repoOwner else r[1] == imageName)
        && '_' !in named && remainder == named + "_" + r[2]
      else r == [repoOwner, imageName, remainder]
  {
    var hasOwner := Includes(tag3, repoOwner);
    var hasImage := Includes(tag3, imageName);
    var remainder := Remainder(tag3, repoOwner, imageName);
    var parts := Split(remainder, '_');
    FirstSegment(remainder);
    if hasOwner && hasImage then [repoOwner, imageName, remainder]
    else if hasOwner then
      (if |parts| > 2 then [repoOwner, parts[0], Join(parts[1..], '_')]
       else if |parts| == 2 then [repoOwner, parts[0], parts[1]]
       else [repoOwner, imageName, remainder])
    else if hasImage then
      (if |parts| > 2 then [parts[0], imageName, Join(parts[1..], '_')]
       else if |parts| == 2 then [parts[0], imageName, parts[1]]
       else [repoOwner, imageName, remainder])
    else [repoOwner, imageName, remainder]
  }

  /** A string with an underscore is its first segment, an underscore, and the other segments joined back. */
  lemma FirstSegment(s: string)
    ensures var parts := Split(s, '_');
      |parts| >= 2 ==>
        s == parts[0] + "_" + Join(parts[1..], '_') && (|parts| == 2 ==> Join(parts[1..], '_') == parts[1])
  {
    JoinSplit(s, '_');
  }

  /** parseProblemTag: sha, then version, then build number are cut out; what remains names the owner, repo and branch. */
  function ProblemTag(tag: string, repoOwner: string, imageName: string): (r: seq<string>)
    ensures |r| == 6
    ensures var (sha, tag1) := Extract(ShaPattern, tag);
      var (version, tag2) := Extract(SemverPattern, tag1);
      var (build, _) := Extract(BuildPattern, tag2);
      r[3..] == [version, build, sha]
    ensures r[..3] == Named(Stripped(tag), repoOwner, imageName)
  {
    var (sha, tag1) := Extract(ShaPattern, tag);
    var (version, tag2) := Extract(SemverPattern, tag1);
    var (build, tag3) := Extract(BuildPattern, tag2);
    Named(tag3, repoOwner, imageName) + [version, build, sha]
  }

  /**
   * parseTag: the owner, repo, branch, version, build and commit positions
   * (`None` is undefined), or `None` for a tag of three or five parts, for
   * which the source returns nothing.
   */
  function ParseTag(tag: string, repoOwner: string, imageName: string): Option<seq<Option<string>>>
  {
    var parts := Split(tag, '_');
    if |parts| > 6 then Some(Defined(ProblemTag(tag, repoOwner, imageName)))
    else if |parts| == 1 then Some([Some(repoOwner), Some(imageName), Some("master"), Some(tag)])
    else if |parts| == 2 then
      Some([Some(repoOwner), Some(imageName), Some("master"), Some(parts[0]), None, Some(parts[1])])
    else if |parts| == 4 then Some(Defined([repoOwner, imageName] + parts))
    else if |parts| == 6 then Some(Defined(parts))
    else None
  }

  function Defined(s: seq<string>): (r: seq<Option<string>>)
    ensures |r| == |s| && forall i :: 0 <= i < |s| ==> r[i] == Some(s[i])
  {
    if |s| == 0 then [] else [Some(s[0])] + Defined(s[1..])
  }

  /** The object parse returns. */
  datatype ImageMeta = ImageMeta(
    imageName: string,
    imageOwner: string,
    owner: Option<string>,
    repo: Option<string>,
    branch: Option<string>,
    version: Option<string>,
    build: Option<string>,
    commit: Option<string>)

  /** Position i of an array, undefined past its end (array destructuring). */
  function Nth(s: seq<Option<string>>, i: nat): Option<string>
  {
    if i < |s| then s[i] else None
  }

  /** parse: an image without a tag, or a tag parseTag gives up on, throws a TypeError. */
  function Parse(fullImage: string): Result<ImageMeta>
  {
    var pieces := Split(fullImage, ':');
    if |pieces| < 2 then Err(TypeError)
    else
      var names := ParseImage(pieces[0]);
      match ParseTag(pieces[1], names[0], names[1])
      case None => Err(TypeError)
      case Some(t) =>
        Ok(ImageMeta(names[1], names[0], Nth(t, 0), Nth(t, 1), Nth(t, 2), Nth(t, 3), Nth(t, 4), Nth(t, 5)))
  }

  // ------------------------------------------------------------------ lemmas

  lemma ReplaceEmpty(s: string)
    ensures ReplaceFirst(s, "", "") == s
  {
    assert OccursAt(s, "", 0);
    assert IndexOf(s, "") == Some(0);
  }

  /** The run is made of digits and is followed by a non-digit or the end of the string. */
  lemma {:induction false} DigitRunFacts(s: string, k: nat)
    ensures forall l :: k <= l < k + DigitRun(s, k) ==> IsDigit(s[l])
    ensures k + DigitRun(s, k) < |s| ==> !IsDigit(s[k + DigitRun(s, k)])
    decreases |s| - k
  {
    if k < |s| && IsDigit(s[k]) {
      DigitRunFacts(s, k + 1);
    }
  }

  lemma {:induction false} DigitRunExact(s: string, k: nat, m: nat)
    requires k + m <= |s|
    requires forall l :: k <= l < k + m ==> IsDigit(s[l])
    requires k + m == |s| || !IsDigit(s[k + m])
    ensures DigitRun(s, k) == m
    decreases m
  {
    if m > 0 {
      DigitRunExact(s, k + 1, m - 1);
    }
  }

  lemma {:induction false} DigitRunAtLeast(s: string, k: nat, m: nat)
    requires k + m <= |s|
    requires forall l :: k <= l < k + m ==> IsDigit(s[l])
    ensures DigitRun(s, k) >= m
    decreases m
  {
    if m > 0 {
      DigitRunAtLeast(s, k + 1, m - 1);
    }
  }

  /** Wherever the text of a match occurs again, the pattern matches there too. */
  lemma MatchTextMatches(p: Pattern, s: string, i: nat, n: nat, j: nat)
    requires MatchAt(p, s, i) == Some(n) && OccursAt(s, s[i..i + n], j)
    ensures MatchAt(p, s, j).Some?
  {
    assert s[j] == s[j..j + n][0] == s[i..i + n][0] == s[i];
    match p
    case ShaPattern => ShaTextMatches(s, i, j);
    case BuildPattern => assert s[j + 1] == s[j..j + n][1] == s[i..i + n][1] == s[i + 1];
    case SemverPattern => SemverTextMatches(s, i, n, j);
  }

  lemma ShaTextMatches(s: string, i: nat, j: nat)
    requires MatchAt(ShaPattern, s, i) == Some(9) && j + 9 <= |s| && s[j..j + 9] == s[i..i + 9]
    ensures MatchAt(ShaPattern, s, j).Some?
  {
    assert s[j] == s[j..j + 9][0] == s[i..i + 9][0] == s[i];
    forall l | j + 1 <= l < j + 9
      ensures IsHex(s[l])
    {
      assert s[l] == s[j..j + 9][l - j] == s[i..i + 9][l - j] == s[i + (l - j)];
    }
  }

  /** A run of m digits followed by a non-digit inside a window is a run of m digits in an equal window. */
  lemma RunCopied(s: string, i: nat, j: nat, n: nat, x: nat, m: nat)
    requires i + n <= |s| && j + n <= |s| && s[j..j + n] == s[i..i + n] && x + m < n
    requires DigitRun(s, i + x) == m
    ensures DigitRun(s, j + x) == m
  {
    DigitRunFacts(s, i + x);
    forall l | j + x <= l < j + x + m
      ensures IsDigit(s[l])
    {
      CharOfWindow(s, i, j, n, l - j);
    }
    CharOfWindow(s, i, j, n, x + m);
    DigitRunExact(s, j + x, m);
  }

  /** A run of at least m digits ending inside a window is at least as long in an equal window. */
  lemma RunCopiedAtLeast(s: string, i: nat, j: nat, n: nat, x: nat, m: nat)
    requires i + n <= |s| && j + n <= |s| && s[j..j + n] == s[i..i + n] && x + m <= n
    requires DigitRun(s, i + x) >= m
    ensures DigitRun(s, j + x) >= m
  {
    DigitRunFacts(s, i + x);
    forall l | j + x <= l < j + x + m
      ensures IsDigit(s[l])
    {
      CharOfWindow(s, i, j, n, l - j);
    }
    DigitRunAtLeast(s, j + x, m);
  }

  lemma SemverTextMatches(s: string, i: nat, n: nat, j: nat)
    requires MatchAt(SemverPattern, s, i) == Some(n) && j + n <= |s| && s[j..j + n] == s[i..i + n]
    ensures MatchAt(SemverPattern, s, j).Some?
  {
    var a := DigitRun(s, i + 1);
    var b := DigitRun(s, i + 2 + a);
    var c := DigitRun(s, i + 3 + a + b);
    assert n == 3 + a + b + c && a > 0 && b > 0 && c > 0;
    assert s[i] == '_' && s[i + 1 + a] == '.' && s[i + 2 + a + b] == '.';
    SemverRunsCopied(s, i, j, n, a, b, c);
    SemverShape(s, j, a, b);
  }

  lemma SemverRunsCopied(s: string, i: nat, j: nat, n: nat, a: nat, b: nat, c: nat)
    requires n == 3 + a + b + c && c > 0
    requires i + n <= |s| && j + n <= |s| && s[j..j + n] == s[i..i + n]
    requires s[i] == '_' && DigitRun(s, i + 1) == a && s[i + 1 + a] == '.'
    requires DigitRun(s, i + 2 + a) == b && s[i + 2 + a + b] == '.' && DigitRun(s, i + 3 + a + b) == c
    ensures s[j] == '_' && DigitRun(s, j + 1) == a && s[j + 1 + a] == '.'
    ensures DigitRun(s, j + 2 + a) == b && s[j + 2 + a + b] == '.' && DigitRun(s, j + 3 + a + b) > 0
  {
    SemverDigitsCopied(s, i, j, n, a, b, c);
    CharOfWindow(s, i, j, n, 0);
    CharOfWindow(s, i, j, n, 1 + a);
    CharOfWindow(s, i, j, n, 2 + a + b);
  }

  lemma SemverDigitsCopied(s: string, i: nat, j: nat, n: nat, a: nat, b: nat, c: nat)
    requires n == 3 + a + b + c && c > 0
    requires i + n <= |s| && j + n <= |s| && s[j..j + n] == s[i..i + n]
    requires DigitRun(s, i + 1) == a && DigitRun(s, i + 2 + a) == b && DigitRun(s, i + 3 + a + b) == c
    ensures DigitRun(s, j + 1) == a && DigitRun(s, j + 2 + a) == b && DigitRun(s, j + 3 + a + b) >= c
  {
    RunCopied(s, i, j, n, 1, a);
    RunCopied(s, i, j, n, 2 + a, b);
    RunCopiedAtLeast(s, i, j, n, 3 + a + b, c);
  }

  lemma CharOfWindow(s: string, i: nat, j: nat, n: nat, x: nat)
    requires i + n <= |s| && j + n <= |s| && s[j..j + n] == s[i..i + n] && x < n
    ensures s[j + x] == s[i + x]
  {
    assert s[j + x] == s[j..j + n][x];
    assert s[i + x] == s[i..i + n][x];
  }

  /** The semantic-version pattern matches where its three digit runs and separators are. */
  lemma SemverShape(s: string, j: nat, a: nat, b: nat)
    requires j + 3 + a + b < |s| && a > 0 && b > 0
    requires s[j] == '_' && DigitRun(s, j + 1) == a && s[j + 1 + a] == '.'
    requires DigitRun(s, j + 2 + a) == b && s[j + 2 + a + b] == '.' && DigitRun(s, j + 3 + a + b) > 0
    ensures MatchAt(SemverPattern, s, j).Some?
  {
  }

  /** The leftmost match's text first occurs where it was matched, so `replace` removes the match itself. */
  lemma MatchTextIsFirstOccurrence(p: Pattern, s: string, i: nat, n: nat)
    requires FirstMatch(p, s, 0) == Some((i, n))
    ensures ReplaceFirst(s, s[i..i + n], "") == s[..i] + s[i + n..]
    ensures ReplaceFirst(s[i..i + n], "_", "") == s[i + 1..i + n]
  {
    var t := s[i..i + n];
    assert MatchAt(p, s, i) == Some(n);
    forall j: nat | j < i
      ensures !OccursAt(s, t, j)
    {
      if OccursAt(s, t, j) {
        MatchTextMatches(p, s, i, n, j);
      }
    }
    FirstOccurrence(s, t, i);
    assert t[0] == '_';
    assert OccursAt(t, "_", 0);
    FirstOccurrence(t, "_", 0);
  }

  lemma FirstOccurrence(s: string, t: string, i: nat)
    requires OccursAt(s, t, i) && forall j: nat :: j < i ==> !OccursAt(s, t, j)
    ensures IndexOf(s, t) == Some(i)
  {
    assert Includes(s, t);
  }

  /** A path without a slash is an official image. */
  lemma OfficialImage(name: string)
    requires '/' !in name
    ensures ParseImage(name) == ["official", name]
  {
    SplitNoSep(name, '/');
  }

  /** `owner/name` is read back as (owner, name). */
  lemma OwnerAndName(owner: string, name: string)
    requires '/' !in owner && '/' !in name
    ensures ParseImage(owner + "/" + name) == [owner, name]
  {
    SplitJoin([owner, name], '/');
    assert Join([owner, name], '/') == owner + "/" + name;
  }

  /** With a registry in front, only the registry is dropped. */
  lemma RegistryDropped(registry: string, rest: seq<string>)
    requires |rest| >= 2
    requires '/' !in registry && forall i :: 0 <= i < |rest| ==> '/' !in rest[i]
    ensures ParseImage(Join([registry] + rest, '/')) == rest
  {
    var parts := [registry] + rest;
    assert forall i :: 0 <= i < |parts| ==> '/' !in parts[i];
    SplitJoin(parts, '/');
    assert parts[1..] == rest;
  }

  /** A tag of six underscore-free fields is read back field by field. */
  lemma SixPartTag(fields: seq<string>, repoOwner: string, imageName: string)
    requires |fields| == 6 && forall i :: 0 <= i < 6 ==> '_' !in fields[i]
    ensures ParseTag(Join(fields, '_'), repoOwner, imageName) == Some(Defined(fields))
  {
    SplitJoin(fields, '_');
  }

  /** A tag `branch_version_build_sha` takes the owner and repo from the image. */
  lemma FourPartTag(fields: seq<string>, repoOwner: string, imageName: string)
    requires |fields| == 4 && forall i :: 0 <= i < 4 ==> '_' !in fields[i]
    ensures ParseTag(Join(fields, '_'), repoOwner, imageName) == Some(Defined([repoOwner, imageName] + fields))
  {
    SplitJoin(fields, '_');
  }

  /** A tag `version_sha` is on branch master and has no build number. */
  lemma TwoPartTag(version: string, sha: string, repoOwner: string, imageName: string)
    requires '_' !in version && '_' !in sha
    ensures ParseTag(version + "_" + sha, repoOwner, imageName)
      == Some([Some(repoOwner), Some(imageName), Some("master"), Some(version), None, Some(sha)])
  {
    SplitJoin([version, sha], '_');
    assert Join([version, sha], '_') == version + "_" + sha;
  }

  /** A tag without underscores is a version (or 'latest') on branch master. */
  lemma OnePartTag(tag: string, repoOwner: string, imageName: string)
    requires '_' !in tag
    ensures ParseTag(tag, repoOwner, imageName) == Some([Some(repoOwner), Some(imageName), Some("master"), Some(tag)])
  {
    SplitNoSep(tag, '_');
  }

  /** Tags of three or five parts are not understood, and parse throws on them. */
  lemma OddTagsRejected(image: string, tag: string)
    requires ':' !in image && ':' !in tag
    requires |Split(tag, '_')| == 3 || |Split(tag, '_')| == 5
    ensures Parse(image + ":" + tag).Err?
  {
    TaggedSplit(image, tag);
  }

  /** An image reference without a tag throws. */
  lemma UntaggedRejected(fullImage: string)
    requires ':' !in fullImage
    ensures Parse(fullImage).Err?
  {
    SplitNoSep(fullImage, ':');
  }

  /** Tags with more than six parts are read by the problem-tag search, which always fills the last three positions. */
  lemma LongTagsSearched(tag: string, repoOwner: string, imageName: string)
    requires |Split(tag, '_')| > 6
    ensures ParseTag(tag, repoOwner, imageName) == Some(Defined(ProblemTag(tag, repoOwner, imageName)))
    ensures |ParseTag(tag, repoOwner, imageName).value| == 6
  {
  }

  /** The reference `owner/name:o_r_b_v_n_c` parses back to exactly those fields. */
  lemma ParseRoundTrip(owner: string, name: string, fields: seq<string>)
    requires '/' !in owner && '/' !in name && ':' !in owner && ':' !in name
    requires |fields| == 6 && forall i :: 0 <= i < 6 ==> '_' !in fields[i] && ':' !in fields[i]
    ensures Parse(owner + "/" + name + ":" + Join(fields, '_'))
      == Ok(ImageMeta(name, owner, Some(fields[0]), Some(fields[1]), Some(fields[2]),
                      Some(fields[3]), Some(fields[4]), Some(fields[5])))
  {
    var image := owner + "/" + name;
    var tag := Join(fields, '_');
    JoinLacks(fields, '_', ':');
    assert ':' !in image;
    TaggedSplit(image, tag);
    assert owner + "/" + name + ":" + tag == image + ":" + tag;
    OwnerAndName(owner, name);
    SixPartTag(fields, owner, name);
  }

  /** An image with one colon splits into the name and the tag. */
  lemma TaggedSplit(image: string, tag: string)
    requires ':' !in image && ':' !in tag
    ensures Split(image + ":" + tag, ':') == [image, tag]
  {
    SplitJoin([image, tag], ':');
    assert Join([image, tag], ':') == image + ":" + tag;
  }

  lemma {:induction false} JoinLacks(parts: seq<string>, sep: char, c: char)
    requires c != sep && forall i :: 0 <= i < |parts| ==> c !in parts[i]
    ensures c !in Join(parts, sep)
  {
    if |parts| > 1 {
      JoinLacks(parts[1..], sep, c);
    }
  }

  /** A problem tag whose hash, version and build are found gives them back without their underscores. */
  lemma ProblemTagSha(tag: string, repoOwner: string, imageName: string)
    requires FirstMatch(ShaPattern, tag, 0).Some?
    ensures var i := FirstMatch(ShaPattern, tag, 0).value.0;
      i + 9 <= |tag| && ProblemTag(tag, repoOwner, imageName)[5] == tag[i + 1..i + 9]
      && tag[i] == '_' && forall l :: i + 1 <= l < i + 9 ==> IsHex(tag[l])
  {
    var m := FirstMatch(ShaPattern, tag, 0).value;
    assert MatchAt(ShaPattern, tag, m.0) == Some(m.1);
    assert Extract(ShaPattern, tag).0 == tag[m.0 + 1..m.0 + m.1];
  }

  /** A string that does not contain t does not contain t followed by more text. */
  lemma NotIncludedLonger(s: string, t: string, x: string)
    requires !Includes(s, t)
    ensures !Includes(s, t + x)
  {
    if Includes(s, t + x) {
      var i: nat :| i <= |s| && OccursAt(s, t + x, i);
      assert s[i..i + |t|] == (t + x)[..|t|];
      assert OccursAt(s, t, i);
    }
  }

  /** What a suffix of s contains, s contains too. */
  lemma IncludedInSuffix(s: string, k: nat, t: string)
    requires k <= |s| && Includes(s[k..], t)
    ensures Includes(s, t)
  {
    var i: nat :| i <= |s[k..]| && OccursAt(s[k..], t, i);
    assert s[k + i..k + i + |t|] == s[k..][i..i + |t|];
    assert OccursAt(s, t, k + i);
  }

  /** Two strings made of a segment without '_', then '_', then the rest, agree on both parts. */
  lemma SegmentAndRest(a: string, b: string, x: string, y: string)
    requires '_' !in a && '_' !in x && a + "_" + b == x + "_" + y
    ensures a == x && b == y
  {
    SplitPrefix(a, b, '_');
    SplitPrefix(x, y, '_');
    assert a == Split(a + "_" + b, '_')[0];
    assert |a| == |x|;
    assert b == (a + "_" + b)[|a| + 1..];
    assert y == (x + "_" + y)[|x| + 1..];
  }

  /** Neither the image owner nor the image name occurs: the whole stripped tag is the branch. */
  lemma BranchOnlyTag(tag3: string, repoOwner: string, imageName: string)
    requires !Includes(tag3, repoOwner) && !Includes(tag3, imageName)
    ensures Named(tag3, repoOwner, imageName) == [repoOwner, imageName, tag3]
  {
    NotIncludedLonger(tag3, repoOwner, "_");
    NotIncludedLonger(tag3, imageName, "_");
  }

  /** Only the image name occurs, right after a first segment: that segment is the owner and the rest the branch. */
  lemma ImageNamedTag(owner: string, imageName: string, branch: string, repoOwner: string)
    requires '_' !in owner
    requires var tag3 := owner + "_" + imageName + "_" + branch;
      !Includes(tag3, repoOwner) && IndexOf(tag3, imageName + "_") == Some(|owner| + 1)
    ensures Named(owner + "_" + imageName + "_" + branch, repoOwner, imageName) == [owner, imageName, branch]
  {
    var tag3 := owner + "_" + imageName + "_" + branch;
    NotIncludedLonger(tag3, repoOwner, "_");
    CutImageName(owner, imageName, branch);
    var r := Named(tag3, repoOwner, imageName);
    SegmentAndRest(r[0], r[2], owner, branch);
  }

  /** Removing the first `image_` that follows the first segment joins that segment to the branch. */
  lemma CutImageName(owner: string, imageName: string, branch: string)
    requires IndexOf(owner + "_" + imageName + "_" + branch, imageName + "_") == Some(|owner| + 1)
    ensures var tag3 := owner + "_" + imageName + "_" + branch;
      Includes(tag3, imageName) && ReplaceFirst(tag3, imageName + "_", "") == owner + "_" + branch
  {
    var tag3 := owner + "_" + imageName + "_" + branch;
    var i := |owner| + 1;
    assert tag3[i..i + |imageName|] == (imageName + "_")[..|imageName|];
    assert OccursAt(tag3, imageName, i);
    assert tag3[..i] == owner + "_";
    assert tag3[i + |imageName| + 1..] == branch;
  }

  /** Only the image owner occurs, at the start: the next segment is the repo and the rest the branch. */
  lemma OwnerNamedTag(repoOwner: string, repo: string, branch: string, imageName: string)
    requires '_' !in repo
    requires !Includes(repoOwner + "_" + repo + "_" + branch, imageName)
    ensures Named(repoOwner + "_" + repo + "_" + branch, repoOwner, imageName) == [repoOwner, repo, branch]
  {
    var tag3 := repoOwner + "_" + repo + "_" + branch;
    var k := |repoOwner| + 1;
    assert OccursAt(tag3, repoOwner + "_", 0);
    assert OccursAt(tag3, repoOwner, 0);
    var rest := repo + "_" + branch;
    assert tag3[k..] == rest;
    assert ReplaceFirst(tag3, repoOwner + "_", "") == rest;
    if Includes(rest, imageName + "_") {
      IncludedInSuffix(tag3, k, imageName + "_");
      NotIncludedLonger(tag3, imageName, "_");
    }
    var r := Named(tag3, repoOwner, imageName);
    SegmentAndRest(r[1], r[2], repo, branch);
  }
}
