/**
 * The floating tags of `bin/release.sh`: which of "vM.m", "vM" and "latest" a release takes over,
 * and that after any history of releases they point at the greatest release of their line.
 */
module ReleaseTags {
  import opened Text
  import opened Versions

  /** `grep`: the tags that pass. */
  function Grep(tags: seq<string>, passes: string -> bool): (kept: seq<string>)
    ensures forall s :: s in kept <==> s in tags && passes(s)
  {
    if tags == [] then [] else (if passes(tags[0]) then [tags[0]] else []) + Grep(tags[1..], passes)
  }

  ghost predicate PatchLatest(tags: set<string>, major: string, minor: string, patch: string) {
    forall s :: s in tags && InLine(s, major, minor) ==> !TestGt(ParsePatch(s), patch)
  }

  ghost predicate MinorLatest(tags: set<string>, major: string, minor: string) {
    forall s :: s in tags && InMajor(s, major) ==> !TestGt(ParseMinor(s), minor)
  }

  ghost predicate MajorLatest(tags: set<string>, major: string) {
    forall s :: s in tags && IsFullTag(s) ==> !TestGt(ParseMajor(s), major)
  }

  function Elements(tags: seq<string>): set<string> {
    set s | s in tags
  }

  method IsLatestPatch(allTags: seq<string>, targetMajor: string, targetMinor: string, targetPatch: string) returns (result: bool)
    ensures result <==> PatchLatest(Elements(allTags), targetMajor, targetMinor, targetPatch)
  {
    var sameMajorMinors := Grep(allTags, s => InLine(s, targetMajor, targetMinor));
    result := true;
    var i := 0;
    while i < |sameMajorMinors|
      invariant 0 <= i <= |sameMajorMinors|
      invariant result && forall j :: 0 <= j < i ==> !TestGt(ParsePatch(sameMajorMinors[j]), targetPatch)
    {
      var v := sameMajorMinors[i];
      if TestGt(ParsePatch(v), targetPatch) {
        result := false;
        assert v in sameMajorMinors && v in Elements(allTags);
        break;
      }
      i := i + 1;
    }
    forall s | result && s in Elements(allTags) && InLine(s, targetMajor, targetMinor)
      ensures !TestGt(ParsePatch(s), targetPatch)
    {
      assert s in sameMajorMinors;
    }
  }

  method IsLatestMinor(allTags: seq<string>, targetMajor: string, targetMinor: string) returns (result: bool)
    ensures result <==> MinorLatest(Elements(allTags), targetMajor, targetMinor)
  {
    var sameMajors := Grep(allTags, s => InMajor(s, targetMajor));
    result := true;
    var i := 0;
    while i < |sameMajors|
      invariant 0 <= i <= |sameMajors|
      invariant result && forall j :: 0 <= j < i ==> !TestGt(ParseMinor(sameMajors[j]), targetMinor)
    {
      if TestGt(ParseMinor(sameMajors[i]), targetMinor) {
        result := false;
        assert sameMajors[i] in sameMajors;
        break;
      }
      i := i + 1;
    }
  }

  method IsLatestMajor(allTags: seq<string>, targetMajor: string) returns (result: bool)
    ensures result <==> MajorLatest(Elements(allTags), targetMajor)
  {
    var allFullTags := Grep(allTags, IsFullTag);
    result := true;
    var i := 0;
    while i < |allFullTags|
      invariant 0 <= i <= |allFullTags|
      invariant result && forall j :: 0 <= j < i ==> !TestGt(ParseMajor(allFullTags[j]), targetMajor)
    {
      if TestGt(ParseMajor(allFullTags[i]), targetMajor) {
        result := false;
        assert allFullTags[i] in allFullTags;
        break;
      }
      i := i + 1;
    }
  }

  /** The floating tags a target version takes over, given all tags of the repository. */
  ghost function Extra(tags: set<string>, target: string): seq<string> {
    var major, minor, patch := ParseMajor(target), ParseMinor(target), ParsePatch(target);
    if !PatchLatest(tags, major, minor, patch) then []
    else if !MinorLatest(tags, major, minor) then [LineTag(major, minor)]
    else if !MajorLatest(tags, major) then [LineTag(major, minor), MajorTag(major)]
    else [LineTag(major, minor), MajorTag(major), LATEST]
  }

  /** `resolveExtraTags`, for a listing of the repository's tags in any order. */
  method ResolveExtraTags(listing: seq<string>, targetVersion: string) returns (extraTags: seq<string>)
    ensures extraTags == Extra(Elements(listing), targetVersion)
  {
    var allTags := Grep(listing, IsFullTag);
    var targetMajor := ParseMajor(targetVersion);
    var targetMinor := ParseMinor(targetVersion);
    var targetPatch := ParsePatch(targetVersion);
    var latestPatch := IsLatestPatch(allTags, targetMajor, targetMinor, targetPatch);
    var latestMinor := IsLatestMinor(allTags, targetMajor, targetMinor);
    var latestMajor := IsLatestMajor(allTags, targetMajor);
    extraTags := [];
    if latestPatch {
      extraTags := [LineTag(targetMajor, targetMinor)];
      if latestMinor {
        extraTags := extraTags + [MajorTag(targetMajor)];
        if latestMajor {
          extraTags := extraTags + [LATEST];
        }
      }
    }
  }

  /** Every release tag of the repository is a version as Semantic Versioning writes it. */
  ghost predicate Canonical(tags: set<string>) {
    forall s {:trigger Written(s)} :: s in tags && Written(s) ==> exists v :: s == Print(v)
  }

  lemma FullTagsAreWritten(tags: set<string>)
    ensures forall s :: s in tags ==> (IsFullTag(s) <==> Written(s))
  {
    forall s | s in tags
      ensures IsFullTag(s) <==> Written(s)
    {
      FullTagMeans(s);
    }
  }

  /** Exceeds as a decimal number that the shell can compare. */
  predicate Exceeds(a: string, b: string)
    requires IsNumeral(a) && IsNumeral(b)
  {
    Value(a) > Value(b) && Value(a) <= 9223372036854775807
  }

  /** What the filters and fields make of a written tag. */
  lemma PartsOfTag(s: string, a: string, b: string, c: string)
    requires IsNumeral(a) && IsNumeral(b) && IsNumeral(c) && s == "v" + a + "." + b + "." + c
    ensures IsFullTag(s) && ParseMajor(s) == a && ParseMinor(s) == b && ParsePatch(s) == c
    ensures forall major :: InMajor(s, major) <==> major == a
    ensures forall major, minor :: InLine(s, major, minor) <==> major == a && minor == b
  {
    WrittenParts(a, b, c);
  }

  lemma PartsOfFullTag(s: string) returns (a: string, b: string, c: string)
    requires IsFullTag(s)
    ensures IsNumeral(a) && IsNumeral(b) && IsNumeral(c) && s == "v" + a + "." + b + "." + c
  {
    FullTagMeans(s);
    a, b, c :| IsNumeral(a) && IsNumeral(b) && IsNumeral(c) && s == "v" + a + "." + b + "." + c;
  }

  /** `isLatestPatch` on the text of the tags: none of the line has a greater patch, as far as the shell compares. */
  lemma PatchLatestOnText(tags: set<string>, major: string, minor: string, patch: string)
    requires IsNumeral(major) && IsNumeral(minor) && IsNumeral(patch)
    ensures PatchLatest(tags, major, minor, patch) <==>
      forall c :: IsNumeral(c) && "v" + major + "." + minor + "." + c in tags ==> !Exceeds(c, patch)
  {
    if PatchLatest(tags, major, minor, patch) {
      forall c | IsNumeral(c) && "v" + major + "." + minor + "." + c in tags
        ensures !Exceeds(c, patch)
      {
        PartsOfTag("v" + major + "." + minor + "." + c, major, minor, c);
        TestGtMeans(c, patch);
      }
    } else {
      var s :| s in tags && InLine(s, major, minor) && TestGt(ParsePatch(s), patch);
      var a, b, c := PartsOfFullTag(s);
      PartsOfTag(s, a, b, c);
      TestGtMeans(c, patch);
      assert IsNumeral(c) && "v" + major + "." + minor + "." + c in tags && Exceeds(c, patch);
    }
  }

  /** `isLatestMinor` likewise: none of the major has a greater minor. */
  lemma MinorLatestOnText(tags: set<string>, major: string, minor: string)
    requires IsNumeral(major) && IsNumeral(minor)
    ensures MinorLatest(tags, major, minor) <==>
      forall b, c :: IsNumeral(b) && IsNumeral(c) && "v" + major + "." + b + "." + c in tags ==> !Exceeds(b, minor)
  {
    if MinorLatest(tags, major, minor) {
      forall b, c | IsNumeral(b) && IsNumeral(c) && "v" + major + "." + b + "." + c in tags
        ensures !Exceeds(b, minor)
      {
        PartsOfTag("v" + major + "." + b + "." + c, major, b, c);
        TestGtMeans(b, minor);
      }
    } else {
      var s :| s in tags && InMajor(s, major) && TestGt(ParseMinor(s), minor);
      var a, b, c := PartsOfFullTag(s);
      PartsOfTag(s, a, b, c);
      TestGtMeans(b, minor);
      assert IsNumeral(b) && IsNumeral(c) && "v" + major + "." + b + "." + c in tags && Exceeds(b, minor);
    }
  }

  /** `isLatestMajor` likewise: no release has a greater major. */
  lemma MajorLatestOnText(tags: set<string>, major: string)
    requires IsNumeral(major)
    ensures MajorLatest(tags, major) <==>
      forall a, b, c :: IsNumeral(a) && IsNumeral(b) && IsNumeral(c) && "v" + a + "." + b + "." + c in tags ==> !Exceeds(a, major)
  {
    if MajorLatest(tags, major) {
      forall a, b, c | IsNumeral(a) && IsNumeral(b) && IsNumeral(c) && "v" + a + "." + b + "." + c in tags
        ensures !Exceeds(a, major)
      {
        PartsOfTag("v" + a + "." + b + "." + c, a, b, c);
        TestGtMeans(a, major);
      }
    } else {
      var s :| s in tags && IsFullTag(s) && TestGt(ParseMajor(s), major);
      var a, b, c := PartsOfFullTag(s);
      PartsOfTag(s, a, b, c);
      TestGtMeans(a, major);
      assert IsNumeral(a) && IsNumeral(b) && IsNumeral(c) && "v" + a + "." + b + "." + c in tags && Exceeds(a, major);
    }
  }

  /** Tags of another form, those of prereleases for example, can be added to a listing without changing any answer. */
  lemma OtherTagsDoNotMatter(tags: set<string>, others: set<string>, target: string, major: string, minor: string, patch: string)
    requires forall s :: s in others ==> !Written(s)
    ensures PatchLatest(tags + others, major, minor, patch) <==> PatchLatest(tags, major, minor, patch)
    ensures MinorLatest(tags + others, major, minor) <==> MinorLatest(tags, major, minor)
    ensures MajorLatest(tags + others, major) <==> MajorLatest(tags, major)
    ensures Extra(tags + others, target) == Extra(tags, target)
  {
    forall s | s in others
      ensures !IsFullTag(s)
    {
      FullTagMeans(s);
    }
    FilteredTagsDoNotMatter(tags, others, major, minor, patch);
    FilteredTagsDoNotMatter(tags, others, ParseMajor(target), ParseMinor(target), ParsePatch(target));
  }

  lemma FilteredTagsDoNotMatter(tags: set<string>, others: set<string>, major: string, minor: string, patch: string)
    requires forall s :: s in others ==> !IsFullTag(s)
    ensures PatchLatest(tags + others, major, minor, patch) <==> PatchLatest(tags, major, minor, patch)
    ensures MinorLatest(tags + others, major, minor) <==> MinorLatest(tags, major, minor)
    ensures MajorLatest(tags + others, major) <==> MajorLatest(tags, major)
  {
    forall s, a, b | s in others
      ensures !InMajor(s, a) && !InLine(s, a, b)
    {
    }
  }

  /** For one: v1.2.5 takes over its three floating tags although v1.3.0-beta is listed. */
  lemma BetaDoesNotHoldBack()
    ensures Extra({"v1.2.5", "v1.3.0-beta"}, "v1.2.5") == ["v1.2", "v1", "latest"]
  {
    assert "v1.3.0-beta"[6] == '-';
    HyphenIsNotWritten("v1.3.0-beta");
    AloneText(Version(1, 2, 5));
    AddOther("v1.2.5", "v1.3.0-beta");
  }

  lemma AddOther(tag: string, other: string)
    requires !Written(other)
    ensures Extra({tag, other}, tag) == Extra({tag}, tag)
  {
    OtherTagsDoNotMatter({tag}, {other}, tag, "", "", "");
    assert {tag} + {other} == {tag, other};
  }

  lemma AloneText(v: Version)
    requires v == Version(1, 2, 5)
    ensures Extra({"v1.2.5"}, "v1.2.5") == ["v1.2", "v1", "latest"]
  {
    AloneTakesAll(v);
    PrintIsWritten(v);
    assert Dec(v.major) == "1" && Dec(v.minor) == "2" && Dec(v.patch) == "5";
    assert Print(v) == "v1.2.5";
    assert LineTag("1", "2") == "v1.2" && MajorTag("1") == "v1";
  }

  /** A release without others takes over all three. */
  lemma AloneTakesAll(v: Version)
    ensures Extra({Print(v)}, Print(v)) == [LineTag(Dec(v.major), Dec(v.minor)), MajorTag(Dec(v.major)), LATEST]
  {
    forall u | Print(u) in {Print(v)}
      ensures u == v
    {
      PrintInjective(u, v);
    }
    ExtraMeans({Print(v)}, v);
  }

  predicate SameLine(a: Version, b: Version) {
    a.major == b.major && a.minor == b.minor
  }

  /** No release of the repository is greater: in its line, in its major, overall. */
  ghost predicate TopOfLine(tags: set<string>, v: Version) {
    forall u :: Print(u) in tags && SameLine(u, v) ==> !Less(v, u)
  }

  ghost predicate TopOfMajor(tags: set<string>, v: Version) {
    forall u :: Print(u) in tags && u.major == v.major ==> !Less(v, u)
  }

  ghost predicate Top(tags: set<string>, v: Version) {
    forall u :: Print(u) in tags ==> !Less(v, u)
  }

  /** The number in which a greater version exceeds a smaller one. */
  function Deciding(v: Version, u: Version): nat
    requires Less(v, u)
  {
    if v.major < u.major then u.major else if v.minor < u.minor then u.minor else u.patch
  }

  /** The greater release the three checks see, if they see one. */
  ghost predicate Seen(tags: set<string>, v: Version, u: Version) {
    Print(u) in tags && Less(v, u) && Deciding(v, u) <= 9223372036854775807
  }

  lemma PatchLatestMeans(tags: set<string>, v: Version)
    requires Canonical(tags)
    ensures PatchLatest(tags, Dec(v.major), Dec(v.minor), Dec(v.patch)) <==> forall u :: Seen(tags, v, u) ==> !SameLine(u, v)
  {
    PrintParse(v);
    FullTagsAreWritten(tags);
    forall u | Print(u) in tags
      ensures InLine(Print(u), Dec(v.major), Dec(v.minor)) <==> SameLine(u, v)
      ensures TestGt(ParsePatch(Print(u)), Dec(v.patch)) <==> v.patch < u.patch <= 9223372036854775807
    {
      PrintParse(u);
      TestGtOfDec(u.patch, v.patch);
    }
  }

  lemma MinorLatestMeans(tags: set<string>, v: Version)
    requires Canonical(tags)
    ensures MinorLatest(tags, Dec(v.major), Dec(v.minor)) <==>
      forall u :: Seen(tags, v, u) && u.major == v.major ==> SameLine(u, v)
  {
    FullTagsAreWritten(tags);
    forall u | Print(u) in tags
      ensures InMajor(Print(u), Dec(v.major)) <==> u.major == v.major
      ensures TestGt(ParseMinor(Print(u)), Dec(v.minor)) <==> v.minor < u.minor <= 9223372036854775807
    {
      PrintParse(u);
      TestGtOfDec(u.minor, v.minor);
    }
  }

  lemma MajorLatestMeans(tags: set<string>, v: Version)
    requires Canonical(tags)
    ensures MajorLatest(tags, Dec(v.major)) <==> forall u :: Seen(tags, v, u) ==> u.major == v.major
  {
    FullTagsAreWritten(tags);
    forall u | Print(u) in tags
      ensures IsFullTag(Print(u))
      ensures TestGt(ParseMajor(Print(u)), Dec(v.major)) <==> v.major < u.major <= 9223372036854775807
    {
      PrintParse(u);
      TestGtOfDec(u.major, v.major);
    }
  }

  /** How many floating tags a release takes over is a matter of how far up a greater release is seen. */
  lemma ExtraMeans(tags: set<string>, v: Version)
    requires Canonical(tags)
    ensures var extra := Extra(tags, Print(v));
      && extra <= [LineTag(Dec(v.major), Dec(v.minor)), MajorTag(Dec(v.major)), LATEST]
      && (|extra| >= 1 <==> forall u :: Seen(tags, v, u) ==> !SameLine(u, v))
      && (|extra| >= 2 <==> forall u :: Seen(tags, v, u) ==> u.major != v.major)
      && (|extra| >= 3 <==> forall u :: !Seen(tags, v, u))
  {
    PrintParse(v);
    PatchLatestMeans(tags, v);
    MinorLatestMeans(tags, v);
    MajorLatestMeans(tags, v);
  }

  /**
   * Each of the nested checks agrees with precedence exactly when, if there is a greater release in
   * its scope (the line, the major, all releases), one of those is greater by a number within 64 bits,
   * beyond which the shell does not compare.
   */
  lemma WhenNestedIsPrecedence(tags: set<string>, v: Version)
    requires Canonical(tags)
    ensures (|Extra(tags, Print(v))| >= 1 <==> TopOfLine(tags, v)) <==>
      ((exists u :: Print(u) in tags && Less(v, u) && SameLine(u, v)) ==> (exists u :: Seen(tags, v, u) && SameLine(u, v)))
    ensures (|Extra(tags, Print(v))| >= 2 <==> TopOfMajor(tags, v)) <==>
      ((exists u :: Print(u) in tags && Less(v, u) && u.major == v.major) ==> (exists u :: Seen(tags, v, u) && u.major == v.major))
    ensures (|Extra(tags, Print(v))| >= 3 <==> Top(tags, v)) <==>
      ((exists u :: Print(u) in tags && Less(v, u)) ==> (exists u :: Seen(tags, v, u)))
  {
    ExtraMeans(tags, v);
  }

  /** All numbers of all releases fit the shell's integers. */
  ghost predicate Fits(tags: set<string>) {
    forall u :: Print(u) in tags ==>
      u.major <= 9223372036854775807 && u.minor <= 9223372036854775807 && u.patch <= 9223372036854775807
  }

  lemma ExtraIsPrecedence(tags: set<string>, v: Version)
    requires Canonical(tags) && Fits(tags)
    ensures var extra := Extra(tags, Print(v));
      && (|extra| >= 1 <==> TopOfLine(tags, v))
      && (|extra| >= 2 <==> TopOfMajor(tags, v))
      && (|extra| >= 3 <==> Top(tags, v))
      && extra <= [LineTag(Dec(v.major), Dec(v.minor)), MajorTag(Dec(v.major)), LATEST]
  {
    ExtraMeans(tags, v);
    assert forall u :: Print(u) in tags && Less(v, u) ==> Seen(tags, v, u);
  }

  /** Then the nested checks are precedence: in the line, in the major, and overall. */
  lemma NestedIsPrecedence(tags: set<string>, v: Version)
    requires Canonical(tags)
    requires forall u :: Print(u) in tags ==>
      u.major <= 9223372036854775807 && u.minor <= 9223372036854775807 && u.patch <= 9223372036854775807
    ensures var extra := Extra(tags, Print(v));
      && (|extra| >= 1 <==> TopOfLine(tags, v))
      && (|extra| >= 2 <==> TopOfMajor(tags, v))
      && (|extra| >= 3 <==> Top(tags, v))
      && extra <= ["v" + Dec(v.major) + "." + Dec(v.minor), "v" + Dec(v.major), "latest"]
  {
    ExtraIsPrecedence(tags, v);
  }

  /** A release that is greater by an oversized patch is not seen: the smaller one takes all floating tags over. */
  lemma OversizedPatchIsIgnored(v: Version, huge: Version)
    requires SameLine(huge, v) && v.patch < huge.patch && huge.patch > 9223372036854775807
    ensures |Extra({Print(v), Print(huge)}, Print(v))| == 3 && Less(v, huge)
  {
    var tags := {Print(v), Print(huge)};
    forall u | Print(u) in tags
      ensures u == v || u == huge
    {
      OneOfThree(v, huge, v, u);
    }
    ExtraMeans(tags, v);
  }

  /** For one: v1.0.0 takes over all floating tags although v1.0.9223372036854775808 is listed. */
  lemma OversizedPatchIsNotSeen()
    ensures var small, huge := Version(1, 0, 0), Version(1, 0, 9223372036854775808);
      var tags := {Print(small), Print(huge)};
      |Extra(tags, Print(small))| == 3 && Less(small, huge)
  {
    OversizedPatchIsIgnored(Version(1, 0, 0), Version(1, 0, 9223372036854775808));
  }

  /**
   * A release with an oversized patch is overlooked also where a greater major is seen: the older one
   * takes over the tags of its line and its major, and is not the greatest of either.
   */
  lemma OversizedPatchIsOverlooked(v: Version, huge: Version, next: Version)
    requires SameLine(huge, v) && huge.patch > 9223372036854775807 && v.patch < huge.patch
    requires v.major < next.major <= 9223372036854775807
    ensures var tags := {Print(v), Print(huge), Print(next)};
      |Extra(tags, Print(v))| == 2 && !TopOfLine(tags, v) && !TopOfMajor(tags, v) && Seen(tags, v, next)
  {
    var tags := {Print(v), Print(huge), Print(next)};
    forall u | Print(u) in tags
      ensures u == v || u == huge || u == next
    {
      OneOfThree(v, huge, next, u);
    }
    ExtraMeans(tags, v);
    assert Print(huge) in tags && Less(v, huge);
    assert Seen(tags, v, next);
  }

  /** For one: v1.0.0 takes over `v1.0` and `v1` although v1.0.9223372036854775808 is listed, with v2.0.0 listed too. */
  lemma OversizedPatchInSeenMajor()
    ensures var small, huge, next := Version(1, 0, 0), Version(1, 0, 9223372036854775808), Version(2, 0, 0);
      var tags := {Print(small), Print(huge), Print(next)};
      |Extra(tags, Print(small))| == 2 && !TopOfLine(tags, small) && !TopOfMajor(tags, small) && Seen(tags, small, next)
  {
    OversizedPatchIsOverlooked(Version(1, 0, 0), Version(1, 0, 9223372036854775808), Version(2, 0, 0));
  }

  lemma OneOfThree(a: Version, b: Version, c: Version, u: Version)
    requires Print(u) in {Print(a), Print(b), Print(c)}
    ensures u == a || u == b || u == c
  {
    if Print(u) == Print(a) {
      PrintInjective(u, a);
    } else if Print(u) == Print(b) {
      PrintInjective(u, b);
    } else {
      PrintInjective(u, c);
    }
  }

  function Retag(tags: map<string, string>, extra: seq<string>, image: string): map<string, string>
    decreases |extra|
  {
    if extra == [] then tags else Retag(tags[extra[0] := image], extra[1..], image)
  }

  lemma {:induction false} RetagAt(tags: map<string, string>, extra: seq<string>, image: string, s: string)
    ensures s in Retag(tags, extra, image) <==> s in extra || s in tags
    ensures s in Retag(tags, extra, image) ==> Retag(tags, extra, image)[s] == if s in extra then image else tags[s]
    decreases |extra|
  {
    if extra == [] {
    } else {
      RetagAt(tags[extra[0] := image], extra[1..], image, s);
    }
  }

  /** What publishing an image as a version makes of the registry's tags. */
  ghost function Published(tags: map<string, string>, v: Version, image: string): map<string, string> {
    var pushed := tags[Print(v) := image];
    Retag(pushed, Extra(pushed.Keys, Print(v)), image)
  }

  /** The image repository: tags and the images they name. */
  class Registry {
    var tags: map<string, string>

    constructor (tags: map<string, string>)
      ensures this.tags == tags
    {
      this.tags := tags;
    }

    /** `oras repo tags`. */
    method ListTags() returns (listing: seq<string>)
      ensures Elements(listing) == tags.Keys
    {
      listing := [];
      var left := tags.Keys;
      while left != {}
        invariant left <= tags.Keys
        invariant forall s :: s in listing <==> s in tags && s !in left
        decreases |left|
      {
        var s :| s in left;
        listing := listing + [s];
        left := left - {s};
      }
    }

    /** The `publish` case: pushes the image under its version and moves the floating tags. */
    method Publish(version: Version, image: string)
      modifies this
      ensures tags == Published(old(tags), version, image)
    {
      var fullVersion := Print(version);
      tags := tags[fullVersion := image];
      ghost var pushed := tags;
      var listing := ListTags();
      var extraTags := ResolveExtraTags(listing, fullVersion);
      var i := 0;
      while i < |extraTags|
        invariant 0 <= i <= |extraTags|
        invariant Retag(tags, extraTags[i..], image) == Retag(pushed, extraTags, image)
      {
        tags := tags[extraTags[i] := image];
        assert extraTags[i..][1..] == extraTags[i + 1..];
        i := i + 1;
      }
    }
  }
}
