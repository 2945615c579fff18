/** Over any history of releases, in any order of versions, the floating tags name the greatest releases. */
module ReleaseHistory {
  import opened ReleaseTags
  import opened Text
  import opened Versions

  type Tags = map<string, string>

  function LineOf(v: Version): string {
    LineTag(Dec(v.major), Dec(v.minor))
  }

  function MajorOf(v: Version): string {
    MajorTag(Dec(v.major))
  }

  /** `vM.m`, `vM` and `latest` name the image of the greatest release of the line, of the major, and of all. */
  ghost predicate NamesGreatest(tags: Tags) {
    forall v :: Print(v) in tags ==>
      && (TopOfLine(tags.Keys, v) ==> LineOf(v) in tags && tags[LineOf(v)] == tags[Print(v)])
      && (TopOfMajor(tags.Keys, v) ==> MajorOf(v) in tags && tags[MajorOf(v)] == tags[Print(v)])
      && (Top(tags.Keys, v) ==> LATEST in tags && tags[LATEST] == tags[Print(v)])
  }

  /** There are no floating tags without a release behind them. */
  ghost predicate NoStrayFloats(tags: Tags) {
    && (forall major: nat, minor: nat :: LineTag(Dec(major), Dec(minor)) in tags ==>
          exists v :: Print(v) in tags && v.major == major && v.minor == minor)
    && (forall major: nat :: MajorTag(Dec(major)) in tags ==> exists v :: Print(v) in tags && v.major == major)
    && (LATEST in tags ==> exists v :: Print(v) in tags)
  }

  /** A registry whose floating tags are right. */
  ghost predicate Agrees(tags: Tags) {
    Canonical(tags.Keys) && Fits(tags.Keys) && NamesGreatest(tags) && NoStrayFloats(tags)
  }

  /** None of the floating tags is a release tag or another floating tag. */
  lemma TagsDiffer(v: Version, u: Version)
    ensures Print(v) != LineOf(u) && Print(v) != MajorOf(u) && Print(v) != LATEST
    ensures LineOf(v) != MajorOf(u) && LineOf(v) != LATEST && MajorOf(v) != LATEST
    ensures LineOf(v) == LineOf(u) <==> SameLine(v, u)
    ensures MajorOf(v) == MajorOf(u) <==> v.major == u.major
    ensures Print(v) == Print(u) <==> v == u
  {
    PrintParse(v);
    FloatsAreNotReleases(Dec(u.major), Dec(u.minor), Dec(u.major));
    FloatsAreNotReleases(Dec(v.major), Dec(v.minor), Dec(u.major));
    if LineOf(v) == LineOf(u) {
      LineTagInjective(Dec(v.major), Dec(v.minor), Dec(u.major), Dec(u.minor));
      DecInjective(v.major, u.major);
      DecInjective(v.minor, u.minor);
    }
    if MajorOf(v) == MajorOf(u) {
      assert MajorOf(v)[1..] == Dec(v.major) && MajorOf(u)[1..] == Dec(u.major);
      DecInjective(v.major, u.major);
    }
    if Print(v) == Print(u) {
      PrintInjective(v, u);
    }
  }

  predicate InBounds(v: Version) {
    v.major <= 9223372036854775807 && v.minor <= 9223372036854775807 && v.patch <= 9223372036854775807
  }

  lemma PushedIsCanonical(tags: Tags, v: Version, image: string)
    requires Canonical(tags.Keys) && Fits(tags.Keys) && InBounds(v)
    ensures Canonical(tags[Print(v) := image].Keys) && Fits(tags[Print(v) := image].Keys)
  {
    forall u | Print(u) in tags[Print(v) := image]
      ensures InBounds(u)
    {
      TagsDiffer(u, v);
    }
  }

  /** The tags that publishing a version sets, given all tags with its own. */
  ghost predicate Moved(keys: set<string>, v: Version, s: string) {
    || s == Print(v)
    || (s == LineOf(v) && TopOfLine(keys, v))
    || (s == MajorOf(v) && TopOfMajor(keys, v))
    || (s == LATEST && Top(keys, v))
  }

  lemma PublishedTag(tags: Tags, v: Version, image: string, s: string)
    requires Canonical(tags.Keys) && Fits(tags.Keys) && InBounds(v)
    ensures var n, moved := Published(tags, v, image), Moved(tags.Keys + {Print(v)}, v, s);
      (s in n <==> moved || s in tags) && (s in n ==> n[s] == if moved then image else tags[s])
  {
    var pushed := tags[Print(v) := image];
    assert pushed.Keys == tags.Keys + {Print(v)};
    PushedIsCanonical(tags, v, image);
    ExtraIsPrecedence(pushed.Keys, v);
    RetagAt(pushed, Extra(pushed.Keys, Print(v)), image, s);
    FirstOfThree(Extra(pushed.Keys, Print(v)), LineOf(v), MajorOf(v), LATEST, s);
  }

  lemma FirstOfThree(extra: seq<string>, a: string, b: string, c: string, s: string)
    requires extra <= [a, b, c]
    ensures s in extra <==> (|extra| >= 1 && s == a) || (|extra| >= 2 && s == b) || (|extra| >= 3 && s == c)
  {
    assert extra == [a, b, c][..|extra|];
    assert |extra| == 0 || |extra| == 1 || |extra| == 2 || |extra| == 3;
    if |extra| >= 1 {
      assert extra[0] == a;
    }
    if |extra| >= 2 {
      assert extra[1] == b;
    }
    if |extra| >= 3 {
      assert extra[2] == c;
    }
  }

  /**
   * Tag by tag, what publishing does: `vM.m.p` names the image, so does `vM.m` if the version is the
   * greatest of its line, `vM` if of its major, and `latest` if of all; no other tag changes.
   */
  lemma PublishedAt(tags: Tags, v: Version, image: string, s: string)
    requires Canonical(tags.Keys) && Fits(tags.Keys) && InBounds(v)
    ensures var n, keys := Published(tags, v, image), tags.Keys + {Print(v)};
      var moved :=
        || s == "v" + Dec(v.major) + "." + Dec(v.minor) + "." + Dec(v.patch)
        || (s == "v" + Dec(v.major) + "." + Dec(v.minor) && TopOfLine(keys, v))
        || (s == "v" + Dec(v.major) && TopOfMajor(keys, v))
        || (s == "latest" && Top(keys, v));
      (s in n <==> moved || s in tags) && (s in n ==> n[s] == if moved then image else tags[s])
  {
    PublishedTag(tags, v, image, s);
    PrintIsWritten(v);
  }

  /** Publishing adds one release and no other. */
  lemma PublishedReleases(tags: Tags, v: Version, image: string, u: Version)
    requires Canonical(tags.Keys) && Fits(tags.Keys) && InBounds(v)
    ensures Print(u) in Published(tags, v, image) <==> u == v || Print(u) in tags
    ensures Print(u) in Published(tags, v, image) ==>
      Published(tags, v, image)[Print(u)] == if u == v then image else tags[Print(u)]
  {
    PublishedTag(tags, v, image, Print(u));
    TagsDiffer(u, v);
  }

  lemma PublishedStaysCanonical(tags: Tags, v: Version, image: string)
    requires Canonical(tags.Keys) && Fits(tags.Keys) && InBounds(v)
    ensures Canonical(Published(tags, v, image).Keys) && Fits(Published(tags, v, image).Keys)
  {
    forall s | s in Published(tags, v, image) && Written(s)
      ensures exists u :: s == Print(u)
    {
      PublishedTag(tags, v, image, s);
      PrintIsWritten(v);
      FullTagMeans(s);
      FloatsAreNotReleases(Dec(v.major), Dec(v.minor), Dec(v.major));
    }
    forall u | Print(u) in Published(tags, v, image)
      ensures InBounds(u)
    {
      PublishedReleases(tags, v, image, u);
    }
  }

  /** Two releases of one line, or of one major, or any two, none less than the other, are the same. */
  lemma TotalOrder(a: Version, b: Version)
    ensures Less(a, b) || Less(b, a) || a == b
  {
  }

  lemma PublishedTops(tags: Tags, v: Version, image: string, u: Version)
    requires Canonical(tags.Keys) && Fits(tags.Keys) && InBounds(v)
    ensures var n, keys := Published(tags, v, image).Keys, tags.Keys + {Print(v)};
      && (TopOfLine(n, u) <==> TopOfLine(keys, u)) && (TopOfLine(keys, u) ==> TopOfLine(tags.Keys, u))
      && (TopOfMajor(n, u) <==> TopOfMajor(keys, u)) && (TopOfMajor(keys, u) ==> TopOfMajor(tags.Keys, u))
      && (Top(n, u) <==> Top(keys, u)) && (Top(keys, u) ==> Top(tags.Keys, u))
  {
    var n, keys := Published(tags, v, image).Keys, tags.Keys + {Print(v)};
    forall x
      ensures Print(x) in n <==> Print(x) in keys
      ensures Print(x) in tags ==> Print(x) in keys
    {
      PublishedReleases(tags, v, image, x);
      TagsDiffer(x, v);
    }
  }

  lemma PublishedNamesLine(tags: Tags, v: Version, image: string, u: Version)
    requires Agrees(tags) && InBounds(v) && Print(u) in Published(tags, v, image)
    requires TopOfLine(Published(tags, v, image).Keys, u)
    ensures var n := Published(tags, v, image); LineOf(u) in n && n[LineOf(u)] == n[Print(u)]
  {
    PublishedTops(tags, v, image, u);
    PublishedReleases(tags, v, image, u);
    PublishedTag(tags, v, image, LineOf(u));
    TagsDiffer(u, v);
    TagsDiffer(v, u);
    TotalOrder(u, v);
  }

  lemma PublishedNamesMajor(tags: Tags, v: Version, image: string, u: Version)
    requires Agrees(tags) && InBounds(v) && Print(u) in Published(tags, v, image)
    requires TopOfMajor(Published(tags, v, image).Keys, u)
    ensures var n := Published(tags, v, image); MajorOf(u) in n && n[MajorOf(u)] == n[Print(u)]
  {
    PublishedTops(tags, v, image, u);
    PublishedReleases(tags, v, image, u);
    PublishedTag(tags, v, image, MajorOf(u));
    TagsDiffer(u, v);
    FloatsApart(u, v);
    TotalOrder(u, v);
  }

  lemma PublishedNamesLatest(tags: Tags, v: Version, image: string, u: Version)
    requires Agrees(tags) && InBounds(v) && Print(u) in Published(tags, v, image)
    requires Top(Published(tags, v, image).Keys, u)
    ensures var n := Published(tags, v, image); LATEST in n && n[LATEST] == n[Print(u)]
  {
    PublishedTops(tags, v, image, u);
    PublishedReleases(tags, v, image, u);
    PublishedTag(tags, v, image, LATEST);
    TagsDiffer(v, v);
    if u != v {
      GreaterStays(tags.Keys, v, u);
      assert NamesGreatest(tags) && tags[LATEST] == tags[Print(u)];
    }
  }

  /** Beside a greatest release another one is not the greatest. */
  lemma GreaterStays(keys: set<string>, v: Version, u: Version)
    requires u != v && Print(u) in keys && Top(keys + {Print(v)}, u)
    ensures !Top(keys + {Print(v)}, v)
  {
    TotalOrder(u, v);
    assert Print(u) in keys + {Print(v)} && Print(v) in keys + {Print(v)};
  }

  lemma FloatsApart(u: Version, v: Version)
    ensures MajorOf(u) != Print(v) && MajorOf(u) != LineOf(v) && MajorOf(u) != LATEST
    ensures LineOf(u) != Print(v) && LineOf(u) != MajorOf(v) && LineOf(u) != LATEST
  {
    FloatsAreNotReleases(Dec(v.major), Dec(v.minor), Dec(u.major));
    FloatsAreNotReleases(Dec(u.major), Dec(u.minor), Dec(v.major));
    PrintParse(v);
  }

  lemma PublishedNamesGreatest(tags: Tags, v: Version, image: string)
    requires Agrees(tags) && InBounds(v)
    ensures NamesGreatest(Published(tags, v, image))
  {
    var n := Published(tags, v, image);
    forall u | Print(u) in n
      ensures TopOfLine(n.Keys, u) ==> LineOf(u) in n && n[LineOf(u)] == n[Print(u)]
      ensures TopOfMajor(n.Keys, u) ==> MajorOf(u) in n && n[MajorOf(u)] == n[Print(u)]
      ensures Top(n.Keys, u) ==> LATEST in n && n[LATEST] == n[Print(u)]
    {
      if TopOfLine(n.Keys, u) {
        PublishedNamesLine(tags, v, image, u);
      }
      if TopOfMajor(n.Keys, u) {
        PublishedNamesMajor(tags, v, image, u);
      }
      if Top(n.Keys, u) {
        PublishedNamesLatest(tags, v, image, u);
      }
    }
  }

  lemma StillReleased(tags: Tags, v: Version, image: string, u: Version)
    requires Agrees(tags) && InBounds(v) && (u == v || Print(u) in tags)
    ensures Print(u) in Published(tags, v, image)
  {
    PublishedReleases(tags, v, image, u);
  }

  lemma PublishedHasNoStrays(tags: Tags, v: Version, image: string)
    requires Agrees(tags) && InBounds(v)
    ensures NoStrayFloats(Published(tags, v, image))
  {
    var n := Published(tags, v, image);
    StillReleased(tags, v, image, v);
    forall major: nat, minor: nat | LineTag(Dec(major), Dec(minor)) in n
      ensures exists u :: Print(u) in n && u.major == major && u.minor == minor
    {
      var x := Version(major, minor, 0);
      PublishedTag(tags, v, image, LineOf(x));
      FloatsApart(x, v);
      TagsDiffer(x, v);
      if LineOf(x) in tags {
        var u :| Print(u) in tags && u.major == major && u.minor == minor;
        StillReleased(tags, v, image, u);
      }
    }
    forall major: nat | MajorTag(Dec(major)) in n
      ensures exists u :: Print(u) in n && u.major == major
    {
      var x := Version(major, 0, 0);
      PublishedTag(tags, v, image, MajorOf(x));
      FloatsApart(x, v);
      TagsDiffer(x, v);
      if MajorOf(x) in tags {
        var u :| Print(u) in tags && u.major == major;
        StillReleased(tags, v, image, u);
      }
    }
  }

  /** Publishing any version, a backport to an old line included, keeps the floating tags right. */
  lemma PublishKeepsAgreement(tags: Tags, v: Version, image: string)
    requires Agrees(tags) && InBounds(v)
    ensures Agrees(Published(tags, v, image))
  {
    PublishedStaysCanonical(tags, v, image);
    PublishedNamesGreatest(tags, v, image);
    PublishedHasNoStrays(tags, v, image);
  }

  /** A history of publications. */
  ghost function Replay(tags: Tags, history: seq<(Version, string)>): Tags
    decreases |history|
  {
    if history == [] then tags else Replay(Published(tags, history[0].0, history[0].1), history[1..])
  }

  /** From a registry with right floating tags, the empty one for example, any history keeps them right. */
  lemma {:induction false} HistoryAgrees(tags: Tags, history: seq<(Version, string)>)
    requires Agrees(tags) && forall i :: 0 <= i < |history| ==> InBounds(history[i].0)
    ensures Agrees(Replay(tags, history))
    decreases |history|
  {
    if history == [] {
    } else {
      PublishKeepsAgreement(tags, history[0].0, history[0].1);
      HistoryAgrees(Published(tags, history[0].0, history[0].1), history[1..]);
    }
  }

  lemma EmptyAgrees()
    ensures Agrees(map[])
  {
  }

  /** The image a version was last published with. */
  function LastImage(history: seq<(Version, string)>, v: Version): Option<string> {
    if history == [] then None
    else if LastImage(history[1..], v).Some? then LastImage(history[1..], v)
    else if history[0].0 == v then Some(history[0].1)
    else None
  }

  /** Exactly the versions of the history are released besides the old ones, each under the image it was last published with. */
  lemma {:induction false} HistoryReleases(tags: Tags, history: seq<(Version, string)>, v: Version)
    requires Agrees(tags) && forall i :: 0 <= i < |history| ==> InBounds(history[i].0)
    ensures var n, last := Replay(tags, history), LastImage(history, v);
      && (Print(v) in n <==> last.Some? || Print(v) in tags)
      && (Print(v) in n ==> n[Print(v)] == if last.Some? then last.value else tags[Print(v)])
    decreases |history|
  {
    if history == [] {
    } else {
      PublishKeepsAgreement(tags, history[0].0, history[0].1);
      PublishedReleases(tags, history[0].0, history[0].1, v);
      HistoryReleases(Published(tags, history[0].0, history[0].1), history[1..], v);
    }
  }

  /** A tag that a republication sets names the version's image already. */
  lemma MovedNamesAlready(tags: Tags, v: Version, s: string)
    requires NamesGreatest(tags) && Print(v) in tags && Moved(tags.Keys, v, s)
    ensures s in tags && tags[s] == tags[Print(v)]
  {
  }

  /** Publishing a version again with the image it has changes nothing. */
  lemma RepublishChangesNothing(tags: Tags, v: Version)
    requires Agrees(tags) && Print(v) in tags
    ensures Published(tags, v, tags[Print(v)]) == tags
  {
    var n := Published(tags, v, tags[Print(v)]);
    forall s
      ensures var moved := Moved(tags.Keys, v, s);
        (s in n <==> moved || s in tags) && (s in n ==> n[s] == if moved then tags[Print(v)] else tags[s])
    {
      RepublishedAt(tags, v, s);
    }
    SameTags(tags, n, v);
  }

  lemma RepublishedAt(tags: Tags, v: Version, s: string)
    requires Canonical(tags.Keys) && Fits(tags.Keys) && Print(v) in tags
    ensures var n, moved := Published(tags, v, tags[Print(v)]), Moved(tags.Keys, v, s);
      (s in n <==> moved || s in tags) && (s in n ==> n[s] == if moved then tags[Print(v)] else tags[s])
  {
    PublishedTag(tags, v, tags[Print(v)], s);
    assert tags.Keys + {Print(v)} == tags.Keys;
  }

  lemma SameTags(tags: Tags, n: Tags, v: Version)
    requires NamesGreatest(tags) && Print(v) in tags
    requires forall s :: var moved := Moved(tags.Keys, v, s);
      (s in n <==> moved || s in tags) && (s in n ==> n[s] == if moved then tags[Print(v)] else tags[s])
    ensures n == tags
  {
    forall s | Moved(tags.Keys, v, s)
      ensures s in tags && tags[s] == tags[Print(v)]
    {
      MovedNamesAlready(tags, v, s);
    }
  }

  /** There is a greatest among the releases that satisfy a condition, if there is any. */
  lemma {:induction false} GreatestAmong(keys: set<string>, among: Version -> bool, v: Version) returns (g: Version)
    requires Print(v) in keys && among(v)
    ensures Print(g) in keys && among(g)
    ensures forall u :: Print(u) in keys && among(u) ==> !Less(g, u)
    decreases |keys|
  {
    g := v;
    if u :| Print(u) in keys && among(u) && Less(v, u) {
      TagsDiffer(u, v);
      g := GreatestAmong(keys - {Print(v)}, among, u);
      forall x | Print(x) in keys && among(x)
        ensures !Less(g, x)
      {
        TagsDiffer(x, v);
      }
    }
  }

  lemma LineNamesGreatest(tags: Tags, major: nat, minor: nat, float: string)
    requires Agrees(tags) && float == LineTag(Dec(major), Dec(minor))
    ensures float in tags <==> exists v :: Print(v) in tags && v.major == major && v.minor == minor
    ensures float in tags ==>
      exists g :: Print(g) in tags && g.major == major && g.minor == minor && TopOfLine(tags.Keys, g) && tags[float] == tags[Print(g)]
  {
    if v :| Print(v) in tags && v.major == major && v.minor == minor {
      var g := GreatestAmong(tags.Keys, (u: Version) => u.major == major && u.minor == minor, v);
      assert TopOfLine(tags.Keys, g);
    }
  }

  lemma MajorNamesGreatest(tags: Tags, major: nat, float: string)
    requires Agrees(tags) && float == MajorTag(Dec(major))
    ensures float in tags <==> exists v :: Print(v) in tags && v.major == major
    ensures float in tags ==>
      exists g :: Print(g) in tags && g.major == major && TopOfMajor(tags.Keys, g) && tags[float] == tags[Print(g)]
  {
    if v :| Print(v) in tags && v.major == major {
      var g := GreatestAmong(tags.Keys, (u: Version) => u.major == major, v);
      assert TopOfMajor(tags.Keys, g);
    }
  }

  /**
   * In the caller's terms: a floating tag is there exactly when its line has a release, and then it
   * names the image of the greatest one.
   */
  lemma FloatNamesGreatest(tags: Tags, major: nat, minor: nat)
    requires Agrees(tags)
    ensures var float := "v" + Dec(major) + "." + Dec(minor);
      && (float in tags <==> exists v :: Print(v) in tags && v.major == major && v.minor == minor)
      && (float in tags ==>
            exists g :: Print(g) in tags && g.major == major && g.minor == minor && TopOfLine(tags.Keys, g) && tags[float] == tags[Print(g)])
  {
    LineNamesGreatest(tags, major, minor, "v" + Dec(major) + "." + Dec(minor));
  }

  lemma MajorFloatNamesGreatest(tags: Tags, major: nat)
    requires Agrees(tags)
    ensures var float := "v" + Dec(major);
      && (float in tags <==> exists v :: Print(v) in tags && v.major == major)
      && (float in tags ==>
            exists g :: Print(g) in tags && g.major == major && TopOfMajor(tags.Keys, g) && tags[float] == tags[Print(g)])
  {
    MajorNamesGreatest(tags, major, "v" + Dec(major));
  }

  lemma LatestNamesGreatest(tags: Tags)
    requires Agrees(tags)
    ensures "latest" in tags <==> exists v :: Print(v) in tags
    ensures "latest" in tags ==> exists g :: Print(g) in tags && Top(tags.Keys, g) && tags["latest"] == tags[Print(g)]
  {
    if v :| Print(v) in tags {
      var g := GreatestAmong(tags.Keys, (u: Version) => true, v);
      assert Top(tags.Keys, g);
    }
  }
}
