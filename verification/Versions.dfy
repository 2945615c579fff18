/** Release versions as text: how `bin/release.sh` prints, parses and filters them. */
module Versions {
  import opened Text

  predicate IsDigit(c: char) {
    '0' <= c <= '9'
  }

  predicate IsNumeral(s: string) {
    s != "" && forall i :: 0 <= i < |s| ==> IsDigit(s[i])
  }

  function DigitValue(c: char): nat
    requires IsDigit(c)
  {
    c as int - '0' as int
  }

  function Value(s: string): nat
    requires forall i :: 0 <= i < |s| ==> IsDigit(s[i])
  {
    if s == "" then 0 else Value(s[..|s| - 1]) * 10 + DigitValue(s[|s| - 1])
  }

  /** The decimal numeral without leading zeros. */
  function Dec(n: nat): (s: string)
    ensures IsNumeral(s)
  {
    if n < 10 then [('0' as int + n) as char] else Dec(n / 10) + [('0' as int + n % 10) as char]
  }

  lemma {:induction false} ValueOfDec(n: nat)
    ensures Value(Dec(n)) == n
  {
    if n < 10 {
    } else {
      ValueOfDec(n / 10);
      assert Dec(n)[..|Dec(n)| - 1] == Dec(n / 10);
    }
  }

  lemma DecInjective(a: nat, b: nat)
    requires Dec(a) == Dec(b)
    ensures a == b
  {
    ValueOfDec(a);
    ValueOfDec(b);
  }

  datatype Version = Version(major: nat, minor: nat, patch: nat)

  /** Precedence of releases, section 11 of Semantic Versioning 2.0.0. */
  predicate Less(a: Version, b: Version) {
    a.major < b.major || (a.major == b.major && (a.minor < b.minor || (a.minor == b.minor && a.patch < b.patch)))
  }

  function Print(v: Version): string {
    "v" + Join([Dec(v.major), Dec(v.minor), Dec(v.patch)], '.')
  }

  /** `sed 's/v//'`: drops the first "v". */
  function StripV(s: string): string {
    if s == "" then "" else if s[0] == 'v' then s[1..] else [s[0]] + StripV(s[1..])
  }

  /** `cut -d "." -f k`: the k-th field; a text without the delimiter passes whole. */
  function Cut(s: string, k: nat): string
    requires k >= 1
  {
    var fields := Split(s, '.');
    if |fields| == 1 then s else if k <= |fields| then fields[k - 1] else ""
  }

  function ParseMajor(s: string): string {
    Cut(StripV(s), 1)
  }

  function ParseMinor(s: string): string {
    Cut(StripV(s), 2)
  }

  function ParsePatch(s: string): string {
    Cut(StripV(s), 3)
  }

  /** Of a text with a "v" in it the first one goes; a text without passes whole. */
  lemma {:induction false} StripMeans(front: string, rest: string)
    requires 'v' !in front
    ensures StripV(front + "v" + rest) == front + rest && StripV(front) == front
  {
    if front == "" {
      assert ("" + "v" + rest)[1..] == rest;
    } else {
      StripMeans(front[1..], rest);
      assert (front + "v" + rest)[1..] == front[1..] + "v" + rest;
      assert [front[0]] + (front[1..] + rest) == front + rest;
    }
  }

  /** Fields are counted from one; there is nothing beyond the last, and a text without a dot passes whole. */
  lemma CutMeans(fields: seq<string>, k: nat)
    requires |fields| >= 1 && k >= 1 && forall i :: 0 <= i < |fields| ==> '.' !in fields[i]
    ensures Cut(Join(fields, '.'), k) ==
      if |fields| == 1 then fields[0] else if k <= |fields| then fields[k - 1] else ""
  {
    SplitOfJoin(fields, '.');
  }

  /** Three numerals with dots between them, after a "v": `^v\d+\.\d+\.\d+$`. */
  predicate IsFullTag(s: string) {
    s != "" && s[0] == 'v' &&
    var fields := Split(s[1..], '.');
    |fields| == 3 && IsNumeral(fields[0]) && IsNumeral(fields[1]) && IsNumeral(fields[2])
  }

  /** `^v$major\.\d+\.\d+$`, for a major number given by its digits. */
  predicate InMajor(s: string, major: string) {
    IsFullTag(s) && Split(s[1..], '.')[0] == major
  }

  /** `^v$major\.$minor\.\d+$`. */
  predicate InLine(s: string, major: string, minor: string) {
    InMajor(s, major) && Split(s[1..], '.')[1] == minor
  }

  function LineTag(major: string, minor: string): string {
    "v" + major + "." + minor
  }

  function MajorTag(major: string): string {
    "v" + major
  }

  const LATEST := "latest"

  lemma NumeralHasNoDot(s: string)
    requires IsNumeral(s)
    ensures '.' !in s && 'v' !in s
  {
  }

  lemma PrintFields(v: Version)
    ensures Print(v) != "" && Print(v)[0] == 'v'
    ensures Split(Print(v)[1..], '.') == [Dec(v.major), Dec(v.minor), Dec(v.patch)]
  {
    var fields := [Dec(v.major), Dec(v.minor), Dec(v.patch)];
    forall i | 0 <= i < |fields|
      ensures '.' !in fields[i]
    {
      NumeralHasNoDot(fields[i]);
    }
    SplitOfJoin(fields, '.');
    assert Print(v)[1..] == Join(fields, '.');
  }

  /** A release tag as it is written: "v" and three numerals with dots between them. */
  ghost predicate Written(s: string) {
    exists a, b, c :: IsNumeral(a) && IsNumeral(b) && IsNumeral(c) && s == "v" + a + "." + b + "." + c
  }

  lemma NumeralMeans(s: string)
    ensures IsNumeral(s) <==> s != "" && forall c :: c in s ==> c in "0123456789"
  {
    forall c: char
      ensures IsDigit(c) <==> c in "0123456789"
    {
      assert "0123456789" == ['0', '1', '2', '3', '4', '5', '6', '7', '8', '9'];
    }
  }

  /** The fields of a written tag, what is parsed from it, and the filters it passes. */
  lemma WrittenParts(a: string, b: string, c: string)
    requires IsNumeral(a) && IsNumeral(b) && IsNumeral(c)
    ensures var s := "v" + a + "." + b + "." + c;
      && s[1..] == Join([a, b, c], '.') && Split(s[1..], '.') == [a, b, c] && IsFullTag(s)
      && ParseMajor(s) == a && ParseMinor(s) == b && ParsePatch(s) == c
      && (forall major :: InMajor(s, major) <==> major == a)
      && (forall major, minor :: InLine(s, major, minor) <==> major == a && minor == b)
  {
    var s, fields := "v" + a + "." + b + "." + c, [a, b, c];
    forall i | 0 <= i < |fields|
      ensures '.' !in fields[i]
    {
      NumeralHasNoDot(fields[i]);
    }
    JoinOfThree(a, b, c);
    SplitOfJoin(fields, '.');
    assert s[1..] == Join(fields, '.');
    assert StripV(s) == s[1..];
  }

  lemma JoinOfThree(a: string, b: string, c: string)
    ensures Join([a, b, c], '.') == a + "." + b + "." + c
  {
    assert [a, b, c][1..] == [b, c] && [b, c][1..] == [c];
    assert Join([b, c], '.') == b + ['.'] + c;
    assert a + ['.'] + (b + ['.'] + c) == a + "." + b + "." + c;
  }

  /** The filter for full tags passes exactly the written release tags. */
  lemma FullTagMeans(s: string)
    ensures IsFullTag(s) <==> Written(s)
  {
    if IsFullTag(s) {
      var fields := Split(s[1..], '.');
      JoinOfSplit(s[1..], '.');
      assert fields == [fields[0], fields[1], fields[2]];
      JoinOfThree(fields[0], fields[1], fields[2]);
      assert s == "v" + s[1..] == "v" + fields[0] + "." + fields[1] + "." + fields[2];
    }
    if a, b, c :| IsNumeral(a) && IsNumeral(b) && IsNumeral(c) && s == "v" + a + "." + b + "." + c {
      WrittenParts(a, b, c);
    }
  }

  /** Prereleases have a hyphen, written release tags have none. */
  lemma HyphenIsNotWritten(s: string)
    requires '-' in s
    ensures !Written(s)
  {
    forall a, b, c | IsNumeral(a) && IsNumeral(b) && IsNumeral(c)
      ensures '-' !in "v" + a + "." + b + "." + c
    {
    }
  }

  lemma PrintIsWritten(v: Version)
    ensures Print(v) == "v" + Dec(v.major) + "." + Dec(v.minor) + "." + Dec(v.patch) && Written(Print(v))
  {
    JoinOfThree(Dec(v.major), Dec(v.minor), Dec(v.patch));
  }

  /** A decimal numeral has no leading zero, and is the only such numeral of its value. */
  lemma {:induction false} DecIsPlain(s: string)
    requires IsNumeral(s) && (s[0] == '0' ==> |s| == 1)
    ensures s == Dec(Value(s)) && (s[0] == '0' <==> Value(s) == 0)
    decreases |s|
  {
    if |s| == 1 {
      assert s[..0] == "" && s == [s[0]];
    } else {
      var front := s[..|s| - 1];
      assert front[0] == s[0];
      DecIsPlain(front);
      assert Value(front) >= 1;
      assert s == front + [s[|s| - 1]];
    }
  }

  lemma {:induction false} DecHasNoLeadingZero(n: nat)
    ensures Dec(n)[0] == '0' ==> n == 0
  {
    if n < 10 {
    } else {
      DecHasNoLeadingZero(n / 10);
    }
  }

  lemma DecExamples()
    ensures Dec(0) == "0" && Dec(9) == "9" && Dec(10) == "10" && Dec(1203) == "1203" && Value("0042") == 42
  {
    assert Dec(120) == Dec(12) + "0" && Dec(12) == Dec(1) + "2";
    assert "0042"[..3] == "004" && "004"[..2] == "00" && "00"[..1] == "0" && "0"[..0] == "";
    assert Value("0") == 0 && Value("00") == 0 && Value("004") == 4;
  }

  /** What is printed is read back, and passes the filters of its own line and major only. */
  lemma PrintParse(v: Version)
    ensures ParseMajor(Print(v)) == Dec(v.major) && ParseMinor(Print(v)) == Dec(v.minor) && ParsePatch(Print(v)) == Dec(v.patch)
    ensures Value(Dec(v.major)) == v.major && Value(Dec(v.minor)) == v.minor && Value(Dec(v.patch)) == v.patch
    ensures IsFullTag(Print(v))
    ensures forall major: nat :: InMajor(Print(v), Dec(major)) <==> major == v.major
    ensures forall major: nat, minor: nat :: InLine(Print(v), Dec(major), Dec(minor)) <==> major == v.major && minor == v.minor
  {
    PrintFields(v);
    ValueOfDec(v.major);
    ValueOfDec(v.minor);
    ValueOfDec(v.patch);
    assert StripV(Print(v)) == Print(v)[1..];
    forall n: nat, k: nat | Dec(n) == Dec(k)
      ensures n == k
    {
      DecInjective(n, k);
    }
  }

  lemma PrintInjective(a: Version, b: Version)
    requires Print(a) == Print(b)
    ensures a == b
  {
    PrintFields(a);
    PrintFields(b);
    var f, g := Split(Print(a)[1..], '.'), Split(Print(b)[1..], '.');
    assert f[0] == g[0] && f[1] == g[1] && f[2] == g[2];
    DecInjective(a.major, b.major);
    DecInjective(a.minor, b.minor);
    DecInjective(a.patch, b.patch);
  }

  lemma FloatFields(major: string, minor: string)
    requires IsNumeral(major) && IsNumeral(minor)
    ensures Split(LineTag(major, minor)[1..], '.') == [major, minor]
    ensures Split(MajorTag(major)[1..], '.') == [major]
  {
    NumeralHasNoDot(major);
    NumeralHasNoDot(minor);
    SplitFirst(major, minor, '.');
    SplitFree(minor, '.');
    SplitFree(major, '.');
    assert LineTag(major, minor)[1..] == major + ['.'] + minor;
    assert MajorTag(major)[1..] == major;
  }

  /** The floating tags are never taken for releases, and never for one another. */
  lemma FloatsAreNotReleases(major: string, minor: string, other: string)
    requires IsNumeral(major) && IsNumeral(minor) && IsNumeral(other)
    ensures !IsFullTag(LineTag(major, minor)) && !IsFullTag(MajorTag(major)) && !IsFullTag(LATEST)
    ensures LineTag(major, minor) != MajorTag(other) && LineTag(major, minor) != LATEST && MajorTag(major) != LATEST
  {
    FloatFields(major, minor);
    FloatFields(other, minor);
    assert LATEST[0] != 'v';
  }

  lemma LineTagInjective(major: string, minor: string, major': string, minor': string)
    requires IsNumeral(major) && IsNumeral(minor) && IsNumeral(major') && IsNumeral(minor')
    requires LineTag(major, minor) == LineTag(major', minor')
    ensures major == major' && minor == minor'
  {
    FloatFields(major, minor);
    FloatFields(major', minor');
    var f, g := Split(LineTag(major, minor)[1..], '.'), Split(LineTag(major', minor')[1..], '.');
    assert f[0] == g[0] && f[1] == g[1];
  }

  /** The greatest number the shell compares, 9223372036854775807. */
  const MAX_INTEGER := 0x7FFF_FFFF_FFFF_FFFF

  /** `[ "$a" -gt "$b" ]`: an operand that is no 64-bit number makes the test fail. */
  predicate TestGt(a: string, b: string) {
    IsNumeral(a) && IsNumeral(b) && Value(a) <= MAX_INTEGER && Value(b) <= MAX_INTEGER && Value(a) > Value(b)
  }

  /** The shell finds a numeral greater exactly if it is, as far as 64-bit numbers go. */
  lemma TestGtMeans(a: string, b: string)
    requires IsNumeral(a) && IsNumeral(b)
    ensures TestGt(a, b) <==> Value(a) > Value(b) && Value(a) <= 9223372036854775807
  {
  }

  lemma TestGtOfDec(a: nat, b: nat)
    ensures TestGt(Dec(a), Dec(b)) <==> b < a <= 9223372036854775807
  {
    ValueOfDec(a);
    ValueOfDec(b);
  }
}
