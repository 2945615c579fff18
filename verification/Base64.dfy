/** Go's `base64.StdEncoding` (section 4 of RFC 4648), on Go strings taken sequences. */
module Base64 {
  import opened Text

  type byte = x: int | 0 <= x < 256

  type Bytes = seq<byte>

  const PAD: byte := 61
  const NEWLINE: byte := 10
  const RETURN: byte := 13

  /** The letter for a six-bit value. */
  function Letter(v: int): (c: byte)
    requires 0 <= v < 64
    ensures SixBits(c) == Some(v)
  {
    if v < 26 then (65 + v)
    else if v < 52 then (97 + v - 26)
    else if v < 62 then (48 + v - 52)
    else if v == 62 then 43
    else 47
  }

  function SixBits(c: byte): (v: Option<int>)
    ensures v.Some? ==> 0 <= v.value < 64 && c != PAD && c != NEWLINE && c != RETURN
  {
    if 65 <= c <= 90 then Some(c - 65)
    else if 97 <= c <= 122 then Some(c - 97 + 26)
    else if 48 <= c <= 57 then Some(c - 48 + 52)
    else if c == 43 then Some(62)
    else if c == 47 then Some(63)
    else None
  }

  /** One to three bytes as four letters; what a short last group lacks is padded. */
  function Quad(chunk: Bytes): (q: Bytes)
    requires 1 <= |chunk| <= 3
    ensures |q| == 4
  {
    var a := chunk[0];
    var b := if |chunk| > 1 then chunk[1] else 0;
    var c := if |chunk| > 2 then chunk[2] else 0;
    [Letter(a / 4), Letter(a % 4 * 16 + b / 16),
     if |chunk| > 1 then Letter(b % 16 * 4 + c / 64) else PAD,
     if |chunk| > 2 then Letter(c % 64) else PAD]
  }

  function Encode(data: Bytes): Bytes {
    if |data| <= 3 then (if data == [] then [] else Quad(data)) else Quad(data[..3]) + Encode(data[3..])
  }

  /** The decoder skips line breaks wherever they stand. */
  function Unbroken(s: Bytes): Bytes {
    if s == [] then []
    else if s[0] == NEWLINE || s[0] == RETURN then Unbroken(s[1..])
    else [s[0]] + Unbroken(s[1..])
  }

  /** The one to three bytes of four letters. Bits of the last letter beyond the last whole byte are ignored. */
  function Chunk(q: Bytes): (chunk: Option<Bytes>)
    requires |q| == 4
    ensures chunk.Some? ==> 1 <= |chunk.value| <= 3
  {
    var a, b, c, d := SixBits(q[0]), SixBits(q[1]), SixBits(q[2]), SixBits(q[3]);
    if a.None? || b.None? then None
    else if q[2] == PAD && q[3] == PAD then Some([a.value * 4 + b.value / 16])
    else if c.None? then None
    else if q[3] == PAD then Some([a.value * 4 + b.value / 16, b.value % 16 * 16 + c.value / 4])
    else if d.None? then None
    else Some([a.value * 4 + b.value / 16, b.value % 16 * 16 + c.value / 4, c.value % 4 * 64 + d.value])
  }

  /** Groups of four letters; padding only in the last one. */
  function DecodeGroups(s: Bytes): Option<Bytes> {
    if s == [] then Some([])
    else if |s| < 4 then None
    else match Chunk(s[..4])
      case None => None
      case Some(chunk) =>
        if |s| == 4 then Some(chunk)
        else if |chunk| < 3 then None
        else match DecodeGroups(s[4..])
          case None => None
          case Some(rest) => Some(chunk + rest)
  }

  /** `base64.StdEncoding.DecodeString`. */
  function Decode(s: Bytes): Option<Bytes> {
    DecodeGroups(Unbroken(s))
  }

  /** The second letter holds the last two bits of a byte and the first four of the next. */
  lemma SecondLetter(a: byte, b: byte)
    ensures var v := a % 4 * 16 + b / 16; 0 <= v < 64 && v / 16 == a % 4 && v % 16 == b / 16
  {
  }

  /** The third letter holds the last four bits of a byte and the first two of the next. */
  lemma ThirdLetter(b: byte, c: byte)
    ensures var v := b % 16 * 4 + c / 64; 0 <= v < 64 && v / 4 == b % 16 && v % 4 == c / 64
  {
  }

  lemma ChunkOfOne(a: byte)
    ensures Chunk(Quad([a])) == Some([a])
  {
    SecondLetter(a, 0);
  }

  lemma ChunkOfTwo(a: byte, b: byte)
    ensures Chunk(Quad([a, b])) == Some([a, b])
  {
    SecondLetter(a, b);
    ThirdLetter(b, 0);
  }

  lemma ChunkOfThree(a: byte, b: byte, c: byte)
    ensures Chunk(Quad([a, b, c])) == Some([a, b, c])
  {
    SecondLetter(a, b);
    ThirdLetter(b, c);
  }

  lemma ChunkOfQuad(chunk: Bytes)
    requires 1 <= |chunk| <= 3
    ensures Chunk(Quad(chunk)) == Some(chunk)
  {
    if |chunk| == 1 {
      ChunkOfOne(chunk[0]);
      assert chunk == [chunk[0]];
    } else if |chunk| == 2 {
      ChunkOfTwo(chunk[0], chunk[1]);
      assert chunk == [chunk[0], chunk[1]];
    } else {
      ChunkOfThree(chunk[0], chunk[1], chunk[2]);
      assert chunk == [chunk[0], chunk[1], chunk[2]];
    }
  }

  lemma {:induction false} DecodeGroupsOfEncode(data: Bytes)
    ensures DecodeGroups(Encode(data)) == Some(data)
    ensures data != [] ==> |Encode(data)| >= 4
  {
    if data == [] {
    } else if |data| <= 3 {
      ChunkOfQuad(data);
      assert Encode(data)[..4] == Quad(data);
    } else {
      DecodeGroupsOfEncode(data[3..]);
      ChunkOfQuad(data[..3]);
      assert Encode(data)[..4] == Quad(data[..3]) && Encode(data)[4..] == Encode(data[3..]);
      assert data[..3] + data[3..] == data;
    }
  }

  predicate Plain(s: Bytes) {
    forall i :: 0 <= i < |s| ==> s[i] != NEWLINE && s[i] != RETURN
  }

  lemma {:induction false} EncodeIsPlain(data: Bytes)
    ensures Plain(Encode(data))
  {
    if |data| <= 3 {
    } else {
      EncodeIsPlain(data[3..]);
    }
  }

  lemma {:induction false} UnbrokenIdentity(s: Bytes)
    requires Plain(s)
    ensures Unbroken(s) == s
  {
    if s == [] {
    } else {
      UnbrokenIdentity(s[1..]);
    }
  }

  lemma {:induction false} UnbrokenConcat(a: Bytes, b: Bytes)
    ensures Unbroken(a + b) == Unbroken(a) + Unbroken(b)
  {
    if a == [] {
      assert a + b == b;
    } else {
      UnbrokenConcat(a[1..], b);
      assert (a + b)[1..] == a[1..] + b && (a + b)[0] == a[0];
    }
  }

  /** Decoding undoes encoding, also with a line feed or carriage return (characters 10 and 13) put in anywhere. */
  lemma DecodeOfEncode(data: Bytes, at: nat)
    requires at <= |Encode(data)|
    ensures Decode(Encode(data)) == Some(data)
    ensures Decode(Encode(data)[..at] + [10] + Encode(data)[at..]) == Some(data)
    ensures Decode(Encode(data)[..at] + [13] + Encode(data)[at..]) == Some(data)
  {
    DecodeGroupsOfEncode(data);
    EncodeIsPlain(data);
    UnbrokenIdentity(Encode(data));
    UnbrokenInsert(Encode(data)[..at], 10, Encode(data)[at..]);
    UnbrokenInsert(Encode(data)[..at], 13, Encode(data)[at..]);
    assert Encode(data)[..at] + Encode(data)[at..] == Encode(data);
  }

  lemma UnbrokenInsert(a: Bytes, c: byte, b: Bytes)
    requires c == 10 || c == 13
    ensures Unbroken(a + [c] + b) == Unbroken(a + b)
  {
    UnbrokenConcat(a, b);
    UnbrokenConcat(a, [c] + b);
    assert a + [c] + b == a + ([c] + b);
    assert ([c] + b)[1..] == b;
  }

  /** The bytes of a text of one-byte characters. */
  function Ascii(s: string): Bytes
    requires forall i :: 0 <= i < |s| ==> s[i] < 256 as char
  {
    seq(|s|, i requires 0 <= i < |s| => s[i] as int)
  }

  /** Table 1 of RFC 4648. */
  lemma LetterTable(v: int)
    requires 0 <= v < 64
    ensures v < 26 ==> Letter(v) == 'A' as int + v
    ensures 26 <= v < 52 ==> Letter(v) == 'a' as int + v - 26
    ensures 52 <= v < 62 ==> Letter(v) == '0' as int + v - 52
    ensures v == 62 ==> Letter(v) == '+' as int
    ensures v == 63 ==> Letter(v) == '/' as int
    ensures forall c :: SixBits(c) == Some(v) <==> c == Letter(v)
  {
  }

  /** A letter of that table, as a byte. */
  predicate IsLetter(c: byte) {
    var l := c as char;
    'A' <= l <= 'Z' || 'a' <= l <= 'z' || '0' <= l <= '9' || l == '+' || l == '/'
  }

  lemma LettersDecode(c: byte)
    ensures SixBits(c).Some? <==> IsLetter(c)
  {
  }

  /** Whole groups of four letters, the last two or the last one of which may be padding ("=", character 61). */
  predicate Padded(s: Bytes, pads: nat) {
    && |s| % 4 == 0 && pads <= 2 && pads <= |s|
    && (forall i :: 0 <= i < |s| - pads ==> IsLetter(s[i]))
    && (forall i :: |s| - pads <= i < |s| ==> s[i] == 61)
  }

  ghost predicate InGroups(s: Bytes) {
    exists pads :: Padded(s, pads)
  }

  lemma ChunkDecodes(q: Bytes, pads: nat)
    requires |q| == 4 && pads <= 2
    ensures Chunk(q).Some? && |Chunk(q).value| == 3 - pads <==> Padded(q, pads)
  {
    LettersDecode(q[0]);
    LettersDecode(q[1]);
    LettersDecode(q[2]);
    LettersDecode(q[3]);
    assert !IsLetter(61);
  }

  lemma PaddedFirst(s: Bytes, pads: nat)
    requires |s| > 4
    ensures Padded(s, pads) <==> Padded(s[..4], 0) && Padded(s[4..], pads)
  {
    if Padded(s[..4], 0) && Padded(s[4..], pads) {
      forall i | 0 <= i < |s|
        ensures i < |s| - pads ==> IsLetter(s[i])
        ensures |s| - pads <= i ==> s[i] == 61
      {
        if i < 4 {
          assert s[..4][i] == s[i];
        } else {
          assert s[4..][i - 4] == s[i];
        }
      }
    }
    if Padded(s, pads) {
      assert |s| >= 8;
      forall i | 0 <= i < |s| - 4
        ensures s[4..][i] == s[i + 4]
      {
      }
    }
  }

  lemma {:induction false} GroupsDecode(s: Bytes)
    ensures DecodeGroups(s).Some? <==> InGroups(s)
    decreases |s|
  {
    if s == [] {
      assert Padded(s, 0);
    } else if |s| < 4 {
    } else if |s| == 4 {
      assert s[..4] == s;
      ChunkDecodes(s, 0);
      ChunkDecodes(s, 1);
      ChunkDecodes(s, 2);
      if Chunk(s).Some? {
        assert Padded(s, 3 - |Chunk(s).value|);
      }
    } else {
      GroupsDecode(s[4..]);
      ChunkDecodes(s[..4], 0);
      forall pads: nat
        ensures Padded(s, pads) <==> Padded(s[..4], 0) && Padded(s[4..], pads)
      {
        PaddedFirst(s, pads);
      }
    }
  }

  /**
   * What decodes: apart from line breaks whole groups of four, letters of the alphabet, and padding only
   * in one or two places at the end.
   */
  lemma DecodesExactly(s: Bytes)
    ensures Decode(s).Some? <==> InGroups(Unbroken(s))
  {
    GroupsDecode(Unbroken(s));
  }

  /** A group of four letters is the 24-bit number of its three bytes; padded groups drop the bits of the last letter. */
  lemma ChunkBits(q: Bytes)
    requires |q| == 4 && Chunk(q).Some?
    ensures var b := Chunk(q).value;
      var bits := ((Bits(q[0]) * 64 + Bits(q[1])) * 64 + Bits(q[2])) * 64 + Bits(q[3]);
      if |b| == 3 then bits == (b[0] as int * 256 + b[1] as int) * 256 + b[2] as int
      else if |b| == 2 then bits / 256 == b[0] as int * 256 + b[1] as int
      else bits / 65536 == b[0] as int
  {
  }

  /** The value of a letter; padding stands for no bits. */
  function Bits(c: byte): (v: int)
    ensures 0 <= v < 64
  {
    if SixBits(c).Some? then SixBits(c).value else 0
  }

  /** Without line breaks only whole groups of four decode. */
  lemma OnlyWholeGroups(s: Bytes)
    requires Plain(s) && |s| % 4 != 0
    ensures Decode(s) == None
  {
    UnbrokenIdentity(s);
    DecodesExactly(s);
  }

  /** For one: "YTpiY" is nothing. */
  lemma DecodeNothing()
    ensures Decode(Ascii("YTpiY")) == None
  {
    OnlyWholeGroups(Ascii("YTpiY"));
  }

  /** And "dXNlcjpwYXNz" is "user:pass". */
  lemma DecodeExample()
    ensures Decode(Ascii("dXNlcjpwYXNz")) == Some(Ascii("user:pass"))
  {
    EncodeExample();
    DecodeOfEncode(Ascii("user:pass"), 0);
  }

  lemma FirstQuad()
    ensures Quad([117, 115, 101]) == [100, 88, 78, 108]
  {
  }

  lemma SecondQuad()
    ensures Quad([114, 58, 112]) == [99, 106, 112, 119]
  {
  }

  lemma ThirdQuad()
    ensures Quad([97, 115, 115]) == [89, 88, 78, 122]
  {
  }

  lemma EncodeFirst(a: Bytes, b: Bytes)
    requires |a| == 3 && b != []
    ensures Encode(a + b) == Quad(a) + Encode(b)
  {
    assert (a + b)[..3] == a && (a + b)[3..] == b;
  }

  lemma EncodeExample()
    ensures Encode(Ascii("user:pass")) == Ascii("dXNlcjpwYXNz")
  {
    FirstQuad();
    SecondQuad();
    ThirdQuad();
    EncodeFirst([117, 115, 101], [114, 58, 112] + [97, 115, 115]);
    EncodeFirst([114, 58, 112], [97, 115, 115]);
    assert Ascii("user:pass") == [117, 115, 101] + ([114, 58, 112] + [97, 115, 115]);
    assert Ascii("dXNlcjpwYXNz") == [100, 88, 78, 108] + ([99, 106, 112, 119] + [89, 88, 78, 122]);
  }
}
