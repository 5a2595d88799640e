/** Base 64 encoding (section 4 of RFC 4648) and its URL- and filename-safe
    variant (section 5 of RFC 4648), written out so that the round trips the
    credential primitives rely on can be proved rather than assumed. */
module Base64 {
  import opened Wrappers

  type byte = x: int | 0 <= x < 256
  type sextet = x: int | 0 <= x < 64

  const PadChar: char := '='

  /** The alphabet character for a 6-bit value; `urlSafe` selects the
      alphabet of section 5 ('-' and '_') instead of section 4 ('+' and '/'). */
  function SextetChar(v: sextet, urlSafe: bool): (c: char)
    ensures c != PadChar
  {
    if v < 26 then ('A' as int + v) as char
    else if v < 52 then ('a' as int + (v - 26)) as char
    else if v < 62 then ('0' as int + (v - 52)) as char
    else if v == 62 then (if urlSafe then '-' else '+')
    else (if urlSafe then '_' else '/')
  }

  /** The 6-bit value of an alphabet character, or None for any other character. */
  function CharSextet(c: char, urlSafe: bool): (r: Option<sextet>)
    ensures r.Some? ==> SextetChar(r.value, urlSafe) == c
  {
    if 'A' <= c <= 'Z' then Some(c as int - 'A' as int)
    else if 'a' <= c <= 'z' then Some(c as int - 'a' as int + 26)
    else if '0' <= c <= '9' then Some(c as int - '0' as int + 52)
    else if c == (if urlSafe then '-' else '+') then Some(62)
    else if c == (if urlSafe then '_' else '/') then Some(63)
    else None
  }

  lemma CharSextetInverse(v: sextet, urlSafe: bool)
    ensures CharSextet(SextetChar(v, urlSafe), urlSafe) == Some(v)
  {
  }

  /** Three bytes as four characters. */
  function EncodeBlock(b0: byte, b1: byte, b2: byte, urlSafe: bool): string {
    [SextetChar(b0 / 4, urlSafe), SextetChar((b0 % 4) * 16 + b1 / 16, urlSafe),
     SextetChar((b1 % 16) * 4 + b2 / 64, urlSafe), SextetChar(b2 % 64, urlSafe)]
  }

  /** The encoding without its trailing '=' padding: a final group of one byte
      gives two characters and a final group of two bytes gives three. */
  function EncodeUnpadded(bs: seq<byte>, urlSafe: bool): (s: string)
    ensures |s| == (4 * |bs| + 2) / 3
    ensures PadChar !in s
    decreases |bs|
  {
    if |bs| == 0 then []
    else if |bs| == 1 then
      [SextetChar(bs[0] / 4, urlSafe), SextetChar((bs[0] % 4) * 16, urlSafe)]
    else if |bs| == 2 then
      [SextetChar(bs[0] / 4, urlSafe), SextetChar((bs[0] % 4) * 16 + bs[1] / 16, urlSafe),
       SextetChar((bs[1] % 16) * 4, urlSafe)]
    else
      EncodeBlock(bs[0], bs[1], bs[2], urlSafe) + EncodeUnpadded(bs[3..], urlSafe)
  }

  /** The '=' characters that complete the last quantum (section 3.2 of RFC 4648). */
  function Padding(n: nat): string {
    if n % 3 == 1 then "==" else if n % 3 == 2 then "=" else ""
  }

  /** Padded encoding, as Python's `b64encode` and `urlsafe_b64encode` produce it. */
  function Encode(bs: seq<byte>, urlSafe: bool): (s: string)
    ensures |s| % 4 == 0
    ensures |s| == 4 * ((|bs| + 2) / 3)
  {
    PaddedLength(|bs|);
    EncodeUnpadded(bs, urlSafe) + Padding(|bs|)
  }

  lemma PaddedLength(n: nat)
    ensures (4 * n + 2) / 3 + |Padding(n)| == 4 * ((n + 2) / 3)
    ensures ((4 * n + 2) / 3 + |Padding(n)|) % 4 == 0
  {
    var q, r := n / 3, n % 3;
    assert n == 3 * q + r;
    assert 4 * n + 2 == 3 * (4 * q) + (4 * r + 2);
    if r == 0 {
      assert (4 * n + 2) / 3 == 4 * q;
      assert (n + 2) / 3 == q;
    } else if r == 1 {
      assert (4 * n + 2) / 3 == 4 * q + 2;
      assert (n + 2) / 3 == q + 1;
    } else {
      assert (4 * n + 2) / 3 == 4 * q + 3;
      assert (n + 2) / 3 == q + 1;
    }
  }

  /** Decoding of unpadded text; a length of 1 modulo 4 or a character outside
      the alphabet is an error. Bits left over in the last character are ignored. */
  function DecodeUnpadded(s: string, urlSafe: bool): (r: Option<seq<byte>>)
    decreases |s|
  {
    if |s| == 0 then Some([])
    else if |s| == 1 then None
    else
      var c0 :- CharSextet(s[0], urlSafe);
      var c1 :- CharSextet(s[1], urlSafe);
      if |s| == 2 then Some([c0 * 4 + c1 / 16])
      else
        var c2 :- CharSextet(s[2], urlSafe);
        if |s| == 3 then Some([c0 * 4 + c1 / 16, (c1 % 16) * 16 + c2 / 4])
        else
          var c3 :- CharSextet(s[3], urlSafe);
          var rest :- DecodeUnpadded(s[4..], urlSafe);
          Some([c0 * 4 + c1 / 16, (c1 % 16) * 16 + c2 / 4, (c2 % 4) * 64 + c3] + rest)
  }

  /** Removes the one or two '=' that may end a padded text. */
  function TrimPadding(s: string): (t: string)
    ensures |t| <= |s|
  {
    if |s| >= 2 && s[|s| - 2] == PadChar && s[|s| - 1] == PadChar then s[..|s| - 2]
    else if |s| >= 1 && s[|s| - 1] == PadChar then s[..|s| - 1]
    else s
  }

  /** Decoding of padded text, as Python's `b64decode`: the length must be a
      multiple of four and '=' may only end the text. */
  function Decode(s: string, urlSafe: bool): (r: Option<seq<byte>>)
    ensures r.Some? ==> |s| % 4 == 0
  {
    if |s| % 4 != 0 then None
    else
      var body := TrimPadding(s);
      if PadChar in body then None else DecodeUnpadded(body, urlSafe)
  }

  /** Every character '=' removed, as Python's `str.replace("=", "")`. */
  function StripPadding(s: string): (t: string)
    ensures PadChar !in t
    ensures |t| <= |s|
    decreases |s|
  {
    if |s| == 0 then []
    else (if s[0] == PadChar then [] else [s[0]]) + StripPadding(s[1..])
  }

  lemma {:induction false} StripPaddingConcat(a: string, b: string)
    ensures StripPadding(a + b) == StripPadding(a) + StripPadding(b)
    decreases |a|
  {
    if |a| > 0 {
      assert (a + b)[1..] == a[1..] + b;
      StripPaddingConcat(a[1..], b);
    } else {
      assert a + b == b;
    }
  }

  lemma {:induction false} StripPaddingUnpadded(s: string)
    requires PadChar !in s
    ensures StripPadding(s) == s
    decreases |s|
  {
    if |s| > 0 {
      StripPaddingUnpadded(s[1..]);
      assert s == [s[0]] + s[1..];
    }
  }

  /** Removing every '=' from a padded encoding leaves the unpadded encoding. */
  lemma StripEncode(bs: seq<byte>, urlSafe: bool)
    ensures StripPadding(Encode(bs, urlSafe)) == EncodeUnpadded(bs, urlSafe)
  {
    var u := EncodeUnpadded(bs, urlSafe);
    StripPaddingConcat(u, Padding(|bs|));
    StripPaddingUnpadded(u);
    assert StripPadding("=") == [];
    assert StripPadding("==") == [];
  }

  lemma BlockArithmetic(b0: byte, b1: byte, b2: byte)
    ensures ((b0 % 4) * 16 + b1 / 16) / 16 == b0 % 4
    ensures ((b0 % 4) * 16 + b1 / 16) % 16 == b1 / 16
    ensures ((b1 % 16) * 4 + b2 / 64) / 4 == b1 % 16
    ensures ((b1 % 16) * 4 + b2 / 64) % 4 == b2 / 64
  {
  }

  /** Decoding two, three or four alphabet characters, one step at a time. */
  lemma DecodeTwoChars(v0: sextet, v1: sextet, urlSafe: bool)
    ensures DecodeUnpadded([SextetChar(v0, urlSafe), SextetChar(v1, urlSafe)], urlSafe)
         == Some([v0 * 4 + v1 / 16])
  {
    CharSextetInverse(v0, urlSafe);
    CharSextetInverse(v1, urlSafe);
  }

  lemma DecodeThreeChars(v0: sextet, v1: sextet, v2: sextet, urlSafe: bool)
    ensures DecodeUnpadded([SextetChar(v0, urlSafe), SextetChar(v1, urlSafe), SextetChar(v2, urlSafe)], urlSafe)
         == Some([v0 * 4 + v1 / 16, (v1 % 16) * 16 + v2 / 4])
  {
    CharSextetInverse(v0, urlSafe);
    CharSextetInverse(v1, urlSafe);
    CharSextetInverse(v2, urlSafe);
  }

  lemma DecodeOneByte(bs: seq<byte>, urlSafe: bool)
    requires |bs| == 1
    ensures DecodeUnpadded(EncodeUnpadded(bs, urlSafe), urlSafe) == Some(bs)
  {
    var b0 := bs[0];
    var v0: sextet, v1: sextet := b0 / 4, (b0 % 4) * 16;
    assert EncodeUnpadded(bs, urlSafe) == [SextetChar(v0, urlSafe), SextetChar(v1, urlSafe)];
    assert bs == [b0];
    DecodeTwoChars(v0, v1, urlSafe);
    assert v1 / 16 == b0 % 4;
  }

  lemma DecodeTwoBytes(bs: seq<byte>, urlSafe: bool)
    requires |bs| == 2
    ensures DecodeUnpadded(EncodeUnpadded(bs, urlSafe), urlSafe) == Some(bs)
  {
    var b0, b1 := bs[0], bs[1];
    var v0: sextet, v1: sextet, v2: sextet := b0 / 4, (b0 % 4) * 16 + b1 / 16, (b1 % 16) * 4;
    assert bs == [b0, b1];
    assert EncodeUnpadded(bs, urlSafe)
        == [SextetChar(v0, urlSafe), SextetChar(v1, urlSafe), SextetChar(v2, urlSafe)];
    DecodeThreeChars(v0, v1, v2, urlSafe);
    BlockArithmetic(b0, b1, 0);
    assert v2 / 4 == b1 % 16;
  }

  lemma DecodeFourCharsThen(v0: sextet, v1: sextet, v2: sextet, v3: sextet, rest: string, tail: seq<byte>, urlSafe: bool)
    requires DecodeUnpadded(rest, urlSafe) == Some(tail)
    ensures DecodeUnpadded([SextetChar(v0, urlSafe), SextetChar(v1, urlSafe),
                            SextetChar(v2, urlSafe), SextetChar(v3, urlSafe)] + rest, urlSafe)
         == Some([v0 * 4 + v1 / 16, (v1 % 16) * 16 + v2 / 4, (v2 % 4) * 64 + v3] + tail)
  {
    var s := [SextetChar(v0, urlSafe), SextetChar(v1, urlSafe), SextetChar(v2, urlSafe), SextetChar(v3, urlSafe)] + rest;
    assert s[4..] == rest;
    CharSextetInverse(v0, urlSafe);
    CharSextetInverse(v1, urlSafe);
    CharSextetInverse(v2, urlSafe);
    CharSextetInverse(v3, urlSafe);
  }

  lemma DecodeBlock(b0: byte, b1: byte, b2: byte, rest: string, tail: seq<byte>, urlSafe: bool)
    requires DecodeUnpadded(rest, urlSafe) == Some(tail)
    ensures DecodeUnpadded(EncodeBlock(b0, b1, b2, urlSafe) + rest, urlSafe) == Some([b0, b1, b2] + tail)
  {
    var v0: sextet, v1: sextet, v2: sextet, v3: sextet :=
      b0 / 4, (b0 % 4) * 16 + b1 / 16, (b1 % 16) * 4 + b2 / 64, b2 % 64;
    assert EncodeBlock(b0, b1, b2, urlSafe)
        == [SextetChar(v0, urlSafe), SextetChar(v1, urlSafe), SextetChar(v2, urlSafe), SextetChar(v3, urlSafe)];
    DecodeFourCharsThen(v0, v1, v2, v3, rest, tail, urlSafe);
    BlockArithmetic(b0, b1, b2);
    assert v0 * 4 + v1 / 16 == b0;
    assert (v1 % 16) * 16 + v2 / 4 == b1;
    assert (v2 % 4) * 64 + v3 == b2;
  }

  /** One step of the round trip: the first block of `bs` decodes back in
      front of whatever the rest of its encoding decodes to. */
  lemma DecodeBlockOf(bs: seq<byte>, urlSafe: bool)
    requires |bs| >= 3
    requires DecodeUnpadded(EncodeUnpadded(bs[3..], urlSafe), urlSafe) == Some(bs[3..])
    ensures DecodeUnpadded(EncodeUnpadded(bs, urlSafe), urlSafe) == Some(bs)
  {
    var rest := EncodeUnpadded(bs[3..], urlSafe);
    assert EncodeUnpadded(bs, urlSafe) == EncodeBlock(bs[0], bs[1], bs[2], urlSafe) + rest;
    DecodeBlock(bs[0], bs[1], bs[2], rest, bs[3..], urlSafe);
    assert bs == [bs[0], bs[1], bs[2]] + bs[3..];
  }

  lemma {:induction false} DecodeUnpaddedRoundTrip(bs: seq<byte>, urlSafe: bool)
    ensures DecodeUnpadded(EncodeUnpadded(bs, urlSafe), urlSafe) == Some(bs)
    decreases |bs|
  {
    if |bs| == 0 {
      assert EncodeUnpadded(bs, urlSafe) == [];
    } else if |bs| == 1 {
      DecodeOneByte(bs, urlSafe);
    } else if |bs| == 2 {
      DecodeTwoBytes(bs, urlSafe);
    } else {
      DecodeUnpaddedRoundTrip(bs[3..], urlSafe);
      DecodeBlockOf(bs, urlSafe);
    }
  }

  /** Trimming the padding of a padded encoding gives back the unpadded one. */
  lemma TrimPaddingEncode(bs: seq<byte>, urlSafe: bool)
    ensures TrimPadding(Encode(bs, urlSafe)) == EncodeUnpadded(bs, urlSafe)
  {
    var u := EncodeUnpadded(bs, urlSafe);
    var s := Encode(bs, urlSafe);
    if |bs| % 3 == 1 {
      assert s[..|s| - 2] == u;
    } else if |bs| % 3 == 2 {
      assert |u| >= 1 && s[|s| - 2] == u[|u| - 1];
      assert s[..|s| - 1] == u;
    } else {
      assert s == u;
      assert |u| > 0 ==> u[|u| - 1] in u;
    }
  }

  /** Decoding inverts padded encoding (sections 4 and 5 of RFC 4648). */
  lemma DecodeRoundTrip(bs: seq<byte>, urlSafe: bool)
    ensures Decode(Encode(bs, urlSafe), urlSafe) == Some(bs)
  {
    TrimPaddingEncode(bs, urlSafe);
    DecodeUnpaddedRoundTrip(bs, urlSafe);
  }

  /** Distinct byte strings have distinct unpadded encodings. */
  lemma EncodeUnpaddedInjective(a: seq<byte>, b: seq<byte>, urlSafe: bool)
    requires a != b
    ensures EncodeUnpadded(a, urlSafe) != EncodeUnpadded(b, urlSafe)
  {
    DecodeUnpaddedRoundTrip(a, urlSafe);
    DecodeUnpaddedRoundTrip(b, urlSafe);
  }
}
