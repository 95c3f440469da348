/** The password that the user routes derive from an e-mail address:
    `rtrim(strtr(base64_encode($email), '+/', '-_'), '=')`, that is the
    "base64url" encoding of section 5 of RFC 4648 with the padding of
    section 3.2 left off. */
module Base64Url {
  import opened Php

  /** A PHP string is a sequence of bytes; the model keeps one byte per char. */
  predicate IsBytes(s: string) {
    forall i | 0 <= i < |s| :: s[i] as int < 256
  }

  type ByteString = s: string | IsBytes(s)

  /** The alphabet of section 4 of RFC 4648, used by `base64_encode`. */
  function StdDigit(i: int): (c: char)
    requires 0 <= i < 64
  {
    if i < 26 then ('A' as int + i) as char
    else if i < 52 then ('a' as int + (i - 26)) as char
    else if i < 62 then ('0' as int + (i - 52)) as char
    else if i == 62 then '+'
    else '/'
  }

  /** The URL- and filename-safe alphabet of section 5 of RFC 4648. */
  function UrlDigit(i: int): (c: char)
    requires 0 <= i < 64
    ensures IsUrlChar(c)
  {
    if i < 26 then ('A' as int + i) as char
    else if i < 52 then ('a' as int + (i - 26)) as char
    else if i < 62 then ('0' as int + (i - 52)) as char
    else if i == 62 then '-'
    else '_'
  }

  /** `[A-Za-z0-9_-]`. */
  predicate IsUrlChar(c: char) {
    ('A' <= c <= 'Z') || ('a' <= c <= 'z') || ('0' <= c <= '9') || c == '-' || c == '_'
  }

  /** The 6-bit value a base64url character stands for. */
  function UrlIndex(c: char): (r: Option<int>)
    ensures r.Some? <==> IsUrlChar(c)
    ensures r.Some? ==> 0 <= r.value < 64 && UrlDigit(r.value) == c
  {
    if 'A' <= c <= 'Z' then Some(c as int - 'A' as int)
    else if 'a' <= c <= 'z' then Some(c as int - 'a' as int + 26)
    else if '0' <= c <= '9' then Some(c as int - '0' as int + 52)
    else if c == '-' then Some(62)
    else if c == '_' then Some(63)
    else None
  }

  lemma UrlIndexOfDigit(i: int)
    requires 0 <= i < 64
    ensures UrlIndex(UrlDigit(i)) == Some(i)
  {
  }

  // ---------------------------------------------------------------------
  // The three steps the source composes

  /** Three bytes as four digits of the standard alphabet; a missing byte
      is passed as 0 and its digits are then cut off. */
  function StdGroup(a: int, b: int, c: int): (g: string)
    requires 0 <= a < 256 && 0 <= b < 256 && 0 <= c < 256
    ensures |g| == 4
  {
    [StdDigit(a / 4), StdDigit(a % 4 * 16 + b / 16), StdDigit(b % 16 * 4 + c / 64), StdDigit(c % 64)]
  }

  /** `base64_encode`: three bytes to four digits, the final group padded
      with '='. */
  function Base64Encode(s: ByteString): string
    decreases |s|
  {
    if |s| >= 3 then StdGroup(s[0] as int, s[1] as int, s[2] as int) + Base64Encode(s[3..])
    else if |s| == 2 then StdGroup(s[0] as int, s[1] as int, 0)[..3] + "="
    else if |s| == 1 then StdGroup(s[0] as int, 0, 0)[..2] + "=="
    else []
  }

  /** `strtr($s, '+/', '-_')`. */
  function Translate(c: char): char {
    if c == '+' then '-' else if c == '/' then '_' else c
  }

  function Strtr(s: string): (r: string)
    ensures |r| == |s|
    ensures forall i | 0 <= i < |s| :: r[i] == Translate(s[i])
  {
    seq(|s|, i requires 0 <= i < |s| => Translate(s[i]))
  }

  /** `rtrim($s, '=')`. */
  function RTrim(s: string): (r: string)
    ensures |r| <= |s| && r == s[..|r|]
    ensures |r| > 0 ==> r[|r| - 1] != '='
    ensures forall i | |r| <= i < |s| :: s[i] == '='
  {
    if |s| > 0 && s[|s| - 1] == '=' then RTrim(s[..|s| - 1]) else s
  }

  /** The password derived from an e-mail address (User.php, Server.php). */
  function Password(email: ByteString): string {
    RTrim(Strtr(Base64Encode(email)))
  }

  // ---------------------------------------------------------------------
  // The reference definition: unpadded base64url, written directly

  function UrlGroup(a: int, b: int, c: int): (g: string)
    requires 0 <= a < 256 && 0 <= b < 256 && 0 <= c < 256
    ensures |g| == 4
  {
    [UrlDigit(a / 4), UrlDigit(a % 4 * 16 + b / 16), UrlDigit(b % 16 * 4 + c / 64), UrlDigit(c % 64)]
  }

  function UrlNoPad(s: ByteString): (r: string)
    ensures |r| == (4 * |s| + 2) / 3
    decreases |s|
  {
    if |s| >= 3 then UrlGroup(s[0] as int, s[1] as int, s[2] as int) + UrlNoPad(s[3..])
    else if |s| == 2 then UrlGroup(s[0] as int, s[1] as int, 0)[..3]
    else if |s| == 1 then UrlGroup(s[0] as int, 0, 0)[..2]
    else []
  }

  /** The unpadded encoding uses only the characters `[A-Za-z0-9_-]`. */
  lemma {:induction false} UrlNoPadAlphabet(s: ByteString)
    ensures forall i | 0 <= i < |UrlNoPad(s)| :: IsUrlChar(UrlNoPad(s)[i])
    decreases |s|
  {
    if |s| >= 3 {
      var rest: ByteString := s[3..];
      var g := UrlGroup(s[0] as int, s[1] as int, s[2] as int);
      UrlNoPadAlphabet(rest);
      assert forall i | 0 <= i < 4 :: IsUrlChar(g[i]);
      assert UrlNoPad(s) == g + UrlNoPad(rest);
    } else if |s| == 2 {
      var g := UrlGroup(s[0] as int, s[1] as int, 0);
      assert forall i | 0 <= i < 4 :: IsUrlChar(g[i]);
    } else if |s| == 1 {
      var g := UrlGroup(s[0] as int, 0, 0);
      assert forall i | 0 <= i < 4 :: IsUrlChar(g[i]);
    }
  }

  /** The '=' padding that completes the final group of an input of
      length n. */
  function Pad(n: nat): string {
    if n % 3 == 1 then "==" else if n % 3 == 2 then "=" else ""
  }

  lemma PadShift(n: nat)
    requires n >= 3
    ensures Pad(n) == Pad(n - 3)
  {
    assert n % 3 == (n - 3) % 3;
  }

  lemma StrtrGroup(a: int, b: int, c: int)
    requires 0 <= a < 256 && 0 <= b < 256 && 0 <= c < 256
    ensures Strtr(StdGroup(a, b, c)) == UrlGroup(a, b, c)
  {
  }

  lemma {:induction false} StrtrConcat(x: string, y: string)
    ensures Strtr(x + y) == Strtr(x) + Strtr(y)
  {
    assert forall i | 0 <= i < |x + y| :: Strtr(x + y)[i] == (Strtr(x) + Strtr(y))[i];
  }

  lemma StrtrPrefix(x: string, k: nat)
    requires k <= |x|
    ensures Strtr(x[..k]) == Strtr(x)[..k]
  {
  }

  /** The translated standard encoding is the unpadded URL encoding followed
      by the padding. */
  lemma StrtrTwoByteTail(a: int, b: int)
    requires 0 <= a < 256 && 0 <= b < 256
    ensures Strtr(StdGroup(a, b, 0)[..3] + "=") == UrlGroup(a, b, 0)[..3] + "="
  {
    StrtrGroup(a, b, 0);
    StrtrConcat(StdGroup(a, b, 0)[..3], "=");
    StrtrPrefix(StdGroup(a, b, 0), 3);
  }

  lemma StrtrOneByteTail(a: int)
    requires 0 <= a < 256
    ensures Strtr(StdGroup(a, 0, 0)[..2] + "==") == UrlGroup(a, 0, 0)[..2] + "=="
  {
    StrtrGroup(a, 0, 0);
    StrtrConcat(StdGroup(a, 0, 0)[..2], "==");
    StrtrPrefix(StdGroup(a, 0, 0), 2);
  }

  /** The translated standard encoding is the unpadded URL encoding followed
      by the padding. */
  lemma {:induction false} StrtrEncodeIsUrlPadded(s: ByteString)
    ensures Strtr(Base64Encode(s)) == UrlNoPad(s) + Pad(|s|)
    decreases |s|
  {
    if |s| >= 3 {
      var rest: ByteString := s[3..];
      var a, b, c := s[0] as int, s[1] as int, s[2] as int;
      StrtrConcat(StdGroup(a, b, c), Base64Encode(rest));
      StrtrGroup(a, b, c);
      StrtrEncodeIsUrlPadded(rest);
      PadShift(|s|);
    } else if |s| == 2 {
      StrtrTwoByteTail(s[0] as int, s[1] as int);
    } else if |s| == 1 {
      StrtrOneByteTail(s[0] as int);
    }
  }

  lemma {:induction false} RTrimDropsPadding(x: string, n: nat)
    requires |x| == 0 || x[|x| - 1] != '='
    ensures RTrim(x + Pad(n)) == x
  {
    if n % 3 == 1 {
      assert (x + "==")[..|x| + 1] == x + "=";
      assert (x + "=")[..|x|] == x;
    } else if n % 3 == 2 {
      assert (x + "=")[..|x|] == x;
    } else {
      assert x + "" == x;
    }
  }

  /** The source's three-step derivation equals the unpadded base64url
      encoding, so the password uses only `[A-Za-z0-9_-]`, never contains
      '=', and has ceil(4n/3) characters for an n-byte address. */
  lemma PasswordIsUnpaddedBase64Url(email: ByteString)
    ensures Password(email) == UrlNoPad(email)
    ensures forall i | 0 <= i < |Password(email)| :: IsUrlChar(Password(email)[i]) && Password(email)[i] != '='
    ensures |Password(email)| == (4 * |email| + 2) / 3
  {
    StrtrEncodeIsUrlPadded(email);
    UrlNoPadAlphabet(email);
    var u := UrlNoPad(email);
    assert |u| > 0 ==> IsUrlChar(u[|u| - 1]);
    RTrimDropsPadding(u, |email|);
  }

  // ---------------------------------------------------------------------
  // Decoding, to state the round trip

  /** Put back the '=' padding that completes the final group. */
  function Repad(p: string): (r: string)
    ensures |r| % 4 == 0 || |p| % 4 == 1
  {
    if |p| % 4 == 2 then p + "==" else if |p| % 4 == 3 then p + "=" else p
  }

  /** One group of four base64url characters, the last one or two of which
      may be padding; `None` on a character outside the alphabet. */
  function DecodeGroup(g: string): (r: Option<string>)
    requires |g| == 4
    ensures r.Some? ==> 1 <= |r.value| <= 3 && IsBytes(r.value)
  {
    var i0, i1 := UrlIndex(g[0]), UrlIndex(g[1]);
    if i0.None? || i1.None? then None
    else if g[2] == '=' && g[3] == '=' then
      Some([(i0.value * 4 + i1.value / 16) as char])
    else
      var i2 := UrlIndex(g[2]);
      if i2.None? then None
      else if g[3] == '=' then
        Some([(i0.value * 4 + i1.value / 16) as char, (i1.value % 16 * 16 + i2.value / 4) as char])
      else
        var i3 := UrlIndex(g[3]);
        if i3.None? then None
        else Some([(i0.value * 4 + i1.value / 16) as char,
                   (i1.value % 16 * 16 + i2.value / 4) as char,
                   (i2.value % 4 * 64 + i3.value) as char])
  }

  /** Padded base64url decoding; padding may only close the last group. */
  function Decode(s: string): (r: Option<string>)
    decreases |s|
  {
    if |s| == 0 then Some([])
    else if |s| < 4 then None
    else
      match DecodeGroup(s[..4])
      case None => None
      case Some(head) =>
        if |head| < 3 && |s| > 4 then None
        else
          match Decode(s[4..])
          case None => None
          case Some(rest) => Some(head + rest)
  }

  /** Splitting three bytes into four 6-bit values and joining them again
      gives the bytes back. */
  lemma SextetsRejoin(a: int, b: int, c: int)
    requires 0 <= a < 256 && 0 <= b < 256 && 0 <= c < 256
    ensures (a / 4) * 4 + (a % 4 * 16 + b / 16) / 16 == a
    ensures (a % 4 * 16 + b / 16) % 16 * 16 + (b % 16 * 4 + c / 64) / 4 == b
    ensures (b % 16 * 4 + c / 64) % 4 * 64 + c % 64 == c
  {
    assert (a % 4 * 16 + b / 16) / 16 == a % 4;
    assert (a % 4 * 16 + b / 16) % 16 == b / 16;
    assert (b % 16 * 4 + c / 64) / 4 == b % 16;
    assert (b % 16 * 4 + c / 64) % 4 == c / 64;
  }

  lemma DecodeFullGroup(a: int, b: int, c: int)
    requires 0 <= a < 256 && 0 <= b < 256 && 0 <= c < 256
    ensures DecodeGroup(UrlGroup(a, b, c)) == Some([a as char, b as char, c as char])
  {
    SextetsRejoin(a, b, c);
    UrlIndexOfDigit(a / 4);
    UrlIndexOfDigit(a % 4 * 16 + b / 16);
    UrlIndexOfDigit(b % 16 * 4 + c / 64);
    UrlIndexOfDigit(c % 64);
  }

  lemma DecodeTwoByteGroup(a: int, b: int)
    requires 0 <= a < 256 && 0 <= b < 256
    ensures DecodeGroup(UrlGroup(a, b, 0)[..3] + "=") == Some([a as char, b as char])
  {
    SextetsRejoin(a, b, 0);
    UrlIndexOfDigit(a / 4);
    UrlIndexOfDigit(a % 4 * 16 + b / 16);
    UrlIndexOfDigit(b % 16 * 4);
  }

  lemma DecodeOneByteGroup(a: int)
    requires 0 <= a < 256
    ensures DecodeGroup(UrlGroup(a, 0, 0)[..2] + "==") == Some([a as char])
  {
    SextetsRejoin(a, 0, 0);
    UrlIndexOfDigit(a / 4);
    UrlIndexOfDigit(a % 4 * 16);
  }

  lemma DecodeTwoByteTail(a: int, b: int)
    requires 0 <= a < 256 && 0 <= b < 256
    ensures Decode(UrlGroup(a, b, 0)[..3] + "=") == Some([a as char, b as char])
  {
    var e := UrlGroup(a, b, 0)[..3] + "=";
    assert e[..4] == e && e[4..] == [];
    DecodeTwoByteGroup(a, b);
    assert [a as char, b as char] + [] == [a as char, b as char];
  }

  lemma DecodeOneByteTail(a: int)
    requires 0 <= a < 256
    ensures Decode(UrlGroup(a, 0, 0)[..2] + "==") == Some([a as char])
  {
    var e := UrlGroup(a, 0, 0)[..2] + "==";
    assert e[..4] == e && e[4..] == [];
    DecodeOneByteGroup(a);
    assert [a as char] + [] == [a as char];
  }

  lemma SplitThree(s: string)
    requires |s| >= 3
    ensures s == [s[0], s[1], s[2]] + s[3..]
  {
  }

  /** A full group in front of the encoding of the remaining bytes decodes
      to all the bytes. */
  lemma DecodeGroupThen(s: ByteString, tail: string)
    requires |s| >= 3
    requires Decode(tail) == Some(s[3..])
    ensures Decode(UrlGroup(s[0] as int, s[1] as int, s[2] as int) + tail) == Some(s)
  {
    var g := UrlGroup(s[0] as int, s[1] as int, s[2] as int);
    var e := g + tail;
    assert e[..4] == g && e[4..] == tail;
    DecodeFullGroup(s[0] as int, s[1] as int, s[2] as int);
    SplitThree(s);
  }

  lemma {:induction false} DecodeUrlPadded(s: ByteString)
    ensures Decode(UrlNoPad(s) + Pad(|s|)) == Some(s)
    decreases |s|
  {
    if |s| >= 3 {
      var rest: ByteString := s[3..];
      var g := UrlGroup(s[0] as int, s[1] as int, s[2] as int);
      var u, p := UrlNoPad(rest), Pad(|rest|);
      assert UrlNoPad(s) == g + u;
      PadShift(|s|);
      assert (g + u) + p == g + (u + p);
      DecodeUrlPadded(rest);
      DecodeGroupThen(s, u + p);
    } else if |s| == 2 {
      DecodeTwoByteTail(s[0] as int, s[1] as int);
      assert s == [s[0], s[1]];
    } else if |s| == 1 {
      DecodeOneByteTail(s[0] as int);
      assert s == [s[0]];
    }
  }

  lemma UnpaddedLengthMod(n: nat)
    ensures n % 3 == 0 ==> (4 * n + 2) / 3 % 4 == 0
    ensures n % 3 == 1 ==> (4 * n + 2) / 3 % 4 == 2
    ensures n % 3 == 2 ==> (4 * n + 2) / 3 % 4 == 3
  {
    var q := n / 3;
    assert n == 3 * q + n % 3;
  }

  lemma RepadAt(p: string, n: nat)
    requires |p| == (4 * n + 2) / 3
    ensures Repad(p) == p + Pad(n)
  {
    UnpaddedLengthMod(n);
    if n % 3 == 0 {
      assert p + "" == p;
    }
  }

  /** Re-padding the password and decoding it yields the e-mail address. */
  lemma PasswordRoundTrip(email: ByteString)
    ensures Decode(Repad(Password(email))) == Some(email)
  {
    PasswordIsUnpaddedBase64Url(email);
    RepadAt(UrlNoPad(email), |email|);
    DecodeUrlPadded(email);
  }

  /** Different e-mail addresses never share a password. */
  lemma PasswordInjective(e1: ByteString, e2: ByteString)
    requires Password(e1) == Password(e2)
    ensures e1 == e2
  {
    PasswordRoundTrip(e1);
    PasswordRoundTrip(e2);
  }

}
