/** Unpadded base64url (section 5 of RFC 4648), as Go's `base64.RawURLEncoding`. Characters stand for bytes. */
module Base64 {
  import opened Text

  predicate IsBytes(s: string) {
    forall i | 0 <= i < |s| :: s[i] as int < 256
  }

  function Digit(v: nat): char
    requires v < 64
  {
    if v < 26 then ('A' as int + v) as char
    else if v < 52 then ('a' as int + v - 26) as char
    else if v < 62 then ('0' as int + v - 52) as char
    else if v == 62 then '-' else '_'
  }

  function Value(c: char): (v: Option<nat>)
    ensures v.Some? ==> v.value < 64
  {
    if 'A' <= c <= 'Z' then Some(c as int - 'A' as int)
    else if 'a' <= c <= 'z' then Some(c as int - 'a' as int + 26)
    else if '0' <= c <= '9' then Some(c as int - '0' as int + 52)
    else if c == '-' then Some(62)
    else if c == '_' then Some(63)
    else None
  }

  lemma ValueOfDigit(v: nat)
    requires v < 64
    ensures Value(Digit(v)) == Some(v)
    ensures Digit(v) != '\n' && Digit(v) != '\r'
  {
  }

  /** The first `n` digits of a 24-bit group. */
  function Digits(group: nat, n: nat): (s: string)
    requires group < 0x100_0000 && 2 <= n <= 4
    ensures |s| == n
  {
    [Digit(group / 0x4_0000), Digit(group / 0x1000 % 64), Digit(group / 64 % 64), Digit(group % 64)][..n]
  }

  /** The first `n` bytes of a 24-bit group. */
  function Bytes(group: nat, n: nat): (s: string)
    requires group < 0x100_0000 && 1 <= n <= 3
    ensures |s| == n
  {
    [(group / 0x1_0000) as char, (group / 0x100 % 0x100) as char, (group % 0x100) as char][..n]
  }

  /** Up to three bytes as the high end of a 24-bit group. */
  function Group(s: string): (g: nat)
    requires IsBytes(s) && 1 <= |s| <= 3
    ensures g < 0x100_0000
  {
    s[0] as int * 0x1_0000 + (if |s| > 1 then s[1] as int * 0x100 else 0) + (if |s| > 2 then s[2] as int else 0)
  }

  function Encode(s: string): (e: string)
    requires IsBytes(s)
  {
    if s == "" then ""
    else if |s| < 3 then Digits(Group(s), |s| + 1)
    else Digits(Group(s[..3]), 4) + Encode(s[3..])
  }

  /** Two to four digits as a 24-bit group; spare low bits are dropped by the caller. */
  function GroupOfDigits(s: string): (g: Option<nat>)
    requires 2 <= |s| <= 4
    ensures g.Some? ==> g.value < 0x100_0000
  {
    match (Value(s[0]), Value(s[1]),
           if |s| > 2 then Value(s[2]) else Some(0), if |s| > 3 then Value(s[3]) else Some(0))
    case (Some(a), Some(b), Some(c), Some(d)) => Some(a * 0x4_0000 + b * 0x1000 + c * 64 + d)
    case _ => None
  }

  function DecodeDigits(s: string): Option<string> {
    if s == "" then Some("")
    else if |s| == 1 then None
    else if |s| < 4 then
      match GroupOfDigits(s)
      case None => None
      case Some(g) => Some(Bytes(g, |s| - 1))
    else
      match (GroupOfDigits(s[..4]), DecodeDigits(s[4..]))
      case (Some(g), Some(rest)) => Some(Bytes(g, 3) + rest)
      case _ => None
  }

  /** Line breaks are skipped wherever they occur. */
  function WithoutBreaks(s: string): string {
    if s == "" then ""
    else if s[0] == '\n' || s[0] == '\r' then WithoutBreaks(s[1..])
    else [s[0]] + WithoutBreaks(s[1..])
  }

  function Decode(s: string): Option<string> {
    DecodeDigits(WithoutBreaks(s))
  }

  /** The alphabet of section 5: where its runs start and end, and that each goes up by one. */
  lemma Alphabet(v: nat)
    requires v + 1 < 64
    ensures Digit(0) == 'A' && Digit(25) == 'Z' && Digit(26) == 'a' && Digit(51) == 'z'
    ensures Digit(52) == '0' && Digit(61) == '9' && Digit(62) == '-' && Digit(63) == '_'
    ensures v !in {25, 51, 61, 62} ==> Digit(v + 1) as int == Digit(v) as int + 1
  {
  }

  /** Vectors of section 10, without their padding. */
  lemma Vectors()
    ensures Encode("f") == "Zg" && Encode("fo") == "Zm8" && Encode("foo") == "Zm9v"
  {
    assert Group("f") == 0x66_0000 && Group("fo") == 0x66_6f00 && Group("foo") == 0x66_6f6f;
    assert "foo"[..3] == "foo" && "foo"[3..] == "";
    assert Digits(0x66_0000, 2) == "Zg" && Digits(0x66_6f00, 3) == "Zm8" && Digits(0x66_6f6f, 4) == "Zm9v";
  }

  lemma DigitsMakeGroup(group: nat)
    requires group < 0x100_0000
    ensures group / 0x4_0000 < 64
    ensures group / 0x4_0000 * 0x4_0000 + group / 0x1000 % 64 * 0x1000 + group / 64 % 64 * 64 + group % 64 == group
  {
    var a, b := group / 64, group / 0x1000;
    assert b == a / 64 && group / 0x4_0000 == b / 64;
    assert b == b / 64 * 64 + b % 64;
    assert a == a / 64 * 64 + a % 64;
    assert group == a * 64 + group % 64;
  }

  predicate NoBreaks(s: string) {
    forall i | 0 <= i < |s| :: s[i] != '\n' && s[i] != '\r'
  }

  lemma {:induction false} NoBreaksToRemove(s: string)
    requires NoBreaks(s)
    ensures WithoutBreaks(s) == s
  {
    if s != "" {
      NoBreaksToRemove(s[1..]);
      assert s == [s[0]] + s[1..];
    }
  }

  lemma BytesOfGroup(s: string)
    requires IsBytes(s) && 1 <= |s| <= 3
    ensures Bytes(Group(s), |s|) == s
  {
    var g := Group(s);
    var b1 := if |s| > 1 then s[1] as int else 0;
    var b2 := if |s| > 2 then s[2] as int else 0;
    assert g == s[0] as int * 0x1_0000 + b1 * 0x100 + b2;
    assert g / 0x1_0000 == s[0] as int && g / 0x100 % 0x100 == b1 && g % 0x100 == b2;
  }

  lemma DigitsHaveNoBreaks(g: nat, n: nat)
    requires g < 0x100_0000 && 2 <= n <= 4
    ensures NoBreaks(Digits(g, n))
  {
    ValueOfDigit(g / 0x4_0000);
    ValueOfDigit(g / 0x1000 % 64);
    ValueOfDigit(g / 64 % 64);
    ValueOfDigit(g % 64);
  }

  /** Reading n digits back gives the group, provided the digits left out were zero. */
  lemma GroupRoundTrip(g: nat, n: nat)
    requires g < 0x100_0000 && 2 <= n <= 4
    requires n < 4 ==> g % 64 == 0
    requires n < 3 ==> g / 64 % 64 == 0
    ensures GroupOfDigits(Digits(g, n)) == Some(g)
  {
    DigitsMakeGroup(g);
    ValueOfDigit(g / 0x4_0000);
    ValueOfDigit(g / 0x1000 % 64);
    ValueOfDigit(g / 64 % 64);
    ValueOfDigit(g % 64);
  }

  lemma SpareBitsAreZero(k: nat)
    ensures (k * 0x100) % 64 == 0
    ensures (k * 0x1_0000) % 64 == 0 && (k * 0x1_0000) / 64 % 64 == 0
  {
    assert k * 0x100 == (k * 4) * 64;
    assert k * 0x1_0000 == (k * 0x400) * 64;
    assert k * 0x400 == (k * 16) * 64;
  }

  lemma DigitsRoundTrip(s: string)
    requires IsBytes(s) && 1 <= |s| <= 3
    ensures GroupOfDigits(Digits(Group(s), |s| + 1)) == Some(Group(s))
  {
    var g: nat := Group(s);
    if |s| == 1 {
      SpareBitsAreZero(s[0] as int);
      assert g == s[0] as int * 0x1_0000;
    } else if |s| == 2 {
      var k: nat := s[0] as int * 0x100 + s[1] as int;
      SpareBitsAreZero(k);
      assert g == k * 0x100;
    }
    GroupRoundTrip(g, |s| + 1);
  }

  lemma {:induction false} DecodeOfEncode(s: string)
    requires IsBytes(s)
    ensures DecodeDigits(Encode(s)) == Some(s)
    ensures NoBreaks(Encode(s))
    decreases |s|
  {
    if s == "" {
    } else if |s| < 3 {
      DigitsRoundTrip(s);
      BytesOfGroup(s);
      DigitsHaveNoBreaks(Group(s), |s| + 1);
    } else {
      DigitsRoundTrip(s[..3]);
      BytesOfGroup(s[..3]);
      DigitsHaveNoBreaks(Group(s[..3]), 4);
      DecodeOfEncode(s[3..]);
      var first := Digits(Group(s[..3]), 4);
      assert Encode(s)[..4] == first && Encode(s)[4..] == Encode(s[3..]);
      assert s == s[..3] + s[3..];
    }
  }

  /** Decoding undoes encoding, for every byte string. */
  lemma RoundTrip(s: string)
    requires IsBytes(s)
    ensures Decode(Encode(s)) == Some(s)
  {
    DecodeOfEncode(s);
    NoBreaksToRemove(Encode(s));
  }
}
