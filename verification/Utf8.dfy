/** UTF-8: the bytes Go writes for a string, and how a browser reads them (the UTF-8 decoder of the WHATWG Encoding
    standard, section 8.1.1). */
module Utf8 {
  import opened Text

  type Byte = b: int | 0 <= b < 256

  const REPLACEMENT := '\U{FFFD}'

  function EncodeChar(c: char): (bytes: seq<Byte>)
    ensures 1 <= |bytes| <= 4
  {
    var n := c as int;
    if n < 0x80 then [n]
    else if n < 0x800 then [0xC0 + n / 64, 0x80 + n % 64]
    else if n < 0x1_0000 then [0xE0 + n / 0x1000, 0x80 + n / 64 % 64, 0x80 + n % 64]
    else [0xF0 + n / 0x4_0000, 0x80 + n / 0x1000 % 64, 0x80 + n / 64 % 64, 0x80 + n % 64]
  }

  function Encode(s: string): seq<Byte> {
    if s == "" then [] else EncodeChar(s[0]) + Encode(s[1..])
  }

  /** Where the decoder stands: the bits so far, the bytes still needed, and the bounds of the next one. */
  datatype Reading = Reading(code: nat, left: nat, lower: Byte, upper: Byte)

  const READY := Reading(0, 0, 0x80, 0xBF)

  /** After the first byte of a character of more than one; `READY` for a byte that cannot start one. */
  function Lead(b: Byte): Reading {
    if 0xC2 <= b <= 0xDF then Reading(b - 0xC0, 1, 0x80, 0xBF)
    else if 0xE0 <= b <= 0xEF then Reading(b - 0xE0, 2, if b == 0xE0 then 0xA0 else 0x80, if b == 0xED then 0x9F else 0xBF)
    else if 0xF0 <= b <= 0xF4 then Reading(b - 0xF0, 3, if b == 0xF0 then 0x90 else 0x80, if b == 0xF4 then 0x8F else 0xBF)
    else READY
  }

  /** The bounds keep surrogates and numbers past the last code point out of here. */
  function CharOf(code: nat): char {
    if code < 0xD800 || 0xE000 <= code < 0x11_0000 then code as char else REPLACEMENT
  }

  /** A byte that cannot continue the character begun. */
  predicate Refuses(st: Reading, b: Byte) {
    st.left > 0 && !(st.lower <= b <= st.upper)
  }

  /** One byte: the character it completes, if any, and where the decoder stands after it. */
  function Take(st: Reading, b: Byte): (string, Reading) {
    if st.left == 0 then
      if b < 0x80 then ([b as char], READY)
      else if Lead(b).left == 0 then ([REPLACEMENT], READY)
      else ("", Lead(b))
    else
      var code := st.code * 64 + b % 64;
      if st.left == 1 then ([CharOf(code)], READY) else ("", Reading(code, st.left - 1, 0x80, 0xBF))
  }

  /** A byte that is refused is read again as the first of a character. */
  function Read(bytes: seq<Byte>, st: Reading): string
    decreases |bytes|, st.left
  {
    if bytes == [] then (if st.left == 0 then "" else [REPLACEMENT])
    else if Refuses(st, bytes[0]) then [REPLACEMENT] + Read(bytes, READY)
    else Take(st, bytes[0]).0 + Read(bytes[1..], Take(st, bytes[0]).1)
  }

  /** What a browser makes of a byte stream. */
  function Decode(bytes: seq<Byte>): string {
    Read(bytes, READY)
  }

  // --- reading back what was written ---

  lemma ReadByte(st: Reading, b: Byte, rest: seq<Byte>)
    requires !Refuses(st, b)
    ensures Read([b] + rest, st) == Take(st, b).0 + Read(rest, Take(st, b).1)
  {
    assert ([b] + rest)[1..] == rest;
  }

  lemma ReadTwo(b0: Byte, b1: Byte, rest: seq<Byte>)
    requires Lead(b0).left == 1 && 0x80 <= b1 <= 0xBF
    ensures Read([b0, b1] + rest, READY) == [CharOf(Lead(b0).code * 64 + b1 % 64)] + Read(rest, READY)
  {
    ReadByte(READY, b0, [b1] + rest);
    ReadByte(Lead(b0), b1, rest);
    assert [b0, b1] + rest == [b0] + ([b1] + rest);
  }

  lemma ReadThree(b0: Byte, b1: Byte, b2: Byte, rest: seq<Byte>)
    requires Lead(b0).left == 2 && Lead(b0).lower <= b1 <= Lead(b0).upper && 0x80 <= b2 <= 0xBF
    ensures Read([b0, b1, b2] + rest, READY)
            == [CharOf((Lead(b0).code * 64 + b1 % 64) * 64 + b2 % 64)] + Read(rest, READY)
  {
    ReadByte(READY, b0, [b1] + ([b2] + rest));
    ReadByte(Lead(b0), b1, [b2] + rest);
    ReadByte(Reading(Lead(b0).code * 64 + b1 % 64, 1, 0x80, 0xBF), b2, rest);
    assert [b0, b1, b2] + rest == [b0] + ([b1] + ([b2] + rest));
  }

  lemma ReadFour(b0: Byte, b1: Byte, b2: Byte, b3: Byte, rest: seq<Byte>)
    requires Lead(b0).left == 3 && Lead(b0).lower <= b1 <= Lead(b0).upper && 0x80 <= b2 <= 0xBF && 0x80 <= b3 <= 0xBF
    ensures Read([b0, b1, b2, b3] + rest, READY)
            == [CharOf(((Lead(b0).code * 64 + b1 % 64) * 64 + b2 % 64) * 64 + b3 % 64)] + Read(rest, READY)
  {
    var st1 := Reading(Lead(b0).code * 64 + b1 % 64, 2, 0x80, 0xBF);
    ReadByte(READY, b0, [b1] + ([b2] + ([b3] + rest)));
    ReadByte(Lead(b0), b1, [b2] + ([b3] + rest));
    ReadByte(st1, b2, [b3] + rest);
    ReadByte(Reading(st1.code * 64 + b2 % 64, 1, 0x80, 0xBF), b3, rest);
    assert [b0, b1, b2, b3] + rest == [b0] + ([b1] + ([b2] + ([b3] + rest)));
  }

  /** The low six bits of a continuation byte. */
  lemma LowBits(k: int)
    requires 0 <= k < 64
    ensures (0x80 + k) % 64 == k
  {
  }

  lemma ThreePieces(n: nat)
    ensures (n / 0x1000 * 64 + n / 64 % 64) * 64 + n % 64 == n
  {
    var a := n / 64;
    assert n / 0x1000 == a / 64;
    assert a / 64 * 64 + a % 64 == a;
  }

  lemma FourPieces(n: nat)
    ensures ((n / 0x4_0000 * 64 + n / 0x1000 % 64) * 64 + n / 64 % 64) * 64 + n % 64 == n
  {
    var b := n / 0x1000;
    assert n / 0x4_0000 == b / 64;
    assert b / 64 * 64 + b % 64 == b;
    ThreePieces(n);
  }

  lemma ReadThreeByteChar(c: char, rest: seq<Byte>)
    requires 0x800 <= c as int < 0x1_0000
    ensures Read(EncodeChar(c) + rest, READY) == [c] + Read(rest, READY)
  {
    var n, e := c as int, EncodeChar(c);
    LowBits(n % 64);
    LowBits(n / 64 % 64);
    ThreePieces(n);
    ReadThree(e[0], e[1], e[2], rest);
  }

  lemma ReadFourByteChar(c: char, rest: seq<Byte>)
    requires 0x1_0000 <= c as int
    ensures Read(EncodeChar(c) + rest, READY) == [c] + Read(rest, READY)
  {
    var n, e := c as int, EncodeChar(c);
    LowBits(n % 64);
    LowBits(n / 64 % 64);
    LowBits(n / 0x1000 % 64);
    FourPieces(n);
    ReadFour(e[0], e[1], e[2], e[3], rest);
  }

  lemma ReadChar(c: char, rest: seq<Byte>)
    ensures Read(EncodeChar(c) + rest, READY) == [c] + Read(rest, READY)
  {
    var n, e := c as int, EncodeChar(c);
    if n < 0x80 {
      ReadByte(READY, e[0], rest);
    } else if n < 0x800 {
      LowBits(n % 64);
      ReadTwo(e[0], e[1], rest);
    } else if n < 0x1_0000 {
      ReadThreeByteChar(c, rest);
    } else {
      ReadFourByteChar(c, rest);
    }
  }

  /** Decoding undoes encoding, for every string. */
  lemma {:induction false} RoundTrip(s: string)
    ensures Decode(Encode(s)) == s
  {
    if s != "" {
      ReadChar(s[0], Encode(s[1..]));
      RoundTrip(s[1..]);
    }
  }

  /** The byte length of a string is the number of its bytes. */
  lemma {:induction false} ByteLengthCountsBytes(s: string)
    ensures ByteLength(s) == |Encode(s)|
  {
    if s != "" { ByteLengthCountsBytes(s[1..]); }
  }

  /** One character of each length. */
  lemma EncodedCharacters()
    ensures EncodeChar('A') == [0x41]
    ensures EncodeChar('\U{E9}') == [0xC3, 0xA9]
    ensures EncodeChar('\U{20AC}') == [0xE2, 0x82, 0xAC]
    ensures EncodeChar('\U{1F600}') == [0xF0, 0x9F, 0x98, 0x80]
  {
  }

  // --- a stream that breaks off ---

  lemma ReadOneOfMore(b0: Byte)
    requires Lead(b0).left >= 1
    ensures Read([b0], READY) == [REPLACEMENT]
  {
    ReadByte(READY, b0, []);
    assert [b0] + [] == [b0];
  }

  lemma ReadTwoOfMore(b0: Byte, b1: Byte)
    requires Lead(b0).left >= 2 && Lead(b0).lower <= b1 <= Lead(b0).upper
    ensures Read([b0, b1], READY) == [REPLACEMENT]
  {
    ReadByte(READY, b0, [b1] + []);
    ReadByte(Lead(b0), b1, []);
    assert [b0, b1] == [b0] + ([b1] + []);
  }

  lemma ReadThreeOfFour(b0: Byte, b1: Byte, b2: Byte)
    requires Lead(b0).left == 3 && Lead(b0).lower <= b1 <= Lead(b0).upper && 0x80 <= b2 <= 0xBF
    ensures Read([b0, b1, b2], READY) == [REPLACEMENT]
  {
    ReadByte(READY, b0, [b1] + ([b2] + []));
    ReadByte(Lead(b0), b1, [b2] + []);
    ReadByte(Reading(Lead(b0).code * 64 + b1 % 64, 2, 0x80, 0xBF), b2, []);
    assert [b0, b1, b2] == [b0] + ([b1] + ([b2] + []));
  }

  /** The first byte of a character says how many follow, and the second respects its bounds. */
  lemma EncodedWell(c: char)
    ensures var e := EncodeChar(c);
            |e| > 1 ==> Lead(e[0]).left == |e| - 1 && Lead(e[0]).lower <= e[1] <= Lead(e[0]).upper
  {
  }

  /** A character that breaks off is read as one replacement character. */
  lemma BrokenChar(c: char, k: nat)
    requires 0 < k < |EncodeChar(c)|
    ensures Decode(EncodeChar(c)[..k]) == [REPLACEMENT]
  {
    var e := EncodeChar(c);
    EncodedWell(c);
    if k == 1 {
      ReadOneOfMore(e[0]);
      assert e[..1] == [e[0]];
    } else if k == 2 {
      ReadTwoOfMore(e[0], e[1]);
      assert e[..2] == [e[0], e[1]];
    } else {
      ReadThreeOfFour(e[0], e[1], e[2]);
      assert e[..3] == [e[0], e[1], e[2]];
    }
  }

  lemma CutConcat<T>(a: seq<T>, b: seq<T>, n: nat)
    requires n <= |a| + |b|
    ensures (a + b)[..n] == if n < |a| then a[..n] else a + b[..n - |a|]
  {
  }

  /** However many bytes get through, they read as the first characters, and then at most one replacement character. */
  lemma {:induction false} BrokenStream(s: string, n: nat) returns (m: nat)
    requires n <= |Encode(s)|
    ensures m <= |s|
    ensures Decode(Encode(s)[..n]) == s[..m] || Decode(Encode(s)[..n]) == s[..m] + [REPLACEMENT]
  {
    if n == 0 {
      m := 0;
    } else {
      var e, rest := EncodeChar(s[0]), Encode(s[1..]);
      CutConcat(e, rest, n);
      if n < |e| {
        m := 0;
        BrokenChar(s[0], n);
      } else {
        var m' := BrokenStream(s[1..], n - |e|);
        ReadChar(s[0], rest[..n - |e|]);
        m := m' + 1;
        assert s[..m] == [s[0]] + s[1..][..m'];
      }
    }
  }

  lemma {:induction false} EncodeConcat(a: string, b: string)
    ensures Encode(a + b) == Encode(a) + Encode(b)
  {
    if a == "" {
      assert a + b == b;
    } else {
      assert (a + b)[0] == a[0] && (a + b)[1..] == a[1..] + b;
      EncodeConcat(a[1..], b);
    }
  }
}
