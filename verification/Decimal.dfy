/** Decimal numbers: `strconv.FormatInt` and `strconv.ParseInt` in base 10 with 64 bits. */
module Decimal {
  import opened Text

  const MIN_INT64 := -0x8000_0000_0000_0000
  const MAX_INT64 := 0x7fff_ffff_ffff_ffff

  predicate IsInt64(n: int) {
    MIN_INT64 <= n <= MAX_INT64
  }

  predicate IsDigit(c: char) {
    '0' <= c <= '9'
  }

  function FormatNat(n: nat): (s: string)
    ensures s != "" && forall c | c in s :: IsDigit(c)
  {
    var digit := ('0' as int + n % 10) as char;
    if n < 10 then [digit] else FormatNat(n / 10) + [digit]
  }

  function FormatInt(n: int): (s: string)
    ensures s != "" && forall c | c in s :: IsDigit(c) || c == '-'
  {
    if n < 0 then "-" + FormatNat(-n) else FormatNat(n)
  }

  /** The value of a non-empty string of digits, and nothing for any other string. */
  function ParseNat(s: string): Option<nat> {
    if s == "" || !IsDigit(s[|s| - 1]) then None
    else
      var digit := s[|s| - 1] as int - '0' as int;
      if |s| == 1 then Some(digit)
      else
        match ParseNat(s[..|s| - 1])
        case None => None
        case Some(n) => Some(n * 10 + digit)
  }

  /** An optional sign, then digits; out-of-range values are errors. */
  function ParseInt(s: string): Option<int> {
    var negative := s != "" && s[0] == '-';
    var digits := if s != "" && (s[0] == '-' || s[0] == '+') then s[1..] else s;
    match ParseNat(digits)
    case None => None
    case Some(n) =>
      var magnitude: int := n;
      var value := if negative then -magnitude else magnitude;
      if IsInt64(value) then Some(value) else None
  }

  /** Digits come most significant first. */
  lemma WrittenOut()
    ensures FormatInt(1203) == "1203" && FormatInt(-7) == "-7" && FormatInt(0) == "0"
  {
    assert FormatNat(1) == "1" && FormatNat(12) == "12" && FormatNat(120) == "120";
  }

  lemma {:induction false} ParseNatAccepts(s: string)
    ensures ParseNat(s).Some? <==> s != "" && forall c | c in s :: IsDigit(c)
  {
    if s != "" {
      assert s == s[..|s| - 1] + [s[|s| - 1]];
      if |s| > 1 { ParseNatAccepts(s[..|s| - 1]); }
    }
  }

  /** Digits, with a sign or without, are their number if it fits in 64 bits. */
  lemma ParseIntReads(digits: string)
    requires digits != "" && forall c | c in digits :: IsDigit(c)
    ensures ParseNat(digits).Some?
    ensures var n: int := ParseNat(digits).value;
            && ParseInt(digits) == (if n <= MAX_INT64 then Some(n) else None)
            && ParseInt(['+'] + digits) == (if n <= MAX_INT64 then Some(n) else None)
            && ParseInt(['-'] + digits) == (if -n >= MIN_INT64 then Some(-n) else None)
  {
    ParseNatAccepts(digits);
    assert digits[0] in digits;
    assert (['+'] + digits)[1..] == digits;
    assert (['-'] + digits)[1..] == digits;
  }

  /** Nothing else is a number. */
  lemma ParseIntAccepts(s: string)
    requires ParseInt(s).Some?
    ensures s != ""
    ensures var digits := if s[0] == '+' || s[0] == '-' then s[1..] else s;
            digits != "" && forall c | c in digits :: IsDigit(c)
  {
    ParseNatAccepts(if s != "" && (s[0] == '-' || s[0] == '+') then s[1..] else s);
  }

  lemma {:induction false} ParseFormatNat(n: nat)
    ensures ParseNat(FormatNat(n)) == Some(n)
  {
    if n >= 10 {
      ParseFormatNat(n / 10);
      var s := FormatNat(n);
      assert s[..|s| - 1] == FormatNat(n / 10);
    }
  }

  /** Printing then parsing gives the number back exactly when it fits in 64 bits. */
  lemma ParseFormatInt(n: int)
    ensures ParseInt(FormatInt(n)) == if IsInt64(n) then Some(n) else None
  {
    ParseFormatNat(if n < 0 then -n else n);
    if n < 0 {
      assert FormatInt(n)[1..] == FormatNat(-n);
    } else {
      assert IsDigit(FormatInt(n)[0]);
    }
  }

  lemma FormatIntIsInjective(a: int, b: int)
    requires FormatInt(a) == FormatInt(b)
    ensures a == b
  {
    ParseFormatNat(if a < 0 then -a else a);
    ParseFormatNat(if b < 0 then -b else b);
    if a < 0 { assert FormatInt(a)[1..] == FormatNat(-a); } else { assert IsDigit(FormatInt(a)[0]); }
    if b < 0 { assert FormatInt(b)[1..] == FormatNat(-b); } else { assert IsDigit(FormatInt(b)[0]); }
  }
}
