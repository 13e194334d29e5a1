/** JVM heap sizes and the container memory cap derived from them, in wrapping 64-bit arithmetic
    (`parseSize`, `deriveMemoryLimit` and the memory part of `buildResources` in `internal/docker/minecraft.go`). */
module MemoryLimit {
  import opened Text
  import opened Decimal

  const GIB := 0x4000_0000
  const MIB := 0x10_0000
  const KIB := 0x400

  /** Two's-complement wrap-around to 64 bits. */
  function Wrap(n: int): (w: int)
    ensures IsInt64(w)
    ensures IsInt64(n) ==> w == n
  {
    (n + 0x8000_0000_0000_0000) % 0x1_0000_0000_0000_0000 - 0x8000_0000_0000_0000
  }

  /** `strings.ToUpper` as far as this parser can tell: no character outside ASCII turns into a digit, a sign, a unit or a
      space, nor out of one. */
  function ToUpper(s: string): (u: string)
    ensures |u| == |s|
  {
    seq(|s|, i requires 0 <= i < |s| => if 'a' <= s[i] <= 'z' then (s[i] as int - 32) as char else s[i])
  }

  function Multiplier(unit: char): int {
    if unit == 'G' then GIB else if unit == 'M' then MIB else if unit == 'K' then KIB else 1
  }

  predicate IsUnit(unit: char) {
    unit == 'G' || unit == 'M' || unit == 'K'
  }

  /** The number before the unit, and the unit's multiplier. */
  function Written(s: string): Option<(int, int)> {
    var t := TrimSpace(ToUpper(s));
    if t == "" then None
    else
      var unit := t[|t| - 1];
      var number := if IsUnit(unit) then t[..|t| - 1] else t;
      match ParseInt(TrimSpace(number))
      case None => None
      case Some(n) => Some((n, Multiplier(unit)))
  }

  function Size(s: string): Option<int> {
    match Written(s)
    case None => None
    case Some((n, mult)) => Some(Wrap(n * mult))
  }

  function Limit(heap: string): int {
    match Size(heap)
    case None => 0
    case Some(bytes) => if bytes == 0 then 0 else Wrap(bytes + GIB)
  }

  method ParseSize(input: string) returns (size: Option<int>)
    ensures size == Size(input)
  {
    var s := TrimSpace(ToUpper(input));
    if s == "" {
      return None;
    }
    var mult := 1;
    var unit := s[|s| - 1];
    if unit == 'G' {
      mult, s := GIB, s[..|s| - 1];
    } else if unit == 'M' {
      mult, s := MIB, s[..|s| - 1];
    } else if unit == 'K' {
      mult, s := KIB, s[..|s| - 1];
    }
    var n := ParseInt(TrimSpace(s));
    if n == None {
      return None;
    }
    return Some(Wrap(n.value * mult));
  }

  method DeriveMemoryLimit(heap: string) returns (limit: int)
    ensures limit == Limit(heap)
  {
    var bytes := ParseSize(heap);
    if bytes == None || bytes.value == 0 {
      return 0;
    }
    return Wrap(bytes.value + GIB);
  }

  // --- what the arithmetic does ---

  /** Wrapped values agree exactly when the numbers agree modulo 2^64. */
  lemma WrapIsCongruence(a: int, b: int)
    ensures Wrap(a) == Wrap(b) <==> (a - b) % 0x1_0000_0000_0000_0000 == 0
  {
  }

  /** The cap is the heap plus one GiB, and so above the heap, exactly while that sum fits in 64 bits. */
  lemma LimitIsHeapPlusHeadroom(heap: string, n: int, mult: int)
    requires Written(heap) == Some((n, mult)) && n >= 1
    ensures mult >= 1
    ensures Limit(heap) == n * mult + GIB <==> n * mult <= MAX_INT64 - GIB
    ensures Limit(heap) > n * mult <==> n * mult <= MAX_INT64 - GIB
  {
    assert n * mult >= mult by { Scale(n, mult); }
  }

  lemma Scale(n: int, mult: int)
    requires n >= 1 && mult >= 1
    ensures n * mult >= mult
  {
  }

  /** The container is left uncapped exactly when the size does not parse or its wrapped product is 0 or minus one GiB. */
  lemma UncappedExactlyWhen(heap: string)
    ensures Limit(heap) == 0 <==>
              match Written(heap)
              case None => true
              case Some((n, mult)) => Wrap(n * mult) == 0 || Wrap(n * mult) == -GIB
  {
  }

  lemma QuotientIsUnique(x: int, q: int, m: int, r: int)
    requires m > 0 && x == q * m + r && 0 <= r < m
    ensures x % m == r
  {
    var d := q - x / m;
    assert d * m == x % m - r;
    if d >= 1 {
      Scale(d, m);
    } else if d <= -1 {
      Scale(-d, m);
    }
  }

  /** Scaling a residue: n*a modulo a*b. */
  lemma ScaledResidue(n: int, a: int, b: int)
    requires a > 0 && b > 0
    ensures a * b > 0 && (n * a) % (a * b) == (n % b) * a
  {
    var q, r := n / b, n % b;
    calc {
      n * a;
      (q * b + r) * a;
      q * b * a + r * a;
      q * (a * b) + r * a;
    }
    assert r * a < b * a by { assert (b - r) * a >= a by { Scale(b - r, a); } }
    assert r * a >= 0;
    assert a * b > 0;
    QuotientIsUnique(n * a, q, a * b, r * a);
  }

  /** The product of n and a unit of a bytes wraps to zero exactly when n is a multiple of 2^64 / a. */
  lemma WrapsToZero(n: int, a: int, b: int)
    requires a > 0 && b > 0 && a * b == 0x1_0000_0000_0000_0000
    ensures Wrap(n * a) == 0 <==> n % b == 0
  {
    WrapIsCongruence(n * a, 0);
    ScaledResidue(n, a, b);
    if n % b != 0 { Scale(n % b, a); }
  }

  lemma WrapsToMinusGiB(n: int, a: int, b: int, d: int)
    requires a > 0 && b > 0 && a * b == 0x1_0000_0000_0000_0000 && d * a == GIB
    ensures Wrap(n * a) == -GIB <==> (n + d) % b == 0
  {
    assert Wrap(-GIB) == -GIB;
    WrapIsCongruence(n * a, -GIB);
    assert n * a + GIB == (n + d) * a;
    WrapIsCongruence((n + d) * a, 0);
    WrapsToZero(n + d, a, b);
  }

  /** The same, by suffix: for a parsed number n, the cap is lost exactly in these residue classes. */
  lemma UncappedResidues(heap: string, n: int, mult: int)
    requires Written(heap) == Some((n, mult))
    ensures mult == GIB ==>
              (Limit(heap) == 0 <==> n % 0x4_0000_0000 == 0 || (n + 1) % 0x4_0000_0000 == 0)
    ensures mult == MIB ==>
              (Limit(heap) == 0 <==> n % 0x1000_0000_0000 == 0 || (n + 0x400) % 0x1000_0000_0000 == 0)
    ensures mult == KIB ==>
              (Limit(heap) == 0 <==> n % 0x40_0000_0000_0000 == 0 || (n + 0x10_0000) % 0x40_0000_0000_0000 == 0)
    ensures mult == 1 ==> (Limit(heap) == 0 <==> n == 0 || n == -GIB)
    ensures mult in {GIB, MIB, KIB, 1}
  {
    UncappedExactlyWhen(heap);
    if mult == GIB {
      WrapsToZero(n, GIB, 0x4_0000_0000);
      WrapsToMinusGiB(n, GIB, 0x4_0000_0000, 1);
    } else if mult == MIB {
      WrapsToZero(n, MIB, 0x1000_0000_0000);
      WrapsToMinusGiB(n, MIB, 0x1000_0000_0000, 0x400);
    } else if mult == KIB {
      WrapsToZero(n, KIB, 0x40_0000_0000_0000);
      WrapsToMinusGiB(n, KIB, 0x40_0000_0000_0000, 0x10_0000);
    }
  }

  const TWO_TO_THE_64 := 0x1_0000_0000_0000_0000

  /** The cap of a container. A cap that was asked for is never replaced. Otherwise the container gets its heap and one
      GiB, modulo 2^64, and goes uncapped exactly when the heap does not parse or that sum, or the heap itself, is 0
      modulo 2^64. */
  method BuildResourcesMemory(memory: string, explicit: int) returns (limit: int)
    requires IsInt64(explicit)
    ensures IsInt64(limit)
    ensures explicit != 0 ==> limit == explicit
    ensures explicit == 0 && limit != 0 ==>
              Written(memory).Some?
              && var (n, mult) := Written(memory).value; (n * mult + GIB - limit) % TWO_TO_THE_64 == 0
    ensures limit == 0 <==>
              explicit == 0
              && match Written(memory)
                 case None => true
                 case Some((n, mult)) => (n * mult) % TWO_TO_THE_64 == 0 || (n * mult + GIB) % TWO_TO_THE_64 == 0
  {
    limit := explicit;
    if limit == 0 {
      limit := DeriveMemoryLimit(memory);
      match Written(memory)
      case None =>
      case Some((n, mult)) => SumWraps(n * mult);
    }
  }

  lemma SumWraps(bytes: int)
    ensures Wrap(bytes) == 0 <==> bytes % TWO_TO_THE_64 == 0
    ensures Wrap(Wrap(bytes) + GIB) == 0 <==> (bytes + GIB) % TWO_TO_THE_64 == 0
    ensures (bytes + GIB - Wrap(Wrap(bytes) + GIB)) % TWO_TO_THE_64 == 0
  {
    var k := WrapDropsMultiple(bytes);
    var l := WrapDropsMultiple(Wrap(bytes) + GIB);
    assert bytes + GIB == Wrap(Wrap(bytes) + GIB) + (k + l) * TWO_TO_THE_64;
    ResidueOfMultiple(bytes, Wrap(bytes), k);
    ResidueOfMultiple(bytes + GIB, Wrap(Wrap(bytes) + GIB), k + l);
  }

  /** Wrapping takes away a multiple of 2^64. */
  lemma WrapDropsMultiple(n: int) returns (k: int)
    ensures n == Wrap(n) + k * TWO_TO_THE_64
  {
    k := (n + 0x8000_0000_0000_0000) / TWO_TO_THE_64;
  }

  lemma ResidueOfMultiple(n: int, w: int, k: int)
    requires n == w + k * TWO_TO_THE_64 && IsInt64(w)
    ensures n % TWO_TO_THE_64 == 0 <==> w == 0
    ensures (n - w) % TWO_TO_THE_64 == 0
  {
    if w >= 0 {
      QuotientIsUnique(n, k, TWO_TO_THE_64, w);
    } else {
      QuotientIsUnique(n, k - 1, TWO_TO_THE_64, w + TWO_TO_THE_64);
    }
    QuotientIsUnique(n - w, k, TWO_TO_THE_64, 0);
  }

  // --- spellings of one size ---

  /** "4g" is "4G". */
  lemma CaseIsIgnored(s: string)
    ensures Written(ToUpper(s)) == Written(s)
  {
    assert ToUpper(ToUpper(s)) == ToUpper(s);
  }

  /** Digits and space have no case. */
  lemma UpperOfPieces(n: int, suffix: string, p: string, q: string, r: string)
    requires AllSpace(p) && AllSpace(q) && AllSpace(r)
    ensures ToUpper(p + (FormatInt(n) + q + suffix) + r) == p + (FormatInt(n) + q + ToUpper(suffix)) + r
  {
    var digits := FormatInt(n);
    assert forall i | 0 <= i < |digits| :: digits[i] in digits;
    assert forall i | 0 <= i < |p| :: p[i] in p;
    assert forall i | 0 <= i < |q| :: q[i] in q;
    assert forall i | 0 <= i < |r| :: r[i] in r;
  }

  lemma NumberIsNotSpace(n: int)
    ensures var digits := FormatInt(n);
            !IsSpace(digits[0]) && !IsSpace(digits[|digits| - 1]) && !IsUnit(digits[|digits| - 1])
  {
    var digits := FormatInt(n);
    assert digits[0] in digits && digits[|digits| - 1] in digits;
  }

  /** A number without a suffix is a number of bytes. */
  lemma PlainNumberMeansBytes(n: int, p: string, r: string)
    requires IsInt64(n) && AllSpace(p) && AllSpace(r)
    ensures Written(p + FormatInt(n) + r) == Some((n, 1))
  {
    var digits := FormatInt(n);
    NumberIsNotSpace(n);
    assert ToUpper(p + digits + r) == p + digits + r by {
      UpperOfPieces(n, "", p, "", r);
      assert digits + "" + "" == digits && ToUpper("") == "";
    }
    TrimSpaceExactly(p, digits, r);
    TrimSpaceOfTrimmed(digits);
    ParseFormatInt(n);
  }

  /** What is left once the unit is cut off. */
  lemma UnitIsCutOff(digits: string, q: string, unit: char)
    requires digits != "" && !IsSpace(digits[0]) && !IsSpace(digits[|digits| - 1]) && AllSpace(q)
    ensures var t := digits + q + [unit];
            t[0] == digits[0] && t[|t| - 1] == unit && t[..|t| - 1] == digits + q && TrimSpace(digits + q) == digits
  {
    TrimSpaceExactly("", digits, q);
    assert "" + digits + q == digits + q;
  }

  /** A unit in upper case, once it has been trimmed and cut off. */
  lemma UnitMeans(n: int, suffix: char, unit: char, p: string, q: string, r: string)
    requires IsInt64(n) && IsUnit(unit) && ToUpper([suffix]) == [unit]
    requires AllSpace(p) && AllSpace(q) && AllSpace(r)
    ensures Written(p + (FormatInt(n) + q + [suffix]) + r) == Some((n, Multiplier(unit)))
  {
    UpperOfPieces(n, [suffix], p, q, r);
    NumberIsNotSpace(n);
    UnitIsCutOff(FormatInt(n), q, unit);
    TrimSpaceExactly(p, FormatInt(n) + q + [unit], r);
    ParseFormatInt(n);
  }

  /** A suffix in either case multiplies by 2^30, 2^20 or 2^10, with any space around the number and the suffix. */
  lemma SuffixesMean(n: int, suffix: char, p: string, q: string, r: string)
    requires IsInt64(n) && suffix in {'G', 'g', 'M', 'm', 'K', 'k'}
    requires AllSpace(p) && AllSpace(q) && AllSpace(r)
    ensures Written(p + (FormatInt(n) + q + [suffix]) + r)
            == Some((n, if suffix in {'G', 'g'} then 1073741824 else if suffix in {'M', 'm'} then 1048576 else 1024))
  {
    UnitMeans(n, suffix, if suffix in {'G', 'g'} then 'G' else if suffix in {'M', 'm'} then 'M' else 'K', p, q, r);
  }

  lemma NoSpaceAround(a: string, b: string)
    ensures "" + (a + "" + b) + "" == a + b
  {
  }

  lemma SizeOfNumber(n: nat, unit: char)
    requires IsUnit(unit) && IsInt64(n)
    ensures Size(FormatInt(n) + [unit]) == Some(Wrap(n * Multiplier(unit)))
  {
    assert ToUpper([unit]) == [unit];
    NoSpaceAround(FormatInt(n), [unit]);
    UnitMeans(n, unit, unit, "", "", "");
  }

  /** n gigabytes, 1024n megabytes and 1024^2 n kilobytes are the same size, even past the point where the product wraps,
      as long as the written numbers themselves fit. */
  lemma UnitsAgree(n: nat)
    requires IsInt64(0x10_0000 * n)
    ensures Size(FormatInt(n) + "G") == Some(Wrap(n * GIB))
    ensures Size(FormatInt(0x400 * n) + "M") == Some(Wrap(n * GIB))
    ensures Size(FormatInt(0x10_0000 * n) + "K") == Some(Wrap(n * GIB))
  {
    SizeOfNumber(n, 'G');
    SizeOfNumber(0x400 * n, 'M');
    SizeOfNumber(0x10_0000 * n, 'K');
    assert 0x400 * n * MIB == n * GIB && 0x10_0000 * n * KIB == n * GIB;
  }
}
