/**
 Go's `strconv.Atoi` and `strconv.Itoa` on a 64-bit platform, as the
 chaincode uses them to parse balances from arguments and from the ledger and
 to print balances back into the ledger.

 `Atoi` is written the way `ParseInt(s, 10, 0)` computes it, including the value
 it returns next to an error: 0 on a syntax error, the nearest 64-bit bound on a
 range error. The grammar `IsDecimal` / `DecimalValue` is an independent
 description of what a signed decimal is, and the lemmas tie the two together.
 */
module Strconv {
  import opened GoInt

  /** The error half of Go's `(int, error)` result. */
  datatype NumError = NoError | ErrSyntax | ErrRange

  /** The pair `(value, err)` that `strconv.Atoi` returns. */
  datatype Conv = Conv(value: int, err: NumError)

  // ---------------------------------------------------------------------------
  // Digits

  predicate IsDigit(c: char) {
    '0' <= c <= '9'
  }

  predicate AllDigits(d: string) {
    forall i :: 0 <= i < |d| ==> IsDigit(d[i])
  }

  function DigitValue(c: char): (v: nat)
    requires IsDigit(c)
    ensures v < 10
  {
    (c as int) - ('0' as int)
  }

  function DigitChar(v: nat): (c: char)
    requires v < 10
    ensures IsDigit(c) && DigitValue(c) == v
  {
    (('0' as int) + v) as char
  }

  /** The number a run of decimal digits denotes, most significant first. */
  function Value(d: string): nat
    requires AllDigits(d)
  {
    if d == [] then 0 else Value(d[..|d| - 1]) * 10 + DigitValue(d[|d| - 1])
  }

  /** The length of the longest prefix of `u` made of digits. */
  function DigitPrefix(u: string): (p: nat)
    ensures p <= |u|
    ensures AllDigits(u[..p])
    ensures p < |u| ==> !IsDigit(u[p])
  {
    if u == [] || !IsDigit(u[0]) then 0
    else
      var p' := DigitPrefix(u[1..]);
      assert u[..1 + p'] == [u[0]] + u[1..][..p'];
      1 + p'
  }

  // ---------------------------------------------------------------------------
  // The grammar of a signed decimal

  /** The part of `s` after an optional leading `+` or `-`. */
  function Unsigned(s: string): (u: string)
    ensures |u| <= |s|
  {
    if |s| > 0 && (s[0] == '+' || s[0] == '-') then s[1..] else s
  }

  /** An optional sign followed by at least one decimal digit, and nothing else. */
  predicate IsDecimal(s: string) {
    var u := Unsigned(s);
    |u| > 0 && AllDigits(u)
  }

  function DecimalValue(s: string): int
    requires IsDecimal(s)
  {
    var v: int := Value(Unsigned(s));
    if s[0] == '-' then -v else v
  }

  /** What the chaincode accepts as an integer argument: a signed decimal whose
      value fits Go's 64-bit `int`. */
  predicate IsInt(s: string) {
    IsDecimal(s) && InInt64(DecimalValue(s))
  }

  /** The shape `Itoa` prints: no `+`, no leading zeros, and no `-0`. */
  predicate IsCanonical(s: string) {
    && IsDecimal(s)
    && s[0] != '+'
    && (Unsigned(s)[0] == '0' ==> s == "0")
  }

  // ---------------------------------------------------------------------------
  // Atoi

  /** `ParseUint(u, 10, 64)`: scanning stops with a range error as soon as the
      digits read so far exceed 2^64-1, and with a syntax error at the first
      non-digit. Both checks happen digit by digit, so an overflowing run of digits
      reports a range error even when a non-digit follows it. */
  function ParseUint(u: string): (c: Conv)
    ensures 0 <= c.value <= MaxUint64
    ensures c.err == ErrSyntax ==> c.value == 0
    ensures c.err == ErrRange ==> c.value == MaxUint64
  {
    if u == [] then Conv(0, ErrSyntax)
    else
      var p := DigitPrefix(u);
      if Value(u[..p]) > MaxUint64 then Conv(MaxUint64, ErrRange)
      else if p < |u| then Conv(0, ErrSyntax)
      else assert u[..p] == u; Conv(Value(u), NoError)
  }

  /** `strconv.Atoi(s)` for a 64-bit `int`, i.e. `ParseInt(s, 10, 0)`. */
  function Atoi(s: string): (c: Conv)
    ensures InInt64(c.value)
    ensures c.err == ErrSyntax ==> c.value == 0
    ensures c.err == ErrRange ==> c.value == MinInt64 || c.value == MaxInt64
  {
    if s == [] then Conv(0, ErrSyntax)
    else
      var neg := s[0] == '-';
      var un := ParseUint(Unsigned(s));
      if un.err == ErrSyntax then Conv(0, ErrSyntax)
      else if !neg && un.value >= TwoTo63 then Conv(MaxInt64, ErrRange)
      else if neg && un.value > TwoTo63 then Conv(MinInt64, ErrRange)
      else Conv(if neg then -un.value else un.value, NoError)
  }

  // ---------------------------------------------------------------------------
  // Itoa

  /** The decimal digits of `n`, without leading zeros. */
  function NatToDigits(n: nat): (d: string)
    ensures |d| > 0 && AllDigits(d)
    ensures d[0] == '0' ==> n == 0
  {
    if n < 10 then [DigitChar(n)] else NatToDigits(n / 10) + [DigitChar(n % 10)]
  }

  /** `strconv.Itoa(n)`, which is `FormatInt(int64(n), 10)`. */
  function Itoa(n: int): string
  {
    if n < 0 then "-" + NatToDigits(-n) else NatToDigits(n)
  }

  // ---------------------------------------------------------------------------
  // Facts about digit runs

  function Pow10(k: nat): (r: nat)
    ensures r > 0
  {
    if k == 0 then 1 else 10 * Pow10(k - 1)
  }

  lemma {:induction false} Pow10Monotone(j: nat, k: nat)
    requires j <= k
    ensures Pow10(j) <= Pow10(k)
  {
    if j < k {
      Pow10Monotone(j, k - 1);
    }
  }

  lemma Pow10Eighteen()
    ensures Pow10(18) == 1_000_000_000_000_000_000
  {
    assert Pow10(1) == 10;
    assert Pow10(2) == 100;
    assert Pow10(3) == 1_000;
    assert Pow10(4) == 10_000;
    assert Pow10(5) == 100_000;
    assert Pow10(6) == 1_000_000;
    assert Pow10(7) == 10_000_000;
    assert Pow10(8) == 100_000_000;
    assert Pow10(9) == 1_000_000_000;
    assert Pow10(10) == 10_000_000_000;
    assert Pow10(11) == 100_000_000_000;
    assert Pow10(12) == 1_000_000_000_000;
    assert Pow10(13) == 10_000_000_000_000;
    assert Pow10(14) == 100_000_000_000_000;
    assert Pow10(15) == 1_000_000_000_000_000;
    assert Pow10(16) == 10_000_000_000_000_000;
    assert Pow10(17) == 100_000_000_000_000_000;
  }

  /** A run of `k` digits denotes less than 10^k. */
  lemma {:induction false} ValueBound(d: string)
    requires AllDigits(d)
    ensures Value(d) < Pow10(|d|)
  {
    if d != [] {
      ValueBound(d[..|d| - 1]);
    }
  }

  /** Reading more digits never yields a smaller number. */
  lemma {:induction false} ValuePrefixMonotone(d: string, j: nat)
    requires AllDigits(d)
    requires j <= |d|
    ensures Value(d[..j]) <= Value(d)
  {
    if j < |d| {
      assert d[..|d| - 1][..j] == d[..j];
      ValuePrefixMonotone(d[..|d| - 1], j);
    } else {
      assert d[..j] == d;
    }
  }

  /** A digit run starting with a non-zero digit denotes a positive number. */
  lemma {:induction false} ValuePositive(d: string)
    requires AllDigits(d) && |d| > 0 && d[0] != '0'
    ensures Value(d) > 0
  {
    if |d| > 1 {
      ValuePositive(d[..|d| - 1]);
    }
  }

  /** NatToDigits is a right inverse of Value. */
  lemma {:induction false} ValueOfDigits(n: nat)
    ensures Value(NatToDigits(n)) == n
  {
    var d := NatToDigits(n);
    if n >= 10 {
      assert d[..|d| - 1] == NatToDigits(n / 10);
      ValueOfDigits(n / 10);
    }
  }

  /** ... and a left inverse on digit runs without leading zeros. */
  lemma {:induction false} DigitsOfValue(d: string)
    requires AllDigits(d) && |d| > 0
    requires d[0] == '0' ==> |d| == 1
    ensures NatToDigits(Value(d)) == d
  {
    var n := Value(d);
    if |d| == 1 {
      assert d[..|d| - 1] == [];
      assert Value(d[..|d| - 1]) == 0;
      assert n == DigitValue(d[0]);
      assert DigitChar(n) == d[0];
    } else {
      var init := d[..|d| - 1];
      ValuePositive(init);
      DigitsOfValue(init);
      assert n / 10 == Value(init);
      assert DigitChar(n % 10) == d[|d| - 1];
      assert d == init + [d[|d| - 1]];
    }
  }

  // ---------------------------------------------------------------------------
  // Atoi against the grammar

  /** Atoi succeeds exactly on signed decimals that fit 64 bits, and then yields
      their value. */
  lemma AtoiAccepts(s: string)
    ensures Atoi(s).err == NoError <==> IsInt(s)
    ensures IsInt(s) ==> Atoi(s).value == DecimalValue(s)
  {
    var u := Unsigned(s);
    if s != [] && u != [] {
      var p := DigitPrefix(u);
      if AllDigits(u) {
        assert p == |u|;
        assert u[..p] == u;
      } else {
        assert p < |u|;
      }
    }
  }

  /** A signed decimal outside the 64-bit range is a range error whose value is
      the bound on the side of its sign. */
  lemma AtoiOutOfRange(s: string)
    requires IsDecimal(s) && !InInt64(DecimalValue(s))
    ensures Atoi(s).err == ErrRange
    ensures Atoi(s).value == if DecimalValue(s) < 0 then MinInt64 else MaxInt64
  {
  }

  /** A string that is not a signed decimal, with fewer than 20 characters after
      its sign, is a syntax error with value 0: its digits cannot overflow before
      the scan reaches the offending character. */
  lemma AtoiSyntaxError(s: string)
    requires !IsDecimal(s) && |Unsigned(s)| < 20
    ensures Atoi(s) == Conv(0, ErrSyntax)
  {
    var u := Unsigned(s);
    if s != [] && u != [] {
      var p := DigitPrefix(u);
      assert p < |u|;
      ValueBound(u[..p]);
      Pow10Monotone(p, 18);
      Pow10Eighteen();
    }
  }

  // ---------------------------------------------------------------------------
  // Itoa and the round trip

  /** Itoa prints the canonical decimal of its argument. */
  lemma ItoaCanonical(n: int)
    ensures IsCanonical(Itoa(n))
    ensures DecimalValue(Itoa(n)) == n
  {
    var s := Itoa(n);
    ValueOfDigits(if n < 0 then -n else n);
    if n < 0 {
      assert Unsigned(s) == NatToDigits(-n);
    } else {
      assert Unsigned(s) == NatToDigits(n);
    }
  }

  /** A decimal is canonical exactly when printing its value gives it back. */
  lemma CanonicalIffFixed(s: string)
    requires IsDecimal(s)
    ensures IsCanonical(s) <==> Itoa(DecimalValue(s)) == s
  {
    if IsCanonical(s) {
      var u := Unsigned(s);
      DigitsOfValue(u);
      if s[0] == '-' {
        ValuePositive(u);
        assert s == "-" + u;
      } else {
        assert s == u;
      }
    } else if Itoa(DecimalValue(s)) == s {
      ItoaCanonical(DecimalValue(s));
    }
  }

  /** Decimal round trip: parsing what Itoa prints gives back every 64-bit value. */
  lemma AtoiItoa(n: int)
    requires InInt64(n)
    ensures Atoi(Itoa(n)) == Conv(n, NoError)
  {
    ItoaCanonical(n);
    AtoiAccepts(Itoa(n));
  }

  /** Printing what Atoi parsed normalises the input: the result is canonical,
      denotes the same value, and is the input itself when that was canonical. */
  lemma ItoaAtoi(s: string)
    requires Atoi(s).err == NoError
    ensures IsCanonical(Itoa(Atoi(s).value))
    ensures Atoi(Itoa(Atoi(s).value)) == Atoi(s)
    ensures IsCanonical(s) ==> Itoa(Atoi(s).value) == s
  {
    AtoiAccepts(s);
    ItoaCanonical(Atoi(s).value);
    AtoiItoa(Atoi(s).value);
    CanonicalIffFixed(s);
  }

  lemma PlusZeroZeroSeven()
    ensures IsInt("+007") && DecimalValue("+007") == 7
  {
    assert Unsigned("+007") == "007";
    assert Value("0") == 0 by {
      assert "0"[..0] == "";
    }
    assert Value("00") == 0 by {
      assert "00"[..1] == "0";
    }
    assert Value("007") == 7 by {
      assert "007"[..2] == "00";
    }
  }

  lemma MinusZero()
    ensures IsInt("-0") && DecimalValue("-0") == 0
  {
    assert Unsigned("-0") == "0";
    assert Value("0") == 0 by {
      assert "0"[..0] == "";
    }
  }

  /** The normalisation the ledger applies to a balance argument: a sign and
      leading zeros are dropped. */
  lemma NormaliseExample()
    ensures Atoi("+007") == Conv(7, NoError)
    ensures Itoa(Atoi("+007").value) == "7"
    ensures Itoa(Atoi("-0").value) == "0"
  {
    PlusZeroZeroSeven();
    AtoiAccepts("+007");
    MinusZero();
    AtoiAccepts("-0");
    assert Itoa(7) == "7";
  }
}
