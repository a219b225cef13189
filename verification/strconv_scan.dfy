/**
 The loops `strconv.Atoi` actually runs: a fast path for strings of 1 to 18
 characters that accumulates digits into an `int`, and otherwise `ParseInt`, whose
 `ParseUint` loop guards every step against uint64 overflow with a cutoff. Both
 are proved to compute the declarative `Strconv.Atoi`, which is what the ledger
 operations are stated in terms of.
 */
module StrconvScan {
  import opened GoInt
  import opened Strconv

  /** `ParseUint(u, 10, 64)` as a loop over the bytes of `u`. */
  method ScanUint(u: string) returns (n: int, err: NumError)
    ensures Conv(n, err) == ParseUint(u)
  {
    if |u| == 0 {
      return 0, ErrSyntax;
    }
    // the smallest n for which n * 10 exceeds 2^64 - 1
    var cutoff := MaxUint64 / 10 + 1;
    n := 0;
    var i := 0;
    while i < |u|
      invariant 0 <= i <= |u|
      invariant AllDigits(u[..i])
      invariant n == Value(u[..i]) && n <= MaxUint64
    {
      var c := u[i];
      if !IsDigit(c) {
        DigitPrefixStopsAt(u, i);
        return 0, ErrSyntax;
      }
      var d := DigitValue(c);
      assert u[..i + 1][..i] == u[..i];
      if n >= cutoff {
        OverflowIsRange(u, i + 1);
        return MaxUint64, ErrRange;
      }
      n := n * 10;
      // uint64 addition wraps; the check `n1 < n` catches it
      var n1 := (n + d) % TwoTo64;
      if n1 < n || n1 > MaxUint64 {
        OverflowIsRange(u, i + 1);
        return MaxUint64, ErrRange;
      }
      n := n1;
      i := i + 1;
    }
    assert u[..i] == u;
    ghost var p := DigitPrefix(u);
    assert p == |u|;
    err := NoError;
  }

  /** `strconv.Atoi(s)` on a 64-bit platform. */
  method ScanAtoi(s: string) returns (value: int, err: NumError)
    ensures Conv(value, err) == Atoi(s)
  {
    if 0 < |s| < 19 {
      // fast path: at most 18 digits always fit an int
      var t := s;
      if s[0] == '-' || s[0] == '+' {
        t := s[1..];
        if |t| < 1 {
          return 0, ErrSyntax;
        }
      }
      assert t == Unsigned(s);
      var n := 0;
      var i := 0;
      while i < |t|
        invariant 0 <= i <= |t|
        invariant AllDigits(t[..i])
        invariant n == Value(t[..i])
      {
        if !IsDigit(t[i]) {
          ShortSyntaxError(s, i);
          return 0, ErrSyntax;
        }
        assert t[..i + 1][..i] == t[..i];
        n := n * 10 + DigitValue(t[i]);
        i := i + 1;
      }
      assert t[..i] == t;
      ShortDecimal(s);
      if s[0] == '-' {
        n := -n;
      }
      return n, NoError;
    }
    // slow path
    value, err := ScanParseInt(s);
  }

  /** `ParseInt(s, 10, 0)`: an optional sign, then ParseUint, then the 64-bit
      range check, which clamps to the bound on the side of the sign. */
  method ScanParseInt(s: string) returns (value: int, err: NumError)
    ensures Conv(value, err) == Atoi(s)
  {
    if |s| == 0 {
      return 0, ErrSyntax;
    }
    var neg := false;
    var u := s;
    if s[0] == '+' {
      u := s[1..];
    } else if s[0] == '-' {
      neg := true;
      u := s[1..];
    }
    assert u == Unsigned(s);
    var un, uerr := ScanUint(u);
    if uerr == ErrSyntax {
      return 0, ErrSyntax;
    }
    if !neg && un >= TwoTo63 {
      return MaxInt64, ErrRange;
    }
    if neg && un > TwoTo63 {
      return MinInt64, ErrRange;
    }
    value := if neg then -un else un;
    err := NoError;
  }

  /** The first non-digit after a run of digits is where DigitPrefix stops. */
  lemma DigitPrefixStopsAt(u: string, i: nat)
    requires i < |u| && AllDigits(u[..i]) && !IsDigit(u[i])
    ensures DigitPrefix(u) == i
  {
  }

  /** Once a run of digits read from the front of `u` exceeds 2^64-1, the
      whole digit prefix does too, so ParseUint reports a range error. */
  lemma OverflowIsRange(u: string, j: nat)
    requires j <= |u| && AllDigits(u[..j]) && Value(u[..j]) > MaxUint64
    ensures ParseUint(u) == Conv(MaxUint64, ErrRange)
  {
    var p := DigitPrefix(u);
    assert j <= p;
    assert u[..p][..j] == u[..j];
    ValuePrefixMonotone(u[..p], j);
  }

  /** On a string of at most 18 characters, a non-digit after the sign is a
      syntax error. */
  lemma ShortSyntaxError(s: string, i: nat)
    requires 0 < |s| < 19
    requires i < |Unsigned(s)| && AllDigits(Unsigned(s)[..i]) && !IsDigit(Unsigned(s)[i])
    ensures Atoi(s) == Conv(0, ErrSyntax)
  {
    var u := Unsigned(s);
    DigitPrefixStopsAt(u, i);
    ShortDigitsFit(u[..i]);
  }

  /** A signed decimal of at most 18 characters always fits 64 bits. */
  lemma ShortDecimal(s: string)
    requires 0 < |s| < 19 && IsDecimal(s)
    ensures Atoi(s) == Conv(DecimalValue(s), NoError)
  {
    var u := Unsigned(s);
    ShortDigitsFit(u);
    var p := DigitPrefix(u);
    assert p == |u|;
    assert u[..p] == u;
  }

  /** Eighteen digits or fewer denote less than 10^18, far below 2^63. */
  lemma ShortDigitsFit(d: string)
    requires AllDigits(d) && |d| <= 18
    ensures Value(d) < 1_000_000_000_000_000_000
  {
    ValueBound(d);
    Pow10Monotone(|d|, 18);
    Pow10Eighteen();
  }
}
