/** Go's `strconv.Atoi` (64-bit `int`) and the decimal formatting used by `%d`. */
module Strconv {
  import opened Wrappers

  const MinInt64: int := -0x8000_0000_0000_0000
  const MaxInt64: int := 0x7FFF_FFFF_FFFF_FFFF

  /** The two kinds of `*strconv.NumError` Atoi reports. */
  datatype NumError = ErrSyntax | ErrRange

  predicate IsDigit(c: char) {
    '0' <= c <= '9'
  }

  predicate AllDigits(s: string) {
    forall i :: 0 <= i < |s| ==> IsDigit(s[i])
  }

  /** The value of a string of decimal digits, most significant first. */
  function DigitsValue(s: string): nat
    requires AllDigits(s)
  {
    if |s| == 0 then 0
    else DigitsValue(s[..|s| - 1]) * 10 + (s[|s| - 1] as int - '0' as int)
  }

  const MaxUint64: int := 0xFFFF_FFFF_FFFF_FFFF

  /** The sign-free part of an Atoi argument: a leading '+' or '-' is dropped. */
  function Unsigned(s: string): string {
    if |s| > 0 && (s[0] == '-' || s[0] == '+') then s[1..] else s
  }

  /** Well-formed Atoi input: an optional sign, then one or more decimal digits
      (leading zeros allowed, no underscores). */
  predicate WellFormed(s: string) {
    |Unsigned(s)| > 0 && AllDigits(Unsigned(s))
  }

  /** The mathematical value of well-formed input. */
  function SignedValue(s: string): int
    requires WellFormed(s)
  {
    if s[0] == '-' then 0 - DigitsValue(Unsigned(s)) as int else DigitsValue(Unsigned(s))
  }

  /** `strconv.ParseUint(d, 10, 64)`'s scan from index i with accumulator n: left to right,
      a non-digit is a syntax error and an accumulator past the uint64 maximum is a range
      error, whichever comes first. */
  function ScanUint(d: string, i: nat, n: nat): Result<nat, NumError>
    requires i <= |d| && n <= MaxUint64
    decreases |d| - i
  {
    if i == |d| then Success(n)
    else if !IsDigit(d[i]) then Failure(ErrSyntax)
    else
      var n1 := n * 10 + (d[i] as int - '0' as int);
      if n1 > MaxUint64 then Failure(ErrRange) else ScanUint(d, i + 1, n1)
  }

  /** Atoi on a 64-bit platform. Fewer than 19 bytes take the fast path, which checks the
      syntax and cannot overflow. Longer input goes through ParseInt: ParseUint's scan on the
      unsigned part, then the int64 bounds for the sign. */
  function Atoi(s: string): (r: Result<int, NumError>)
    ensures r.Success? ==> MinInt64 <= r.value <= MaxInt64
    ensures |s| == 0 ==> r == Failure(ErrSyntax)
  {
    var digits := Unsigned(s);
    var negative := |s| > 0 && s[0] == '-';
    if |digits| == 0 then Failure(ErrSyntax)
    else if |s| < 19 then
      if !AllDigits(digits) then Failure(ErrSyntax)
      else
        ShortDigitsFit(digits);
        Success(SignedValue(s))
    else
      match ScanUint(digits, 0, 0)
      case Failure(e) => Failure(e)
      case Success(u) =>
        if negative && u > 0x8000_0000_0000_0000 then Failure(ErrRange)
        else if !negative && u >= 0x8000_0000_0000_0000 then Failure(ErrRange)
        else if negative then Success(0 - u)
        else Success(u)
  }

  function Pow10(k: nat): (p: nat)
    ensures p > 0
  {
    if k == 0 then 1 else 10 * Pow10(k - 1)
  }

  /** A string of k digits is worth less than 10^k. */
  lemma {:induction false} DigitsBelowPower(d: string)
    requires AllDigits(d)
    ensures DigitsValue(d) < Pow10(|d|)
  {
    if |d| > 0 {
      var p := d[..|d| - 1];
      assert AllDigits(p) by {
        forall i | 0 <= i < |p| ensures IsDigit(p[i]) { assert p[i] == d[i]; }
      }
      DigitsBelowPower(p);
      assert DigitsValue(d) == DigitsValue(p) * 10 + (d[|d| - 1] as int - '0' as int);
    }
  }

  lemma {:induction false} Pow10Monotone(k: nat, m: nat)
    requires k <= m
    ensures Pow10(k) <= Pow10(m)
  {
    if k < m {
      Pow10Monotone(k, m - 1);
    }
  }

  lemma {:induction false} Pow10Add(a: nat, b: nat)
    ensures Pow10(a + b) == Pow10(a) * Pow10(b)
  {
    if b > 0 {
      Pow10Add(a, b - 1);
      assert Pow10(a + b) == 10 * Pow10(a + (b - 1));
    }
  }

  /** At most 18 digits: the value is below 10^18 and thus inside the int64 range. */
  lemma ShortDigitsFit(d: string)
    requires AllDigits(d) && |d| <= 18
    ensures DigitsValue(d) < 1_000_000_000_000_000_000
  {
    DigitsBelowPower(d);
    Pow10Monotone(|d|, 18);
    Pow10Add(6, 6);
    Pow10Add(12, 6);
    assert Pow10(6) == 1_000_000;
  }

  /** A digit prefix is worth no more than the whole string. */
  lemma {:induction false} DigitsPrefixAtMost(d: string, k: nat)
    requires AllDigits(d) && k <= |d|
    ensures AllDigits(d[..k]) && DigitsValue(d[..k]) <= DigitsValue(d)
  {
    assert AllDigits(d[..k]) by {
      forall i | 0 <= i < k ensures IsDigit(d[..k][i]) { assert d[..k][i] == d[i]; }
    }
    if k == |d| {
      assert d[..k] == d;
    } else {
      var p := d[..|d| - 1];
      assert AllDigits(p) by {
        forall i | 0 <= i < |p| ensures IsDigit(p[i]) { assert p[i] == d[i]; }
      }
      DigitsPrefixAtMost(p, k);
      assert p[..k] == d[..k];
      assert DigitsValue(d) == DigitsValue(p) * 10 + (d[|d| - 1] as int - '0' as int);
    }
  }

  /** Extending a digit prefix by its next digit. */
  lemma DigitsValueStep(d: string, i: nat)
    requires i < |d| && AllDigits(d[..i]) && IsDigit(d[i])
    ensures AllDigits(d[..i + 1])
    ensures DigitsValue(d[..i + 1]) == DigitsValue(d[..i]) * 10 + (d[i] as int - '0' as int)
  {
    var q := d[..i + 1];
    assert q[..|q| - 1] == d[..i];
    assert AllDigits(q) by {
      forall j | 0 <= j < |q| ensures IsDigit(q[j]) {
        if j < i { assert q[j] == d[..i][j]; }
      }
    }
  }

  /** The range error fires at the first digit prefix whose value passes the uint64 maximum. */
  predicate OverflowsAt(d: string, k: nat)
    requires k <= |d|
  {
    AllDigits(d[..k]) && DigitsValue(d[..k]) > MaxUint64
  }

  /** What ParseUint's scan computes, stated without the scan: success exactly on digits whose
      value fits in uint64, a range error exactly when some digit prefix after i overflows,
      and a syntax error otherwise. */
  lemma {:induction false} ScanUintCases(d: string, i: nat)
    requires i <= |d| && AllDigits(d[..i]) && DigitsValue(d[..i]) <= MaxUint64
    ensures ScanUint(d, i, DigitsValue(d[..i])).Success? <==> AllDigits(d) && DigitsValue(d) <= MaxUint64
    ensures ScanUint(d, i, DigitsValue(d[..i])).Success? ==> ScanUint(d, i, DigitsValue(d[..i])).value == DigitsValue(d)
    ensures (ScanUint(d, i, DigitsValue(d[..i])) == Failure(ErrRange))
            <==> (exists k :: i < k <= |d| && OverflowsAt(d, k))
    decreases |d| - i
  {
    var n := DigitsValue(d[..i]);
    if i == |d| {
      assert d[..i] == d;
    } else if !IsDigit(d[i]) {
      forall k | i < k <= |d| ensures !OverflowsAt(d, k) {
        assert d[..k][i] == d[i];
      }
    } else {
      DigitsValueStep(d, i);
      var n1 := n * 10 + (d[i] as int - '0' as int);
      if n1 > MaxUint64 {
        assert OverflowsAt(d, i + 1);
        if AllDigits(d) {
          DigitsPrefixAtMost(d, i + 1);
        }
      } else {
        ScanUintCases(d, i + 1);
        assert !OverflowsAt(d, i + 1);
        assert (exists k :: i + 1 < k <= |d| && OverflowsAt(d, k))
               <==> (exists k :: i < k <= |d| && OverflowsAt(d, k));
      }
    }
  }

  /** Every outcome of Atoi: well-formed input in range parses to its value, well-formed
      input out of range is a range error, and malformed input is a range error exactly when
      it is 19 bytes or longer and a digit prefix of its unsigned part overflows uint64 before
      the first non-digit; otherwise it is a syntax error. */
  lemma AtoiCases(s: string)
    ensures WellFormed(s) && MinInt64 <= SignedValue(s) <= MaxInt64 ==> Atoi(s) == Success(SignedValue(s))
    ensures WellFormed(s) && !(MinInt64 <= SignedValue(s) <= MaxInt64) ==> Atoi(s) == Failure(ErrRange)
    ensures !WellFormed(s) ==> Atoi(s).Failure?
    ensures !WellFormed(s) ==>
              (Atoi(s) == Failure(ErrRange)
               <==> |s| >= 19 && exists k :: 0 < k <= |Unsigned(s)| && OverflowsAt(Unsigned(s), k))
  {
    var d := Unsigned(s);
    if |d| == 0 {
    } else if |s| < 19 {
      if AllDigits(d) {
        ShortDigitsFit(d);
      }
    } else {
      assert d[..0] == [];
      assert d[..|d|] == d;
      ScanUintCases(d, 0);
      if AllDigits(d) && DigitsValue(d) > MaxUint64 {
        assert OverflowsAt(d, |d|);
      }
    }
  }

  function DigitChar(d: nat): (c: char)
    requires d < 10
    ensures IsDigit(c) && c as int - '0' as int == d
  {
    ('0' as int + d) as char
  }

  /** The decimal digits of a natural number, without leading zeros. */
  function NatToDigits(n: nat): (s: string)
    ensures |s| > 0 && AllDigits(s)
  {
    if n < 10 then [DigitChar(n)] else NatToDigits(n / 10) + [DigitChar(n % 10)]
  }

  /** `strconv.Itoa` / `fmt` `%d`. */
  function Itoa(n: int): string {
    if n < 0 then "-" + NatToDigits(-n) else NatToDigits(n)
  }

  lemma {:induction false} DigitsValueOfNatToDigits(n: nat)
    ensures DigitsValue(NatToDigits(n)) == n
  {
    var s := NatToDigits(n);
    if n >= 10 {
      DigitsValueOfNatToDigits(n / 10);
      assert s[..|s| - 1] == NatToDigits(n / 10);
    }
  }

  /** Parsing what Itoa printed gives the number back, for every 64-bit int. */
  lemma AtoiItoa(n: int)
    requires MinInt64 <= n <= MaxInt64
    ensures Atoi(Itoa(n)) == Success(n)
  {
    var s := Itoa(n);
    if n < 0 {
      var digits := NatToDigits(-n);
      DigitsValueOfNatToDigits(-n);
      assert s == "-" + digits;
      assert s[0] == '-';
      assert Unsigned(s) == digits;
      assert SignedValue(s) == n;
    } else {
      DigitsValueOfNatToDigits(n);
      assert s == NatToDigits(n);
      assert IsDigit(s[0]);
      assert Unsigned(s) == s;
      assert SignedValue(s) == n;
    }
    AtoiCases(s);
  }
}
