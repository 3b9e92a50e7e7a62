/** The parts of Go's `strings` and `strconv` packages that the provider relies on. */
module Text {
  import opened Wrappers

  const MAX_INT64: int := 0x7FFF_FFFF_FFFF_FFFF

  type int64 = x: int | -0x8000_0000_0000_0000 <= x <= 0x7FFF_FFFF_FFFF_FFFF

  predicate HasSuffix(s: string, suffix: string) {
    |suffix| <= |s| && s[|s| - |suffix|..] == suffix
  }

  function TrimPrefix(s: string, prefix: string): string {
    if prefix <= s then s[|prefix|..] else s
  }

  predicate PlusFree(s: string) {
    '+' !in s
  }

  function Digit(d: nat): char
    requires d < 10
  {
    '0' + d as char
  }

  predicate IsDigit(c: char) {
    '0' <= c <= '9'
  }

  predicate AllDigits(s: string) {
    forall i :: 0 <= i < |s| ==> IsDigit(s[i])
  }

  function FormatNat(n: nat): string {
    if n < 10 then [Digit(n)] else FormatNat(n / 10) + [Digit(n % 10)]
  }

  /** `strconv.FormatInt(n, 10)`. */
  function FormatInt(n: int64): string {
    if n < 0 then "-" + FormatNat(-(n as int)) else FormatNat(n)
  }

  function DigitsValue(s: string): nat
    requires AllDigits(s)
  {
    if s == "" then 0 else DigitsValue(s[..|s| - 1]) * 10 + (s[|s| - 1] as int - '0' as int)
  }

  function ParseMagnitude(negative: bool, digits: string): Option<int64> {
    if digits == "" || !AllDigits(digits) then None
    else
      var magnitude: int := DigitsValue(digits);
      var value := if negative then -magnitude else magnitude;
      if -0x8000_0000_0000_0000 <= value <= 0x7FFF_FFFF_FFFF_FFFF then Some(value) else None
  }

  /** `strconv.ParseInt(s, 10, 64)`: an optional sign, digits only, and an error outside the int64 range. */
  function ParseInt(s: string): Option<int64> {
    if s != "" && (s[0] == '-' || s[0] == '+') then ParseMagnitude(s[0] == '-', s[1..])
    else ParseMagnitude(false, s)
  }

  lemma {:induction false} FormatNatDigits(n: nat)
    ensures FormatNat(n) != "" && AllDigits(FormatNat(n)) && DigitsValue(FormatNat(n)) == n
  {
    if n < 10 {
      assert FormatNat(n)[..0] == "";
    } else {
      FormatNatDigits(n / 10);
      assert FormatNat(n)[..|FormatNat(n)| - 1] == FormatNat(n / 10);
    }
  }

  /** Every int64, the minimum included, is non-empty text that parses back to itself. */
  lemma FormatParseRoundTrip(n: int64)
    ensures FormatInt(n) != "" && ParseInt(FormatInt(n)) == Some(n)
  {
    var magnitude: nat := if n < 0 then -(n as int) else n;
    var digits := FormatNat(magnitude);
    FormatNatDigits(magnitude);
    assert ParseMagnitude(n < 0, digits) == Some(n);
    if n < 0 {
      assert FormatInt(n)[1..] == digits;
    } else {
      assert IsDigit(digits[0]);
    }
  }

  lemma DigitsOf(n: nat)
    ensures FormatNat(n) != "" && IsDigit(FormatNat(n)[0]) && AllDigits(FormatNat(n)) && DigitsValue(FormatNat(n)) == n
  {
    FormatNatDigits(n);
  }

  /**
   * What is read as a number, and as which: an optional sign and digits, in the int64 range; nothing without a digit,
   * and nothing with any other character in it.
   */
  lemma ParseIntMeans(n: nat, s: string)
    ensures ParseInt("+" + FormatNat(n)) == ParseInt(FormatNat(n)) == (if n <= 0x7FFF_FFFF_FFFF_FFFF then Some(n) else None)
    ensures ParseInt("-" + FormatNat(n)) == (if n <= 0x8000_0000_0000_0000 then Some(-(n as int)) else None)
    ensures ParseInt("") == ParseInt("+") == ParseInt("-") == None
    ensures (exists i :: 0 < i < |s| && !('0' <= s[i] <= '9')) ==> ParseInt(s).None?
    ensures s != "" && !('0' <= s[0] <= '9') && s[0] != '+' && s[0] != '-' ==> ParseInt(s).None?
  {
    DigitsOf(n);
    assert ("+" + FormatNat(n))[1..] == FormatNat(n) && ("-" + FormatNat(n))[1..] == FormatNat(n);
    assert "+"[1..] == "" && "-"[1..] == "";
    if i :| 0 < i < |s| && !('0' <= s[i] <= '9') {
      assert s[1..][i - 1] == s[i];
    }
  }

  /** Distinct IDs never share a text, so an annotation names at most one robot. */
  lemma FormatIntInjective(m: int64, n: int64)
    requires FormatInt(m) == FormatInt(n)
    ensures m == n
  {
    FormatParseRoundTrip(m);
    FormatParseRoundTrip(n);
  }

  /** In `p+s` with a `+`-free tail, `+t` is a suffix for exactly one `+`-free `t`. */
  lemma SuffixAfterPlus(p: string, s: string, t: string)
    requires PlusFree(s) && PlusFree(t)
    ensures HasSuffix(p + "+" + s, "+" + t) <==> s == t
  {
    var whole, tail := p + "+" + s, "+" + t;
    if |t| <= |p| + |s| {
      var cut := whole[|whole| - |tail|..];
      assert cut[0] == whole[|whole| - |t| - 1];
      if |t| < |s| {
        assert cut[0] == s[|s| - |t| - 1];
      } else if |s| < |t| {
        assert cut[|t| - |s|] == '+';
        assert tail[|t| - |s|] == t[|t| - |s| - 1];
      } else {
        assert cut == "+" + s;
        assert (s == t) ==> cut == tail;
        assert cut == tail ==> cut[1..] == tail[1..];
        assert cut[1..] == s && tail[1..] == t;
      }
    }
  }
}
