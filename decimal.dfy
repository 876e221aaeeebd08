/** Go's `strconv.ParseInt(s, 10, 64)`, which every handler uses to read an
    `{id}` path variable or a `game_id` query value, written out: an optional
    `+` or `-` sign, one or more ASCII decimal digits (no underscores in base
    10), and a value that must fit in a signed 64-bit integer. A syntax error
    and a range error are both failures; the callers do not tell them apart.
    `FormatInt` is `strconv.FormatInt(n, 10)`, the inverse partner. */
module Decimal {
  import opened Foundation

  const MinInt64: int := -0x8000_0000_0000_0000
  const MaxInt64: int := 0x7FFF_FFFF_FFFF_FFFF

  predicate IsInt64(n: int) { MinInt64 <= n <= MaxInt64 }

  predicate IsDigit(c: char) { '0' <= c <= '9' }

  predicate AllDigits(s: string) { forall i :: 0 <= i < |s| ==> IsDigit(s[i]) }

  /** The value of a string of decimal digits, most significant first. */
  function DigitsValue(s: string): nat
    requires AllDigits(s)
  {
    if s == [] then 0 else DigitsValue(s[..|s| - 1]) * 10 + (s[|s| - 1] as int - '0' as int)
  }

  /** The text after an optional leading sign. */
  function Unsigned(s: string): string {
    if s != [] && (s[0] == '+' || s[0] == '-') then s[1..] else s
  }

  /** `strconv.ParseInt(s, 10, 64)`; `None` is a non-nil error. */
  function ParseInt64(s: string): (r: Option<int>)
    ensures r.Some? ==> IsInt64(r.value)
    ensures r.Some? <==> Unsigned(s) != [] && AllDigits(Unsigned(s))
                         && (if s[0] == '-' then DigitsValue(Unsigned(s)) <= -MinInt64
                             else DigitsValue(Unsigned(s)) <= MaxInt64)
    ensures r.Some? ==> r.value == if s[0] == '-' then -(DigitsValue(Unsigned(s)) as int) else DigitsValue(Unsigned(s))
  {
    if s == [] then None
    else
      var neg := s[0] == '-';
      var body := Unsigned(s);
      if body == [] || !AllDigits(body) then None
      else
        var u: int := DigitsValue(body);
        if !neg && u > MaxInt64 then None
        else if neg && u > -MinInt64 then None
        else Some(if neg then -u else u)
  }

  function DigitChar(d: nat): char
    requires d < 10
  {
    ('0' as int + d) as char
  }

  /** `strconv.FormatInt(n, 10)` for a non-negative `n`. */
  function FormatNat(n: nat): string
    decreases n
  {
    if n < 10 then [DigitChar(n)] else FormatNat(n / 10) + [DigitChar(n % 10)]
  }

  /** `strconv.FormatInt(n, 10)`. */
  function FormatInt(n: int): string {
    if n < 0 then "-" + FormatNat(-n) else FormatNat(n)
  }

  /** FormatNat writes a non-empty digit string whose value is `n`. */
  lemma {:induction false} FormatNatDigits(n: nat)
    ensures FormatNat(n) != [] && AllDigits(FormatNat(n))
    ensures DigitsValue(FormatNat(n)) == n
    decreases n
  {
    var s := FormatNat(n);
    if n < 10 {
      assert s[..|s| - 1] == [];
    } else {
      FormatNatDigits(n / 10);
      assert s[..|s| - 1] == FormatNat(n / 10);
    }
  }

  /** Every signed 64-bit value survives formatting and parsing back. */
  lemma ParseFormatRoundTrip(n: int)
    requires IsInt64(n)
    ensures ParseInt64(FormatInt(n)) == Some(n)
  {
    var s := FormatInt(n);
    if n < 0 {
      FormatNatDigits(-n);
      assert s[0] == '-';
      assert Unsigned(s) == FormatNat(-n);
      assert DigitsValue(Unsigned(s)) == -n <= -MinInt64;
    } else {
      FormatNatDigits(n);
      assert IsDigit(s[0]);
      assert Unsigned(s) == FormatNat(n);
      assert DigitsValue(Unsigned(s)) == n <= MaxInt64;
    }
  }

  /** A parsed value formats back to a string that parses to the same
      value. */
  lemma ParsedValueFormatsBack(s: string)
    requires ParseInt64(s).Some?
    ensures ParseInt64(FormatInt(ParseInt64(s).value)) == ParseInt64(s)
  {
    ParseFormatRoundTrip(ParseInt64(s).value);
  }
}
