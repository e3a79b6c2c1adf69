/** Rupee amounts as text: parsing decimal input to minor units and printing them back. */
module MoneyText {
  import opened Base
  import opened MarketState

  const MAX_INT64: int := 0x7FFF_FFFF_FFFF_FFFF

  // ---- Text ----

  /** The white space that TrimSpace removes. */
  predicate Space(c: char) {
    || '\t' <= c <= '\r' || c == ' ' || c == '\U{85}' || c == '\U{A0}' || c == '\U{1680}'
    || '\U{2000}' <= c <= '\U{200A}' || c == '\U{2028}' || c == '\U{2029}' || c == '\U{202F}'
    || c == '\U{205F}' || c == '\U{3000}'
  }

  function Trim(s: string): string {
    if s != "" && Space(s[0]) then Trim(s[1..])
    else if s != "" && Space(s[|s| - 1]) then Trim(s[..|s| - 1])
    else s
  }

  function IndexOfDot(s: string): (i: nat)
    ensures i <= |s| && (i < |s| ==> s[i] == '.')
    ensures forall j | 0 <= j < i :: s[j] != '.'
  {
    if s == "" || s[0] == '.' then 0 else 1 + IndexOfDot(s[1..])
  }

  function Split(s: string): (parts: seq<string>)
    ensures |parts| >= 1
    decreases |s|
  {
    var i := IndexOfDot(s);
    if i == |s| then [s] else [s[..i]] + Split(s[i + 1..])
  }

  predicate Digit(c: char) {
    '0' <= c <= '9'
  }

  predicate AllDigits(s: string) {
    forall i | 0 <= i < |s| :: Digit(s[i])
  }

  function Number(s: string): int {
    if s == "" then 0 else 10 * Number(s[..|s| - 1]) + (s[|s| - 1] as int - '0' as int)
  }

  /** Decimal digits into a signed 64-bit integer, or an overflow error. */
  function ParseInt(s: string): Option<int> {
    if Number(s) > MAX_INT64 then None else Some(Number(s))
  }

  // ---- The grammar of an amount ----

  /** One or two decimals, read as hundredths. */
  function Hundredths(s: string): int {
    if |s| == 1 then 10 * Number(s) else Number(s)
  }

  ghost predicate Decimals(t: string, i: nat, v: int) {
    && 0 < i < |t| && t[i] == '.'
    && AllDigits(t[..i])
    && AllDigits(t[i + 1..]) && 1 <= |t[i + 1..]| <= 2
    && v == 100 * Number(t[..i]) + Hundredths(t[i + 1..])
  }

  /** The text is a whole number of rupees, or one with one or two decimals, worth v minor units. */
  ghost predicate Denotes(t: string, v: int) {
    || (t != "" && AllDigits(t) && v == 100 * Number(t))
    || (exists i: nat :: Decimals(t, i, v))
  }

  /** Accepted are exactly the texts of the grammar worth at most the maximum, at exactly that value. */
  method ParsePKR(input: string) returns (minor: Result<int>)
    ensures minor.Ok? ==> Denotes(Trim(input), minor.value) && minor.value <= MAX_FARE_MINOR
    ensures minor.Err? ==>
      minor.error.InvalidPolicy? && forall v | Denotes(Trim(input), v) :: v > MAX_FARE_MINOR
  {
    hide Trim, Split, Space, Number;
    var text := Trim(input);
    var parts := Split(text);
    SplitMeansDots(text);
    if |parts| > 2 || parts[0] == "" { return Err(InvalidPolicy); }
    for p := 0 to |parts|
      invariant forall q | 0 <= q < p :: parts[q] != "" && AllDigits(parts[q])
    {
      if parts[p] == "" { return Err(InvalidPolicy); }
      for c := 0 to |parts[p]|
        invariant forall j | 0 <= j < c :: Digit(parts[p][j])
      {
        if parts[p][c] < '0' || parts[p][c] > '9' {
          assert !AllDigits(parts[p]);
          return Err(InvalidPolicy);
        }
      }
    }
    NumberIsNatural(parts[0]);
    var whole := ParseInt(parts[0]);
    if |parts| == 2 { NumberIsNatural(parts[1]); }
    if whole.None? || whole.value > MAX_FARE_MINOR / 100 { return Err(InvalidPolicy); }
    var fraction := 0;
    if |parts| == 2 {
      if |parts[1]| > 2 { return Err(InvalidPolicy); }
      var digits := parts[1];
      if |digits| == 1 {
        AppendZero(digits);
        digits := digits + "0";
      }
      fraction := Number(digits);
    }
    var value := whole.value * 100 + fraction;
    if |parts| == 2 { assert Decimals(text, |parts[0]|, value); }
    if value > MAX_FARE_MINOR {
      DenotesOnce(text, value);
      return Err(InvalidPolicy);
    }
    return Ok(value);
  }

  lemma NumberIsNatural(s: string)
    requires AllDigits(s)
    ensures Number(s) >= 0
  {
    if s != "" { NumberIsNatural(s[..|s| - 1]); }
  }

  lemma AppendZero(s: string)
    ensures Number(s + "0") == 10 * Number(s)
  {
    assert (s + "0")[..|s|] == s;
  }

  /** What the parts of a split say about the dots of the text. */
  lemma SplitMeansDots(s: string)
    ensures var parts := Split(s);
      && (|parts| == 1 ==> parts[0] == s && '.' !in s)
      && (|parts| == 2 ==>
            && |parts[0]| < |s| && s[|parts[0]|] == '.' && parts[0] == s[..|parts[0]|] && parts[1] == s[|parts[0]| + 1..]
            && '.' !in parts[0] && '.' !in parts[1])
      && (|parts| > 2 ==> exists i, j :: 0 <= i < j < |s| && s[i] == '.' && s[j] == '.')
  {
    var i := IndexOfDot(s);
    if i < |s| {
      var rest := s[i + 1..];
      var j := IndexOfDot(rest);
      if j < |rest| { assert s[i + 1 + j] == '.'; }
    }
  }

  /** A text that denotes an amount has at most one dot, so it denotes one amount only. */
  lemma DenotesOnce(t: string, v: int)
    requires Denotes(t, v)
    ensures forall w | Denotes(t, w) :: w == v
  {
    forall w | Denotes(t, w) ensures w == v {
      if i: nat :| Decimals(t, i, v) {
        assert !Digit(t[i]);
        if j: nat :| Decimals(t, j, w) { SameDot(t, i, v, j, w); }
      }
      if j: nat :| Decimals(t, j, w) { assert !Digit(t[j]); }
    }
  }

  lemma SameDot(t: string, i: nat, v: int, j: nat, w: int)
    requires Decimals(t, i, v) && Decimals(t, j, w)
    ensures i == j
  {
    forall a | 0 <= a < j ensures Digit(t[a]) { assert t[a] == t[..j][a]; }
    forall a | 0 <= a < i ensures Digit(t[a]) { assert t[a] == t[..i][a]; }
  }

  // ---- Printing ----

  function DigitChar(d: int): char
    requires 0 <= d < 10
  {
    "0123456789"[d]
  }

  function Decimal(n: nat): string {
    if n < 10 then [DigitChar(n)] else Decimal(n / 10) + [DigitChar(n % 10)]
  }

  /** Rupees, a dot, and exactly two decimals. */
  function FormatPKR(v: nat): string {
    Decimal(v / 100) + "." + [DigitChar(v % 100 / 10), DigitChar(v % 10)]
  }

  lemma {:induction false} DecimalReadsBack(n: nat)
    ensures Decimal(n) != "" && AllDigits(Decimal(n)) && Number(Decimal(n)) == n
  {
    if n >= 10 {
      DecimalReadsBack(n / 10);
      var d := Decimal(n);
      assert d[..|d| - 1] == Decimal(n / 10);
    } else {
      assert Decimal(n)[..0] == "";
    }
  }

  lemma TwoDigits(v: nat)
    ensures var s := [DigitChar(v % 100 / 10), DigitChar(v % 10)]; AllDigits(s) && Number(s) == v % 100
  {
    var s := [DigitChar(v % 100 / 10), DigitChar(v % 10)];
    assert s[..1][..0] == "";
    assert Number(s[..1]) == v % 100 / 10;
  }

  lemma FormatDenotes(v: nat)
    ensures Trim(FormatPKR(v)) == FormatPKR(v) && Denotes(FormatPKR(v), v)
  {
    var whole, cents := Decimal(v / 100), [DigitChar(v % 100 / 10), DigitChar(v % 10)];
    var t := FormatPKR(v);
    DecimalReadsBack(v / 100);
    TwoDigits(v);
    assert t[..|whole|] == whole && t[|whole| + 1..] == cents;
    assert t[0] == whole[0] && Digit(t[0]);
    assert t[|t| - 1] == cents[1] && Digit(t[|t| - 1]);
    assert Decimals(t, |whole|, v);
  }

  /** Every amount in range prints to a text that parses back to it. */
  method PrintAndParse(v: nat) returns (minor: Result<int>)
    requires v <= MAX_FARE_MINOR
    ensures minor == Ok(v)
  {
    FormatDenotes(v);
    DenotesOnce(FormatPKR(v), v);
    minor := ParsePKR(FormatPKR(v));
  }

  /** Printing is injective: texts worth different amounts never print alike, and equal amounts always do. */
  lemma PrintsAlikeIffEqual(v: nat, w: nat)
    ensures FormatPKR(v) == FormatPKR(w) <==> v == w
  {
    if FormatPKR(v) == FormatPKR(w) {
      FormatDenotes(v);
      FormatDenotes(w);
      DenotesOnce(FormatPKR(v), v);
    }
  }
}
