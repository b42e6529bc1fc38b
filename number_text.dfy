/**
 * Integer text as the SPEND metric uses it: JavaScript's `parseInt`, `String(n)`,
 * `toLocaleString()` with en-US thousands separators, the `$` prefix, and
 * `replace(/[$,]/g, '')`. The point is that formatting a spend and parsing it back
 * gives the same number.
 */
module NumberText {

  /** A JavaScript number as far as the model needs one: an integer, or NaN. */
  datatype Parsed = NaN | Num(value: int)

  predicate IsDigit(c: char) { '0' <= c <= '9' }

  predicate AllDigits(s: string) { forall i :: 0 <= i < |s| ==> IsDigit(s[i]) }

  function DigitChar(d: int): (c: char)
    requires 0 <= d < 10
    ensures IsDigit(c) && c as int - '0' as int == d
  {
    ('0' as int + d) as char
  }

  /** The value of the digits of `s`, read most significant first. */
  function ValueOf(s: string): nat
    requires AllDigits(s)
  {
    if s == [] then 0 else ValueOf(s[..|s| - 1]) * 10 + (s[|s| - 1] as int - '0' as int)
  }

  /** `String(n)` for a non-negative integer: decimal digits without leading zeros. */
  function Decimal(n: nat): (r: string)
    ensures |r| >= 1 && AllDigits(r)
    ensures r[0] != '0' || n == 0
  {
    if n < 10 then [DigitChar(n)] else Decimal(n / 10) + [DigitChar(n % 10)]
  }

  /** Reading back the decimal digits of `n` gives `n`. */
  lemma {:induction false} ValueOfDecimal(n: nat)
    ensures ValueOf(Decimal(n)) == n
  {
    if n >= 10 {
      var d := Decimal(n);
      ValueOfDecimal(n / 10);
      assert d[..|d| - 1] == Decimal(n / 10);
    }
  }

  /** Different numbers have different decimal texts. */
  lemma DecimalInjective(a: nat, b: nat)
    ensures Decimal(a) == Decimal(b) ==> a == b
  {
    ValueOfDecimal(a);
    ValueOfDecimal(b);
  }

  /** The longest prefix of `s` made of digits. */
  function LeadingDigits(s: string): (r: string)
    ensures |r| <= |s| && r == s[..|r|] && AllDigits(r)
    ensures |r| < |s| ==> !IsDigit(s[|r|])
  {
    if s == [] || !IsDigit(s[0]) then [] else [s[0]] + LeadingDigits(s[1..])
  }

  /**
   * `parseInt(s)` on a string with no leading white space and no `0x` prefix: an optional
   * sign, then the longest run of decimal digits; NaN when there is no digit.
   */
  function ParseInt(s: string): (r: Parsed)
    ensures (|s| == 0 || (!IsDigit(s[0]) && s[0] != '-' && s[0] != '+')) ==> r == NaN
    ensures |s| > 0 && IsDigit(s[0]) ==> r.Num? && r.value >= 0
    ensures r.Num? && r.value < 0 ==> s[0] == '-'
  {
    var negative := |s| > 0 && s[0] == '-';
    var unsigned := if |s| > 0 && (s[0] == '-' || s[0] == '+') then s[1..] else s;
    var digits := LeadingDigits(unsigned);
    if digits == [] then NaN
    else if negative then Num(-(ValueOf(digits) as int))
    else Num(ValueOf(digits))
  }

  /** Reading back the decimal text of any integer gives it, with or without a minus sign. */
  lemma ParseDecimal(n: nat)
    ensures ParseInt(Decimal(n)) == Num(n)
    ensures ParseInt("-" + Decimal(n)) == Num(-(n as int))
  {
    ValueOfDecimal(n);
    assert LeadingDigits(Decimal(n)) == Decimal(n);
    assert ("-" + Decimal(n))[1..] == Decimal(n);
  }

  /** Three digits with leading zeros, one group after a thousands separator. */
  function Pad3(r: nat): (t: string)
    requires r < 1000
    ensures |t| == 3 && AllDigits(t)
  {
    [DigitChar(r / 100), DigitChar(r / 10 % 10), DigitChar(r % 10)]
  }

  /** A number below 1000 has at most three digits. */
  lemma {:induction false} DecimalShort(n: nat)
    requires n < 1000
    ensures |Decimal(n)| <= 3
  {
    if n >= 10 {
      var q := n / 10;
      assert |Decimal(n)| == |Decimal(q)| + 1;
      if q >= 10 {
        assert q / 10 < 10;
        assert |Decimal(q)| == |Decimal(q / 10)| + 1;
      }
    }
  }

  /**
   * `n.toLocaleString()` in en-US for a non-negative integer: digits grouped by threes with `,`.
   * The leading group has one to three digits, and a position holds `,` exactly when it lies
   * a multiple of four after the leading group's end, so every `,` is followed by three digits.
   */
  function Grouped(n: nat): (r: string)
    ensures |r| >= 1 && IsDigit(r[0])
    ensures forall i :: 0 <= i < |r| ==> IsDigit(r[i]) || r[i] == ','
    ensures |r| % 4 != 0
    ensures forall i :: 0 <= i < |r| ==> (r[i] == ',' <==> i % 4 == |r| % 4)
  {
    if n < 1000 then
      DecimalShort(n);
      Decimal(n)
    else
      var g := Grouped(n / 1000);
      GroupedStep(g, Pad3(n % 1000));
      g + "," + Pad3(n % 1000)
  }

  /** A separator and a group of three digits after a well-grouped prefix keep it well grouped. */
  lemma GroupedStep(g: string, p: string)
    requires |g| >= 1 && IsDigit(g[0]) && |g| % 4 != 0
    requires forall i :: 0 <= i < |g| ==> IsDigit(g[i]) || g[i] == ','
    requires forall i :: 0 <= i < |g| ==> (g[i] == ',' <==> i % 4 == |g| % 4)
    requires |p| == 3 && AllDigits(p)
    ensures var r := g + "," + p;
      |r| >= 1 && IsDigit(r[0]) && |r| % 4 != 0 &&
      (forall i :: 0 <= i < |r| ==> IsDigit(r[i]) || r[i] == ',') &&
      (forall i :: 0 <= i < |r| ==> (r[i] == ',' <==> i % 4 == |r| % 4))
  {
    var r := g + "," + p;
    var m := |g| % 4;
    assert |r| == |g| + 4 && |r| % 4 == m;
    forall i | 0 <= i < |r|
      ensures (IsDigit(r[i]) || r[i] == ',') && (r[i] == ',' <==> i % 4 == m)
    {
      if i < |g| {
        assert r[i] == g[i];
      } else if i == |g| {
        assert r[i] == ',';
      } else {
        var k := i - |g|;
        assert r[i] == p[k - 1];
        assert i % 4 != m by {
          assert i == |g| + k && 1 <= k <= 3;
        }
      }
    }
  }

  /** `x.toLocaleString()` in en-US: "NaN", or the grouped digits with a leading `-` for a negative number. */
  function ToLocaleString(x: Parsed): (r: string)
    ensures |r| >= 1
    ensures r == "NaN" <==> x.NaN?
    ensures x.Num? ==> (r[0] == '-' <==> x.value < 0)
  {
    match x
    case NaN => "NaN"
    case Num(n) =>
      var t := if n < 0 then "-" + Grouped(-n) else Grouped(n);
      assert t[0] != "NaN"[0];
      t
  }

  /** The template `$${x.toLocaleString()}`. */
  function FormatCurrency(x: Parsed): (r: string)
    ensures |r| >= 2 && r[0] == '$' && r[1..] == ToLocaleString(x)
  {
    "$" + ToLocaleString(x)
  }

  /** `s.replace(/[$,]/g, '')`: `s` with every `$` and `,` removed, other characters kept in order. */
  function StripCurrency(s: string): (r: string)
    ensures |r| <= |s|
    ensures '$' !in r && ',' !in r
    ensures ('$' !in s && ',' !in s) ==> r == s
  {
    if s == [] then ""
    else if s[0] == '$' || s[0] == ',' then StripCurrency(s[1..])
    else [s[0]] + StripCurrency(s[1..])
  }

  /** Removing `$` and `,` works piece by piece. */
  lemma {:induction false} StripConcat(a: string, b: string)
    ensures StripCurrency(a + b) == StripCurrency(a) + StripCurrency(b)
  {
    if a == [] {
      assert a + b == b;
    } else {
      assert (a + b)[1..] == a[1..] + b;
      StripConcat(a[1..], b);
    }
  }

  /** Appending one digit to a positive number appends its character. */
  lemma AppendDigit(q: nat, d: nat)
    requires 1 <= q && d < 10
    ensures Decimal(q * 10 + d) == Decimal(q) + [DigitChar(d)]
  {
    assert (q * 10 + d) / 10 == q && (q * 10 + d) % 10 == d;
  }

  /** Appending a zero-padded group of three to a positive number appends the group's characters. */
  lemma AppendGroup(q: nat, r: nat)
    requires 1 <= q && r < 1000
    ensures Decimal(q * 1000 + r) == Decimal(q) + Pad3(r)
  {
    var d2, d1, d0 := r / 100, r / 10 % 10, r % 10;
    assert r == d2 * 100 + d1 * 10 + d0;
    assert Pad3(r) == [DigitChar(d2), DigitChar(d1), DigitChar(d0)];
    var a := q * 10 + d2;
    var b := a * 10 + d1;
    assert b * 10 + d0 == q * 1000 + r;
    AppendDigit(q, d2);
    AppendDigit(a, d1);
    AppendDigit(b, d0);
  }

  /** One step of `StripGrouped`: a separator and a group of three after a stripped prefix. */
  lemma StripGroup(q: nat, r: nat)
    requires 1 <= q && r < 1000
    requires StripCurrency(Grouped(q)) == Decimal(q)
    ensures StripCurrency(Grouped(q) + "," + Pad3(r)) == Decimal(q * 1000 + r)
  {
    StripConcat(Grouped(q) + ",", Pad3(r));
    StripConcat(Grouped(q), ",");
    assert StripCurrency(",") == "";
    AppendGroup(q, r);
  }

  /** Dropping the thousands separators of a grouped number leaves its plain decimal digits. */
  lemma {:induction false} StripGrouped(n: nat)
    ensures StripCurrency(Grouped(n)) == Decimal(n)
    decreases n
  {
    if n >= 1000 {
      var q, r := n / 1000, n % 1000;
      StripGrouped(q);
      StripGroup(q, r);
      assert q * 1000 + r == n;
    }
  }

  /** The formatted text of a non-negative amount, and of its negation, stripped of `$` and `,`. */
  lemma StripFormatted(n: nat)
    ensures StripCurrency("$" + Grouped(n)) == Decimal(n)
    ensures StripCurrency("$" + ("-" + Grouped(n))) == "-" + Decimal(n)
  {
    StripGrouped(n);
    StripConcat("$", Grouped(n));
    StripConcat("$", "-" + Grouped(n));
    StripConcat("-", Grouped(n));
  }

  /** Parsing a formatted amount, after stripping `$` and `,`, gives back the amount (NaN included). */
  lemma CurrencyRoundTrip(x: Parsed)
    ensures ParseInt(StripCurrency(FormatCurrency(x))) == x
  {
    match x
    case NaN =>
      assert StripCurrency("$NaN") == "NaN";
    case Num(n) =>
      var m: nat := if n < 0 then -n else n;
      StripFormatted(m);
      ParseDecimal(m);
  }
}
