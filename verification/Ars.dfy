/** Argentine amounts: `format_ars_cents`, its parser, and the 28-digit decimal division between them. */
module Ars {
  import opened Options

  const PRECISION := 28

  // ---------- Decimal digits ----------

  function Pow10(n: nat): (r: nat)
    ensures r > 0
  {
    if n == 0 then 1 else 10 * Pow10(n - 1)
  }

  function Digit(d: nat): char
    requires d < 10
  {
    ('0' as int + d) as char
  }

  function Digits(n: nat): string {
    if n < 10 then [Digit(n)] else Digits(n / 10) + [Digit(n % 10)]
  }

  predicate IsDigit(c: char) {
    '0' <= c <= '9'
  }

  predicate AllDigits(s: string) {
    forall i :: 0 <= i < |s| ==> IsDigit(s[i])
  }

  function DigitValue(c: char): nat {
    if IsDigit(c) then c as int - '0' as int else 0
  }

  function Value(s: string): nat {
    if s == "" then 0 else Value(s[..|s| - 1]) * 10 + DigitValue(s[|s| - 1])
  }

  predicate NoLeadingZero(s: string) {
    s != "" && (s == "0" || s[0] != '0')
  }

  lemma {:induction false} DigitsHaveValue(n: nat)
    ensures AllDigits(Digits(n)) && NoLeadingZero(Digits(n)) && Value(Digits(n)) == n
  {
    var s := Digits(n);
    if n >= 10 {
      DigitsHaveValue(n / 10);
      assert s[..|s| - 1] == Digits(n / 10);
    } else {
      assert s[..0] == "";
    }
  }

  lemma {:induction false} ValueIsPositive(s: string)
    requires AllDigits(s) && s != "" && s[0] != '0'
    ensures Value(s) > 0
  {
    if |s| > 1 {
      ValueIsPositive(s[..|s| - 1]);
    }
  }

  lemma {:induction false} ValueHasDigits(s: string)
    requires AllDigits(s) && NoLeadingZero(s)
    ensures Digits(Value(s)) == s
  {
    var front, last := s[..|s| - 1], DigitValue(s[|s| - 1]);
    assert s == front + [Digit(last)];
    if front != "" {
      ValueIsPositive(front);
      ValueHasDigits(front);
      assert Value(s) / 10 == Value(front) && Value(s) % 10 == last;
    } else {
      assert Value(s) == last;
    }
  }

  // ---------- The division ----------

  function Length(n: nat): nat {
    if n < 10 then 1 else 1 + Length(n / 10)
  }

  /** The weight of the last of the 28 digits that a number keeps. */
  function Unit(c: nat): (r: nat)
    ensures r > 0
  {
    if Length(c) <= PRECISION then 1 else Pow10(Length(c) - PRECISION)
  }

  /** The multiple of the unit next to c, halves to even. */
  function HalfEven(c: nat, unit: nat): nat
    requires unit > 0
  {
    var q, r := c / unit, c % unit;
    if 2 * r > unit || (2 * r == unit && q % 2 == 1) then q * unit + unit else q * unit
  }

  /** `Decimal(cents) / Decimal(100)`, in cents: 28 significant digits. */
  function Rounded(c: nat): nat {
    HalfEven(c, Unit(c))
  }

  lemma {:induction false} LengthBounds(c: nat, n: nat)
    requires n > 0
    ensures Length(c) <= n <==> c < Pow10(n)
  {
    if n == 1 {
      assert Pow10(1) == 10 * Pow10(0);
    } else if c >= 10 {
      LengthBounds(c / 10, n - 1);
      assert c / 10 < Pow10(n - 1) <==> c < 10 * Pow10(n - 1);
    } else {
      assert Pow10(n) == 10 * Pow10(n - 1);
    }
  }

  lemma Division(c: nat, unit: nat)
    requires unit > 0
    ensures c == (c / unit) * unit + c % unit && c % unit < unit
  {
  }

  lemma NearestMultiple(q: nat, unit: nat, k: nat)
    ensures k * unit <= q * unit || q * unit + unit <= k * unit
  {
    if k <= q {
      assert k * unit <= q * unit;
    } else {
      assert (q + 1) * unit <= k * unit;
    }
  }

  function Distance(a: int, b: int): nat {
    if a < b then b - a else a - b
  }

  lemma HalfEvenIsNearest(c: nat, unit: nat, k: nat)
    requires unit > 0
    ensures Distance(c, HalfEven(c, unit)) <= Distance(c, k * unit) && 2 * Distance(c, HalfEven(c, unit)) <= unit
  {
    Division(c, unit);
    NearestMultiple(c / unit, unit, k);
  }

  lemma HalfEvenIsExact(c: nat, unit: nat)
    requires unit > 0
    ensures HalfEven(c, unit) == c <==> c % unit == 0
  {
    Division(c, unit);
  }

  /** No multiple of the unit is closer to c than its rounded value. */
  lemma RoundedIsNearest(c: nat, k: nat)
    ensures Distance(c, Rounded(c)) <= Distance(c, k * Unit(c)) && 2 * Distance(c, Rounded(c)) <= Unit(c)
  {
    HalfEvenIsNearest(c, Unit(c), k);
  }

  lemma HalfEvenTies(c: nat, unit: nat)
    requires unit > 0
    ensures exists k: nat :: HalfEven(c, unit) == k * unit && (2 * (c % unit) == unit ==> k % 2 == 0)
  {
    var q, r := c / unit, c % unit;
    if 2 * r > unit || (2 * r == unit && q % 2 == 1) {
      assert HalfEven(c, unit) == (q + 1) * unit;
    } else {
      assert HalfEven(c, unit) == q * unit;
    }
  }

  /** The rounded value is so many units, an even number of them when c lies halfway. */
  lemma RoundedTiesAreEven(c: nat)
    ensures exists k: nat :: Rounded(c) == k * Unit(c) && (2 * (c % Unit(c)) == Unit(c) ==> k % 2 == 0)
  {
    HalfEvenTies(c, Unit(c));
  }

  /** Rounding changes nothing exactly when no digit after the 28th counts. */
  lemma RoundedIsExact(c: nat)
    ensures Rounded(c) == c <==> c % Unit(c) == 0
    ensures c < Pow10(28) ==> Rounded(c) == c
  {
    HalfEvenIsExact(c, Unit(c));
    LengthBounds(c, PRECISION);
  }

  // ---------- The text ----------

  /** Groups of three digits, from the right. */
  function Thousands(s: string, sep: char): string {
    if |s| <= 3 then s else Thousands(s[..|s| - 3], sep) + [sep] + s[|s| - 3..]
  }

  function Replace(s: string, from: char, to: char): (r: string)
    ensures |r| == |s| && forall i :: 0 <= i < |r| ==> r[i] == if s[i] == from then to else s[i]
  {
    seq(|s|, i requires 0 <= i < |s| => if s[i] == from then to else s[i])
  }

  function TwoDigits(n: nat): string
    requires n < 100
  {
    [Digit(n / 10), Digit(n % 10)]
  }

  function Layout(whole: string, decimals: string): string {
    "$" + whole + "," + decimals
  }

  /** An amount of cents as written: whole part in groups, comma, two decimals. */
  function Written(cents: nat): string {
    Layout(Replace(Thousands(Digits(cents / 100), ','), ',', '.'), TwoDigits(cents % 100))
  }

  /** `format_ars_cents`; none stands for the ValueError. */
  function FormatArsCents(cents: int): Option<string> {
    if cents < 0 then None else Some(Written(Rounded(cents)))
  }

  /** Groups of three digits after a first one of one to three, with dots between. */
  predicate Grouped(s: string) {
    if |s| <= 3 then s != "" && AllDigits(s)
    else s[|s| - 4] == '.' && AllDigits(s[|s| - 3..]) && Grouped(s[..|s| - 4])
  }

  function Whole(t: string): string
    requires |t| >= 5
  {
    t[1..|t| - 3]
  }

  function Decimals(t: string): string
    requires |t| >= 5
  {
    t[|t| - 2..]
  }

  /** The texts that are amounts. */
  predicate IsAmount(t: string) {
    |t| >= 5 && t[0] == '$' && t[|t| - 3] == ',' && AllDigits(Decimals(t)) && Grouped(Whole(t)) &&
        NoLeadingZero(Whole(t))
  }

  function WithoutDots(s: string): string {
    if s == "" then ""
    else if s[|s| - 1] == '.' then WithoutDots(s[..|s| - 1])
    else WithoutDots(s[..|s| - 1]) + [s[|s| - 1]]
  }

  function Parse(t: string): Option<nat> {
    if IsAmount(t) then Some(Value(WithoutDots(Whole(t))) * 100 + Value(Decimals(t))) else None
  }

  // ---------- Grouping is undone ----------

  lemma {:induction false} ThousandsLocalized(s: string)
    requires AllDigits(s)
    ensures Replace(Thousands(s, ','), ',', '.') == Thousands(s, '.')
  {
    if |s| > 3 {
      var front, back := s[..|s| - 3], s[|s| - 3..];
      ThousandsLocalized(front);
      assert Replace(back, ',', '.') == back;
    } else {
      assert Replace(s, ',', '.') == s;
    }
  }

  lemma {:induction false} DigitsHaveNoDots(s: string, t: string)
    requires AllDigits(t)
    ensures WithoutDots(s + t) == WithoutDots(s) + t
  {
    if t == "" {
      assert s + t == s;
    } else {
      var front := t[..|t| - 1];
      assert (s + t)[..|s + t| - 1] == s + front;
      DigitsHaveNoDots(s, front);
      assert t == front + [t[|t| - 1]];
    }
  }

  /** One more group. */
  lemma {:induction false} GroupGoesOn(g: string, back: string)
    requires Grouped(g) && g[0] != '0' && |back| == 3 && AllDigits(back)
    ensures var h := g + ['.'] + back; Grouped(h) && h[0] == g[0] && WithoutDots(h) == WithoutDots(g) + back
  {
    var h := g + ['.'] + back;
    assert h[..|h| - 4] == g && h[|h| - 3..] == back;
    DigitsHaveNoDots(g + ['.'], back);
    assert (g + ['.'])[..|g + ['.']| - 1] == g;
  }

  lemma {:induction false} GroupsParse(s: string)
    requires AllDigits(s) && NoLeadingZero(s)
    ensures var g := Thousands(s, '.'); Grouped(g) && NoLeadingZero(g) && g[0] == s[0] && WithoutDots(g) == s
  {
    if |s| <= 3 {
      DigitsHaveNoDots("", s);
      assert "" + s == s;
    } else {
      var front, back := s[..|s| - 3], s[|s| - 3..];
      GroupsParse(front);
      GroupGoesOn(Thousands(front, '.'), back);
      assert s == front + back;
    }
  }

  lemma {:induction false} ParsedGroups(g: string)
    requires Grouped(g) && NoLeadingZero(g)
    ensures var s := WithoutDots(g); AllDigits(s) && NoLeadingZero(s) && s[0] == g[0] && Thousands(s, '.') == g
    ensures |g| > 3 ==> |WithoutDots(g)| > 3
  {
    if |g| <= 3 {
      DigitsHaveNoDots("", g);
      assert "" + g == g;
    } else {
      var front, back := g[..|g| - 4], g[|g| - 3..];
      assert g == front + ['.'] + back;
      FrontIsNotZero(g);
      ParsedGroups(front);
      DigitsHaveNoDots(front + ['.'], back);
      assert (front + ['.'])[..|front|] == front;
      var s := WithoutDots(g);
      assert s[..|s| - 3] == WithoutDots(front) && s[|s| - 3..] == back;
    }
  }

  lemma {:induction false} FrontIsNotZero(g: string)
    requires Grouped(g) && NoLeadingZero(g) && |g| > 3
    ensures NoLeadingZero(g[..|g| - 4])
  {
    assert Grouped(g[..|g| - 4]);
  }

  // ---------- The parser is the inverse ----------

  lemma LayoutParts(whole: string, two: string)
    requires whole != "" && |two| == 2
    ensures var t := Layout(whole, two);
            |t| >= 5 && t[0] == '$' && t[|t| - 3] == ',' && Whole(t) == whole && Decimals(t) == two
  {
  }

  lemma {:induction false} AmountOf(s: string, whole: string, two: string)
    requires Grouped(whole) && NoLeadingZero(whole) && WithoutDots(whole) == s && |two| == 2 && AllDigits(two)
    ensures IsAmount(Layout(whole, two)) && Parse(Layout(whole, two)).value == Value(s) * 100 + Value(two)
  {
    LayoutParts(whole, two);
  }

  lemma TwoHaveValue(cents: nat)
    requires cents < 100
    ensures AllDigits(TwoDigits(cents)) && Value(TwoDigits(cents)) == cents
  {
    var two := TwoDigits(cents);
    assert two[..1][..0] == "" && two[..1][0] == two[0];
    assert Value(two[..1]) == cents / 10;
  }

  lemma {:induction false} ValueHasTwo(two: string)
    requires |two| == 2 && AllDigits(two)
    ensures Value(two) < 100 && TwoDigits(Value(two)) == two
  {
    assert two[..1][..0] == "" && two[..1][0] == two[0];
    assert Value(two[..1]) == DigitValue(two[0]);
  }

  lemma {:induction false} AmountParses(s: string, whole: string, two: string)
    requires AllDigits(s) && NoLeadingZero(s) && whole == Thousands(s, '.') && |two| == 2 && AllDigits(two)
    ensures IsAmount(Layout(whole, two)) && Parse(Layout(whole, two)).value == Value(s) * 100 + Value(two)
  {
    GroupsParse(s);
    AmountOf(s, whole, two);
  }

  lemma {:induction false} WrittenIs(cents: nat)
    ensures Written(cents) == Layout(Thousands(Digits(cents / 100), '.'), TwoDigits(cents % 100))
  {
    DigitsHaveValue(cents / 100);
    ThousandsLocalized(Digits(cents / 100));
  }

  /** Every amount is written as an amount, and read back. */
  lemma WrittenParses(cents: nat)
    ensures IsAmount(Written(cents)) && Parse(Written(cents)) == Some(cents)
  {
    WrittenIs(cents);
    DigitsHaveValue(cents / 100);
    TwoHaveValue(cents % 100);
    AmountParses(Digits(cents / 100), Thousands(Digits(cents / 100), '.'), TwoDigits(cents % 100));
  }

  lemma WholeAndCents(whole: nat, cents: nat)
    requires cents < 100
    ensures (whole * 100 + cents) / 100 == whole && (whole * 100 + cents) % 100 == cents
  {
  }

  lemma {:induction false} WrittenAs(cents: nat, s: string, two: string)
    requires Digits(cents / 100) == s && TwoDigits(cents % 100) == two
    ensures Written(cents) == Layout(Thousands(s, '.'), two)
  {
    WrittenIs(cents);
  }

  lemma {:induction false} WrittenFromParts(cents: nat, s: string, two: string)
    requires AllDigits(s) && NoLeadingZero(s) && |two| == 2 && AllDigits(two)
    requires cents / 100 == Value(s) && cents % 100 == Value(two)
    ensures Written(cents) == Layout(Thousands(s, '.'), two)
  {
    ValueHasTwo(two);
    ValueHasDigits(s);
    WrittenAs(cents, s, two);
  }

  lemma LayoutOf(t: string)
    requires IsAmount(t)
    ensures Layout(Whole(t), Decimals(t)) == t
  {
  }

  /** Every text that is an amount is the one way its value is written. */
  lemma ParsedIsWritten(t: string)
    requires IsAmount(t)
    ensures Parse(t).Some? && Written(Parse(t).value) == t
  {
    LayoutOf(t);
    ParsedGroups(Whole(t));
    ValueHasTwo(Decimals(t));
    WholeAndCents(Value(WithoutDots(Whole(t))), Value(Decimals(t)));
    WrittenFromParts(Parse(t).value, WithoutDots(Whole(t)), Decimals(t));
  }

  /**
   Exactly negative amounts are refused. Reading a formatted amount gives the amount to 28 significant digits: the
   amount itself exactly when the rest is zeros.
   */
  lemma FormatParses(c: int)
    ensures FormatArsCents(c).None? <==> c < 0
    ensures c >= 0 ==> IsAmount(FormatArsCents(c).value) && Parse(FormatArsCents(c).value) == Some(Rounded(c))
    ensures c >= 0 ==> (Parse(FormatArsCents(c).value) == Some(c) <==> c % Unit(c) == 0)
  {
    if c >= 0 {
      WrittenParses(Rounded(c));
      RoundedIsExact(c);
    }
  }

  /** Amounts share a text exactly when they agree to 28 significant digits; below 10^28 cents, only equal ones do. */
  lemma FormatIsInjective(c: nat, d: nat)
    ensures FormatArsCents(c) == FormatArsCents(d) <==> Rounded(c) == Rounded(d)
    ensures c < Pow10(28) && d < Pow10(28) && FormatArsCents(c) == FormatArsCents(d) ==> c == d
  {
    WrittenParses(Rounded(c));
    WrittenParses(Rounded(d));
    RoundedIsExact(c);
    RoundedIsExact(d);
  }

  /** Every amount text below the bound is what its value is formatted as. */
  lemma ParseIsFormatted(t: string)
    requires IsAmount(t) && Parse(t).Some? && Parse(t).value < Pow10(28)
    ensures FormatArsCents(Parse(t).value) == Some(t)
  {
    ParsedIsWritten(t);
    RoundedIsExact(Parse(t).value);
  }

  /** Amounts keep 28 significant digits: the last one kept weighs as much as the number of digits after it says. */
  lemma {:induction false} UnitIs(c: nat, n: nat)
    requires n > 0 && Pow10(n - 1) <= c < Pow10(n)
    ensures Unit(c) == if n <= 28 then 1 else Pow10(n - 28)
  {
    LengthBounds(c, n);
    if n > 1 {
      LengthBounds(c, n - 1);
    }
  }

  lemma UnitIsTen(c: nat)
    requires Pow10(PRECISION) <= c < Pow10(PRECISION + 1)
    ensures Unit(c) == 10
  {
    LengthBounds(c, PRECISION);
    LengthBounds(c, PRECISION + 1);
    assert Pow10(1) == 10 * Pow10(0);
  }

  lemma RoundsToTens(c: nat, tens: nat)
    requires c == 10 * tens || c == 10 * tens + 1
    ensures HalfEven(c, 10) == 10 * tens
  {
    assert c / 10 == tens;
  }

  /** The first amount whose last cent is lost. */
  lemma OneCentTooMany()
    ensures FormatArsCents(Pow10(28) + 1) == FormatArsCents(Pow10(28))
  {
    LastCentIsLost();
  }

  lemma LastCentIsLost()
    ensures FormatArsCents(Pow10(PRECISION) + 1) == FormatArsCents(Pow10(PRECISION))
  {
    var p, tens := Pow10(PRECISION), Pow10(PRECISION - 1);
    assert Pow10(PRECISION + 1) == 10 * p && p == 10 * tens;
    UnitIsTen(p);
    UnitIsTen(p + 1);
    RoundsToTens(p, tens);
    RoundsToTens(p + 1, tens);
  }
}
