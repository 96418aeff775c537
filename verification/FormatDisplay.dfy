/** The display formatter: half-up rounding to the precision of the amount's band, with
    thousands separators. */
module FormatDisplay {
  import opened TxTypes
  import opened Decimals
  import opened Numerals
  import opened Format
  import opened Regex

  /** No decimals from 100 up, else two. */
  function MaxFrac(b: nat, decimals: nat): nat {
    if b / Pow10(decimals) >= 100 then 0 else 2
  }

  /** How many decimals are shown. */
  function Shown(b: nat, decimals: nat): (dec: nat)
    ensures dec <= decimals
  {
    if decimals > MaxFrac(b, decimals) then MaxFrac(b, decimals) else decimals
  }

  /** The amount in units of the last shown decimal. */
  function Rounded(b: nat, decimals: nat): nat {
    var scale := Pow10(decimals - Shown(b, decimals));
    if decimals > MaxFrac(b, decimals) then
      if b % scale * 2 >= scale then b / scale + 1 else b / scale
    else b
  }

  // ---- Thousands separators

  const DIGIT := Class(DIGITS)

  /** `\d{3}` */
  const THREE := Cat(DIGIT, Cat(DIGIT, DIGIT))

  /** `\w` */
  predicate Word(c: char) {
    Digit(c) || 'a' <= c <= 'z' || 'A' <= c <= 'Z' || c == '_'
  }

  /** `\B`: word characters on both sides of the position, or on neither. */
  predicate NoBoundary(s: string, p: nat)
    requires p <= |s|
  {
    (p > 0 && Word(s[p - 1])) <==> (p < |s| && Word(s[p]))
  }

  /** `(?=(\d{3})+(?!\d))`: from the position on, up to some end, threes of digits,
      and no digit after that end. */
  predicate ThreesAhead(s: string, p: nat)
    requires p <= |s|
  {
    exists q :: p <= q <= |s| && Matches(Plus(THREE), s[p..q]) && (q < |s| ==> s[q] !in DIGITS)
  }

  /** `replace(/\B(?=(\d{3})+(?!\d))/g, ',')`: the match is empty, so a comma goes in
      at every position where the expression holds. */
  function InsertCommas(s: string, p: nat): string
    requires p <= |s|
    decreases |s| - p
  {
    Comma(s, p) + (if p == |s| then "" else [s[p]] + InsertCommas(s, p + 1))
  }

  function Comma(s: string, p: nat): string
    requires p <= |s|
  {
    if NoBoundary(s, p) && ThreesAhead(s, p) then "," else ""
  }

  lemma ThreeMatches(t: string)
    ensures Matches(THREE, t) <==> |t| == 3 && AllDigits(t)
  {
    var tail := Cat(DIGIT, DIGIT);
    if Matches(THREE, t) {
      var i :| 0 <= i <= |t| && Matches(DIGIT, t[..i]) && Matches(tail, t[i..]);
      var j :| 0 <= j <= |t[i..]| && Matches(DIGIT, t[i..][..j]) && Matches(DIGIT, t[i..][j..]);
      assert t[0] == t[..i][0] && t[1] == t[i..][..j][0] && t[2] == t[i..][j..][0];
    }
    if |t| == 3 && AllDigits(t) {
      assert Matches(DIGIT, t[1..][..1]) && Matches(DIGIT, t[1..][1..]);
      assert Matches(DIGIT, t[..1]) && Matches(tail, t[1..]);
    }
  }

  lemma {:induction false} ThreesMatch(t: string)
    requires AllDigits(t)
    ensures Matches(Star(THREE), t) <==> |t| % 3 == 0
  {
    if Matches(Star(THREE), t) && t != [] {
      var i :| 0 < i <= |t| && Matches(THREE, t[..i]) && Matches(Star(THREE), t[i..]);
      ThreeMatches(t[..i]);
      ThreesMatch(t[3..]);
    }
    if |t| % 3 == 0 && t != [] {
      ThreeMatches(t[..3]);
      ThreesMatch(t[3..]);
      assert Matches(THREE, t[..3]) && Matches(Star(THREE), t[3..]);
    }
  }

  lemma PlusThrees(t: string)
    requires AllDigits(t)
    ensures Matches(Plus(THREE), t) <==> |t| > 0 && |t| % 3 == 0
  {
    ThreesMatch(t);
    PlusIsStar(t);
  }

  lemma PlusIsStar(t: string)
    ensures Matches(Plus(THREE), t) <==> t != [] && Matches(Star(THREE), t)
  {
    if Matches(Plus(THREE), t) {
      var i :| 0 <= i <= |t| && Matches(THREE, t[..i]) && Matches(Star(THREE), t[i..]);
      ThreeMatches(t[..i]);
    }
  }

  /** On digits the expression holds exactly where a positive multiple of three
      remains, but not in front. */
  lemma CommaRule(s: string, p: nat)
    requires AllDigits(s) && p <= |s|
    ensures Comma(s, p) == if 0 < p < |s| && (|s| - p) % 3 == 0 then "," else ""
  {
    PlusThrees(s[p..]);
    OverDigits(s);
    hide Matches;
    if ThreesAhead(s, p) {
      var q :| p <= q <= |s| && Matches(Plus(THREE), s[p..q]) && (q < |s| ==> s[q] !in DIGITS);
      assert s[p..q] == s[p..];
    } else {
      assert s[p..|s|] == s[p..];
      assert !Matches(Plus(THREE), s[p..|s|]);
    }
  }

  /** Groups of three from the right, the first group being what is left. */
  function Grouped(s: string): string {
    if |s| <= 3 then s else Grouped(s[..|s| - 3]) + "," + s[|s| - 3..]
  }

  function WithoutCommas(s: string): string {
    if s == [] then [] else if s[0] == ',' then WithoutCommas(s[1..]) else [s[0]] + WithoutCommas(s[1..])
  }

  lemma OneStep(s: string, p: nat)
    requires p < |s|
    ensures InsertCommas(s, p) == Comma(s, p) + ([s[p]] + InsertCommas(s, p + 1))
  {
    hide Comma;
  }

  /** No comma within the last two digits. */
  lemma {:induction false} LastTwo(s: string, p: nat)
    requires AllDigits(s) && p <= |s| <= p + 2
    ensures InsertCommas(s, p) == s[p..]
    decreases |s| - p
  {
    CommaRule(s, p);
    hide Comma;
    if p < |s| {
      OneStep(s, p);
      LastTwo(s, p + 1);
      hide InsertCommas, AllDigits;
      assert s[p..] == [s[p]] + s[p + 1..];
    }
  }

  lemma SameComma(t: string, u: string, p: nat)
    requires AllDigits(t) && AllDigits(u) && p < |t| && |u| == 3
    ensures Comma(t + u, p) == Comma(t, p)
  {
    CommaRule(t + u, p);
    CommaRule(t, p);
    hide Comma;
    assert (|t| + 3 - p) % 3 == (|t| - p) % 3;
  }

  lemma SecondPart(t: string, u: string)
    requires u != []
    ensures (t + u)[|t|] == u[0] && (t + u)[|t| + 1..] == u[1..] && u == [u[0]] + u[1..]
  {}

  lemma LastGroup(t: string, u: string)
    requires AllDigits(t) && AllDigits(u) && |t| > 0 && |u| == 3
    ensures InsertCommas(t + u, |t|) == "," + u
  {
    hide InsertCommas, Comma;
    var s, p := t + u, |t|;
    LastTwo(s, p + 1);
    OneStep(s, p);
    CommaRule(s, p);
    SecondPart(t, u);
  }

  lemma {:induction false} InsertFrom(t: string, u: string, p: nat)
    requires AllDigits(t) && AllDigits(u) && |t| > 0 && |u| == 3 && p <= |t|
    ensures InsertCommas(t + u, p) == InsertCommas(t, p) + ("," + u)
    decreases |t| - p
  {
    if p == |t| {
      LastGroup(t, u);
      LastTwo(t, p);
    } else {
      InsertFrom(t, u, p + 1);
      OneStep(t + u, p);
      OneStep(t, p);
      SameComma(t, u, p);
      hide *;
      MovesRight(Comma(t, p), [t[p]], InsertCommas(t, p + 1), "," + u);
    }
  }

  lemma MovesRight(a: string, b: string, c: string, d: string)
    ensures a + (b + (c + d)) == (a + (b + c)) + d
  {}

  /** The regular expression groups by threes from the right. */
  lemma {:induction false} CommasGroupByThrees(s: string)
    requires AllDigits(s)
    ensures InsertCommas(s, 0) == Grouped(s)
  {
    if |s| > 3 {
      var t, u := s[..|s| - 3], s[|s| - 3..];
      assert s == t + u;
      InsertFrom(t, u, 0);
      CommasGroupByThrees(t);
      hide InsertCommas;
      assert Grouped(s) == Grouped(t) + "," + u;
    } else if |s| == 3 {
      OneStep(s, 0);
      CommaRule(s, 0);
      LastTwo(s, 1);
      assert s == [s[0]] + s[1..];
    } else {
      LastTwo(s, 0);
    }
  }

  function Kept(c: char): string {
    if c == ',' then "" else [c]
  }

  lemma WithoutCommasStep(s: string)
    requires s != []
    ensures WithoutCommas(s) == Kept(s[0]) + WithoutCommas(s[1..])
  {}

  lemma TailOfAppend(s: string, t: string)
    requires s != []
    ensures (s + t)[0] == s[0] && (s + t)[1..] == s[1..] + t
  {}

  lemma {:induction false} WithoutCommasAppends(s: string, t: string)
    ensures WithoutCommas(s + t) == WithoutCommas(s) + WithoutCommas(t)
  {
    if s == [] {
      assert s + t == t;
    } else {
      hide WithoutCommas, Kept;
      WithoutCommasAppends(s[1..], t);
      WithoutCommasStep(s);
      WithoutCommasStep(s + t);
      TailOfAppend(s, t);
      Associates(Kept(s[0]), WithoutCommas(s[1..]), WithoutCommas(t));
    }
  }

  lemma {:induction false} NoCommas(s: string)
    requires forall i :: 0 <= i < |s| ==> s[i] != ','
    ensures WithoutCommas(s) == s
  {
    if s != [] { NoCommas(s[1..]); }
  }

  lemma CommaGoes(s: string)
    ensures WithoutCommas(s + ",") == WithoutCommas(s)
  {
    WithoutCommasAppends(s, ",");
    assert WithoutCommas(",") == "";
  }

  lemma SplitDigits(s: string, k: nat)
    requires AllDigits(s) && k <= |s|
    ensures AllDigits(s[..k]) && s == s[..k] + s[k..]
    ensures WithoutCommas(s[k..]) == s[k..]
  {
    NoCommas(s[k..]);
  }

  /** Grouping only adds commas. */
  lemma {:induction false} UngroupedIsSame(s: string)
    requires AllDigits(s)
    ensures WithoutCommas(Grouped(s)) == s
  {
    if |s| <= 3 {
      NoCommas(s);
    } else {
      hide WithoutCommas, AllDigits;
      var head, tail := s[..|s| - 3], s[|s| - 3..];
      SplitDigits(s, |s| - 3);
      UngroupedIsSame(head);
      CommaGoes(Grouped(head));
      WithoutCommasAppends(Grouped(head) + ",", tail);
      hide Grouped;
    }
  }

  // ---- The formatter

  /** `digits` is the rounded amount, `dec` its decimals. */
  function Laid(digits: string, dec: nat): string
    requires |digits| >= dec
  {
    var k := |digits| - dec;
    InsertCommas(digits[..k], 0) + Tail(TrimZeros(digits[k..]))
  }

  function DisplayText(b: nat, decimals: nat): string {
    var dec := Shown(b, decimals);
    Laid(PadStart(Decimal(Rounded(b, decimals)), dec + 1), dec)
  }

  /** None where BigInt throws. */
  function FormatAmount(base: string, decimals: nat): Option<string> {
    var digits := if Unsigned(base) == "" then "0" else Unsigned(base);
    if !AllDigits(digits) then None
    else
      var b := Value(digits);
      Some(if Negative(base) && Rounded(b, decimals) != 0 then "-" + DisplayText(b, decimals) else DisplayText(b, decimals))
  }

  lemma TailHasNoComma(frac: string)
    requires AllDigits(frac)
    ensures WithoutCommas(Tail(frac)) == Tail(frac)
  {
    NoCommas(Tail(frac));
  }

  lemma IntPartUngrouped(s: string)
    requires AllDigits(s)
    ensures WithoutCommas(InsertCommas(s, 0)) == s
  {
    hide InsertCommas, WithoutCommas, Grouped;
    CommasGroupByThrees(s);
    UngroupedIsSame(s);
  }

  lemma LaidWithoutCommas(digits: string, dec: nat)
    requires AllDigits(digits) && |digits| > dec
    ensures WithoutCommas(Laid(digits, dec)) == Point(digits, dec)
  {
    hide TrimZeros, InsertCommas, WithoutCommas, Tail, Point;
    var k := |digits| - dec;
    AllDigitsSlice(digits, k);
    IntPartUngrouped(digits[..k]);
    TailHasNoComma(TrimZeros(digits[k..]));
    WithoutCommasAppends(InsertCommas(digits[..k], 0), Tail(TrimZeros(digits[k..])));
    PointIsTail(digits, dec);
  }

  lemma TextDenotesRounded(b: nat, decimals: nat)
    ensures ToBase(WithoutCommas(DisplayText(b, decimals)), Shown(b, decimals)) == Some(Decimal(Rounded(b, decimals)))
  {
    hide Value, Rounded, Shown, ToBase, Point, Laid, Decimal, PadStart, WithoutCommas;
    var dec, rounded := Shown(b, decimals), Decimal(Rounded(b, decimals));
    LaidWithoutCommas(PadStart(rounded, dec + 1), dec);
    PointParses(PadStart(rounded, dec + 1), dec);
    ValueOfPadded(rounded, dec + 1);
    ValueOfDecimal(Rounded(b, decimals));
  }

  /** The band of an amount: no decimals from 100 up, otherwise two, or as many as the
      token has. */
  function Band(b: nat, decimals: nat): (d: nat)
    ensures d <= decimals
  {
    if b >= 100 * Pow10(decimals) then 0 else if decimals < 2 then decimals else 2
  }

  lemma ShownIsBand(b: nat, decimals: nat)
    ensures Shown(b, decimals) == Band(b, decimals)
  {
    BandEdge(b, decimals);
    hide Pow10;
  }

  /** What is displayed, for every non-negative amount: with the commas removed it is
      in normal form, with no decimals from 100 up and at most two below, and denotes
      the exact amount rounded half up to that precision. */
  lemma DisplayBands(base: string, decimals: nat) returns (r: nat)
    requires base != "" && AllDigits(base)
    ensures FormatAmount(base, decimals).Some?
    ensures
      var t := WithoutCommas(FormatAmount(base, decimals).value);
      var d := Band(Value(base), decimals);
      NormalForm(t, d) && ToBase(t, d) == Some(Decimal(r)) && NearestUp(Value(base), r, Pow10(decimals - d))
  {
    hide *;
    r := Rounded(Value(base), decimals);
    DisplayDenotesRounded(base, decimals);
    DisplayIsNormal(base, decimals);
    RoundsHalfUp(Value(base), decimals);
    ShownIsBand(Value(base), decimals);
  }

  lemma TextIsNormal(b: nat, decimals: nat)
    ensures
      var t := WithoutCommas(DisplayText(b, decimals));
      && NormalForm(t, Shown(b, decimals))
      && DisplayText(b, decimals) == Grouped(IntDigits(t)) + Tail(FracDigits(t))
  {
    hide Value, Rounded, Shown, Point, Decimal, PadStart, WithoutCommas, NormalForm, Grouped, InsertCommas, Tail;
    var dec, rounded := Shown(b, decimals), Decimal(Rounded(b, decimals));
    var digits := PadStart(rounded, dec + 1);
    DecimalIsCanonical(Rounded(b, decimals));
    PointIsNormal(rounded, dec);
    LaidWithoutCommas(digits, dec);
    PointSplits(digits, dec);
    AllDigitsSlice(digits, |digits| - dec);
    CommasGroupByThrees(digits[..|digits| - dec]);
  }

  /** What is displayed, commas removed, is in normal form, and only its integer part
      is grouped. */
  lemma DisplayIsNormal(base: string, decimals: nat)
    requires base != "" && AllDigits(base)
    ensures FormatAmount(base, decimals).Some?
    ensures
      var text := FormatAmount(base, decimals).value;
      var t := WithoutCommas(text);
      && NormalForm(t, Shown(Value(base), decimals))
      && text == Grouped(IntDigits(t)) + Tail(FracDigits(t))
  {
    hide DisplayText, Value, Rounded, Shown, Decimal, WithoutCommas, NormalForm, Grouped, Tail;
    assert Digit(base[0]);
    TextIsNormal(Value(base), decimals);
  }

  lemma ZeroText(b: nat, decimals: nat)
    ensures DisplayText(b, decimals) == "0" <==> Rounded(b, decimals) == 0
  {
    hide Value, Rounded, Shown, Decimal, WithoutCommas, NormalForm, DisplayText, ToBase;
    if DisplayText(b, decimals) == "0" {
      TextDenotesRounded(b, decimals);
      NoCommas("0");
      ZeroParses(Shown(b, decimals));
      DecimalIsInjective(Rounded(b, decimals), 0);
    }
    if Rounded(b, decimals) == 0 {
      ZeroShown(b, decimals);
    }
  }

  lemma ZeroShown(b: nat, decimals: nat)
    requires Rounded(b, decimals) == 0
    ensures DisplayText(b, decimals) == "0"
  {
    hide Value, Rounded, Shown, PadStart, WithoutCommas, NormalForm, InsertCommas, Point, Laid;
    var d := Shown(b, decimals);
    assert Decimal(0) == "0";
    LaidWithoutCommas(PadStart("0", d + 1), d);
    ExactZero(d);
    TextIsNormal(b, decimals);
    assert IntDigits("0") == "0" && FracDigits("0") == "";
  }

  /** A negative amount is displayed like its absolute value behind a sign, unless
      that is displayed as zero. */
  lemma NegativeDisplay(digits: string, decimals: nat)
    requires digits != "" && AllDigits(digits)
    ensures FormatAmount(digits, decimals).Some?
    ensures
      var text := FormatAmount(digits, decimals).value;
      FormatAmount("-" + digits, decimals) == Some(if text == "0" then text else "-" + text)
  {
    hide Value, DisplayText, Rounded;
    assert Digit(digits[0]) && Unsigned("-" + digits) == digits;
    ZeroText(Value(digits), decimals);
  }

  /** For every non-negative amount and every number of decimals: what is displayed,
      commas removed, is exactly the rounded amount, and parses back to it at the
      shown precision. */
  lemma DisplayDenotesRounded(base: string, decimals: nat)
    requires base != "" && AllDigits(base)
    ensures
      var b := Value(base);
      && FormatAmount(base, decimals).Some?
      && ToBase(WithoutCommas(FormatAmount(base, decimals).value), Shown(b, decimals)) == Some(Decimal(Rounded(b, decimals)))
  {
    hide DisplayText, Value, Rounded, Shown, ToBase, Decimal, WithoutCommas;
    assert Digit(base[0]);
    TextDenotesRounded(Value(base), decimals);
  }

  // ---- Rounding

  /** `r` units are the amount to within half a unit, and an exact half goes up. */
  predicate NearestUp(b: nat, r: nat, unit: nat) {
    2 * b - unit < 2 * (r * unit) <= 2 * b + unit
  }

  lemma HalfUp(b: nat, scale: nat, r: nat)
    requires scale > 0 && r == (if b % scale * 2 >= scale then b / scale + 1 else b / scale)
    ensures NearestUp(b, r, scale)
  {
    assert b == b / scale * scale + b % scale;
    assert (b / scale + 1) * scale == b / scale * scale + scale;
  }

  /** Half-up rounding to the shown precision: the displayed amount is within half a
      unit of the exact one, and exactly half a unit goes up. */
  lemma RoundsHalfUp(b: nat, decimals: nat)
    ensures NearestUp(b, Rounded(b, decimals), Pow10(decimals - Shown(b, decimals)))
  {
    if decimals > MaxFrac(b, decimals) {
      HalfUp(b, Pow10(decimals - Shown(b, decimals)), Rounded(b, decimals));
    } else {
      assert Pow10(0) == 1;
    }
  }

  lemma AtLeast(b: nat, p: nat, n: nat)
    requires p > 0
    ensures b / p >= n <==> b >= n * p
  {
    var q := b / p;
    assert b == q * p + b % p;
    if q >= n { assert q * p >= n * p; }
    if q < n { assert (q + 1) * p <= n * p && (q + 1) * p == q * p + p; }
  }

  lemma RoundIsMonotone(a: nat, b: nat, scale: nat)
    requires scale > 0 && a <= b
    ensures (if a % scale * 2 >= scale then a / scale + 1 else a / scale) <= (if b % scale * 2 >= scale then b / scale + 1 else b / scale)
  {
    var p, q, m, n := a / scale, b / scale, a % scale, b % scale;
    assert a == p * scale + m && b == q * scale + n;
    AtLeast(b, scale, p);
    if p == q { assert m <= n; }
  }

  /** Rounding never leaves a range whose ends are whole units. */
  lemma RoundStaysWithin(b: nat, scale: nat, n: nat)
    requires scale > 0
    ensures
      var r := if b % scale * 2 >= scale then b / scale + 1 else b / scale;
      && (b < n * scale ==> r <= n)
      && (b >= n * scale ==> r >= n)
  {
    AtLeast(b, scale, n);
  }

  /** Rounding at a band's precision is the plain half-up rounding, also when nothing
      has to be dropped. */
  lemma RoundedIs(b: nat, decimals: nat)
    ensures
      var scale := Pow10(decimals - Shown(b, decimals));
      Rounded(b, decimals) == if b % scale * 2 >= scale then b / scale + 1 else b / scale
  {
    if decimals <= MaxFrac(b, decimals) { assert Pow10(0) == 1; }
  }

  lemma BandEdge(b: nat, decimals: nat)
    ensures b / Pow10(decimals) >= 100 <==> b >= 100 * Pow10(decimals)
  {
    AtLeast(b, Pow10(decimals), 100);
  }

  lemma AcrossTheEdge(a: nat, b: nat, decimals: nat)
    requires a < 100 * Pow10(decimals) <= b
    ensures Shown(b, decimals) == 0
    ensures Rounded(a, decimals) <= 100 * Pow10(Shown(a, decimals))
    ensures Rounded(b, decimals) >= 100
  {
    BandEdge(a, decimals);
    BandEdge(b, decimals);
    var e := Shown(a, decimals);
    var scale := Pow10(decimals - e);
    Pow10Adds(e, decimals - e);
    RoundedIs(a, decimals);
    RoundedIs(b, decimals);
    assert 100 * (Pow10(e) * scale) == 100 * Pow10(e) * scale;
    hide Pow10, Rounded;
    RoundStaysWithin(a, scale, 100 * Pow10(e));
    RoundStaysWithin(b, Pow10(decimals), 100);
  }

  /** Rounded amounts at their precisions, compared over a common denominator. */
  predicate NotAbove(a: nat, b: nat, decimals: nat) {
    Rounded(a, decimals) * Pow10(Shown(b, decimals)) <= Rounded(b, decimals) * Pow10(Shown(a, decimals))
  }

  lemma SameBand(a: nat, b: nat, decimals: nat)
    requires a <= b && Shown(a, decimals) == Shown(b, decimals)
    ensures NotAbove(a, b, decimals)
  {
    RoundedIs(a, decimals);
    RoundedIs(b, decimals);
    hide Rounded, Shown, Pow10;
    RoundIsMonotone(a, b, Pow10(decimals - Shown(a, decimals)));
    Scale(Rounded(a, decimals), Rounded(b, decimals), Pow10(Shown(a, decimals)));
  }

  lemma LowerBand(a: nat, b: nat, decimals: nat)
    requires a < 100 * Pow10(decimals) <= b
    ensures NotAbove(a, b, decimals)
  {
    AcrossTheEdge(a, b, decimals);
    assert Pow10(0) == 1;
    hide Rounded, Shown, Pow10;
    Scale(100, Rounded(b, decimals), Pow10(Shown(a, decimals)));
  }

  /** A larger amount is never displayed as a smaller one, not even where the
      precision changes at 100. */
  lemma DisplayIsMonotone(a: nat, b: nat, decimals: nat)
    requires a <= b
    ensures NotAbove(a, b, decimals)
  {
    hide NotAbove, Pow10;
    BandEdge(a, decimals);
    BandEdge(b, decimals);
    if a < 100 * Pow10(decimals) <= b { LowerBand(a, b, decimals); } else { SameBand(a, b, decimals); }
  }

  lemma Scale(p: nat, q: nat, e: nat)
    requires p <= q
    ensures p * e <= q * e
  {}
}
