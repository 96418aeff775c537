/** Decimal numerals over digit strings: powers of ten, padding and trimming. */
module Numerals {
  import opened Decimals

  function Pow10(d: nat): (p: nat)
    ensures p > 0
  {
    if d == 0 then 1 else 10 * Pow10(d - 1)
  }

  lemma {:induction false} Pow10Adds(m: nat, n: nat)
    ensures Pow10(m + n) == Pow10(m) * Pow10(n)
  {
    if n > 0 {
      Pow10Adds(m, n - 1);
      assert Pow10(m + n) == 10 * (Pow10(m) * Pow10(n - 1)) == Pow10(m) * (10 * Pow10(n - 1));
    }
  }

  function Zeros(n: nat): (s: string)
    ensures |s| == n && AllDigits(s)
  {
    seq(n, _ => '0')
  }

  /** Appending digits shifts the value. */
  lemma {:induction false} ValueOfAppend(s: string, t: string)
    requires AllDigits(s) && AllDigits(t)
    ensures AllDigits(s + t) && Value(s + t) == Value(s) * Pow10(|t|) + Value(t)
  {
    if t == [] {
      assert s + t == s;
    } else {
      var u := t[..|t| - 1];
      ValueOfAppend(s, u);
      assert (s + t)[..|s + t| - 1] == s + u;
      ShiftDigit(Value(s), Pow10(|u|), Value(u));
    }
  }

  lemma ShiftDigit(v: nat, p: nat, w: nat)
    ensures 10 * (v * p + w) == v * (10 * p) + 10 * w
  {}

  lemma {:induction false} ValueOfZeros(n: nat)
    ensures Value(Zeros(n)) == 0
  {
    if n > 0 {
      ValueOfZeros(n - 1);
      assert Zeros(n)[..n - 1] == Zeros(n - 1);
    }
  }

  lemma {:induction false} ValueBelowPow(s: string)
    requires AllDigits(s)
    ensures Value(s) < Pow10(|s|)
  {
    if s != [] { ValueBelowPow(s[..|s| - 1]); }
  }

  function PadStart(s: string, n: nat): (r: string)
    ensures |r| >= n && |r| >= |s|
    ensures AllDigits(s) ==> AllDigits(r)
  {
    if |s| >= n then s else Zeros(n - |s|) + s
  }

  lemma ValueOfPadded(s: string, n: nat)
    requires AllDigits(s)
    ensures Value(PadStart(s, n)) == Value(s)
  {
    hide Value, Pow10, Zeros;
    if |s| < n {
      var z := Zeros(n - |s|);
      ValueOfAppend(z, s);
      ValueOfZeros(n - |s|);
      assert Value(z) * Pow10(|s|) == 0;
    }
  }

  /** `replace(/0+$/, '')` and `strings.TrimRight(s, "0")`. */
  function TrimZeros(s: string): (r: string)
    ensures r <= s && (AllDigits(s) ==> AllDigits(r))
    ensures r == [] || r[|r| - 1] != '0'
  {
    if s != [] && s[|s| - 1] == '0' then TrimZeros(s[..|s| - 1]) else s
  }

  lemma {:induction false} TrimmedPlusZeros(s: string)
    ensures TrimZeros(s) + Zeros(|s| - |TrimZeros(s)|) == s
  {
    if s != [] && s[|s| - 1] == '0' {
      var u := s[..|s| - 1];
      TrimmedPlusZeros(u);
      assert s == u + "0";
      assert Zeros(|s| - |TrimZeros(s)|) == Zeros(|u| - |TrimZeros(u)|) + "0";
    }
  }
}

/** The decimal parser and the two formatters. */
module Format {
  import opened TxTypes
  import opened Decimals
  import opened Numerals
  import opened Regex

  // ---- toBase

  /** What JavaScript's trim removes. */
  predicate Space(c: char) {
    || '\t' <= c <= '\r' || c == ' ' || c == '\U{A0}' || c == '\U{1680}' || '\U{2000}' <= c <= '\U{200A}'
    || c == '\U{2028}' || c == '\U{2029}' || c == '\U{202F}' || c == '\U{205F}' || c == '\U{3000}' || c == '\U{FEFF}'
  }

  function Trim(s: string): (r: string)
    ensures r != [] ==> !Space(r[0]) && !Space(r[|r| - 1])
    ensures s == [] || (!Space(s[0]) && !Space(s[|s| - 1])) ==> r == s
  {
    if s == [] then s
    else if Space(s[0]) then Trim(s[1..])
    else if Space(s[|s| - 1]) then Trim(s[..|s| - 1])
    else s
  }

  const DIGITS: set<char> := set c: char | '0' <= c <= '9'
  const DOT := Class({'.'})

  /** `\d+(\.\d*)?|\.\d+` */
  const AMOUNT := Alt(Cat(Plus(Class(DIGITS)), Optional(Cat(DOT, Star(Class(DIGITS))))), Cat(DOT, Plus(Class(DIGITS))))

  /** The first dot, or the end. */
  function DotAt(s: string): (k: nat)
    ensures k <= |s| && (k < |s| ==> s[k] == '.') && forall i :: 0 <= i < k ==> s[i] != '.'
  {
    if s == [] || s[0] == '.' then 0 else 1 + DotAt(s[1..])
  }

  function IntDigits(s: string): string {
    s[..DotAt(s)]
  }

  function FracDigits(s: string): string {
    if DotAt(s) < |s| then s[DotAt(s) + 1..] else ""
  }

  /** Digits with at most one dot, and at least one digit. */
  predicate PlainAmount(s: string) {
    AllDigits(IntDigits(s)) && AllDigits(FracDigits(s)) && (IntDigits(s) != [] || FracDigits(s) != [])
  }

  lemma OverDigits(s: string)
    ensures Over(DIGITS, s) <==> AllDigits(s)
  {
    if Over(DIGITS, s) { forall i | 0 <= i < |s| ensures Digit(s[i]) { assert s[i] in DIGITS; } }
  }

  lemma DotIsWhere(s: string, k: nat)
    requires k <= |s| && AllDigits(s[..k]) && (k < |s| ==> s[k] == '.')
    ensures DotAt(s) == k
  {
    forall i | 0 <= i < k ensures s[i] != '.' { assert s[i] == s[..k][i]; }
  }

  lemma DottedMatches(s: string)
    ensures Matches(Cat(DOT, Star(Class(DIGITS))), s) <==> s != [] && s[0] == '.' && AllDigits(s[1..])
    ensures Matches(Cat(DOT, Plus(Class(DIGITS))), s) <==> |s| > 1 && s[0] == '.' && AllDigits(s[1..])
  {
    if s != [] {
      StarOfClass(DIGITS, s[1..]);
      PlusOfClass(DIGITS, s[1..]);
      OverDigits(s[1..]);
      if s[0] == '.' { assert Matches(DOT, s[..1]); }
    }
  }

  predicate AllSpace(s: string) {
    forall i :: 0 <= i < |s| ==> Space(s[i])
  }

  /** Trimming removes spaces at both ends, and nothing else. */
  lemma {:induction false} TrimRemovesSpaces(s: string) returns (before: string, after: string)
    ensures s == before + Trim(s) + after && AllSpace(before) && AllSpace(after)
  {
    before, after := [], [];
    if s != [] && Space(s[0]) {
      before, after := TrimRemovesSpaces(s[1..]);
      SpaceInFront(s, before, Trim(s[1..]), after);
      before := [s[0]] + before;
    } else if s != [] && Space(s[|s| - 1]) {
      before, after := TrimRemovesSpaces(s[..|s| - 1]);
      SpaceBehind(s, before, Trim(s[..|s| - 1]), after);
      after := after + [s[|s| - 1]];
    }
  }

  lemma SpaceInFront(s: string, before: string, middle: string, after: string)
    requires s != [] && s[1..] == before + middle + after
    ensures s == [s[0]] + before + middle + after
  {
    assert s == [s[0]] + s[1..];
  }

  lemma SpaceBehind(s: string, before: string, middle: string, after: string)
    requires s != [] && s[..|s| - 1] == before + middle + after
    ensures s == before + middle + (after + [s[|s| - 1]])
  {
    assert s == s[..|s| - 1] + [s[|s| - 1]];
  }

  /** The parser's regular expression accepts exactly the plain amounts. */
  lemma AmountRule(s: string)
    ensures Matches(AMOUNT, s) <==> PlainAmount(s)
  {
    if Matches(AMOUNT, s) { MatchIsPlain(s); }
    if PlainAmount(s) { PlainMatches(s); }
  }

  lemma MatchIsPlain(s: string)
    requires Matches(AMOUNT, s)
    ensures PlainAmount(s)
  {
    DottedMatches(s);
    if Matches(Cat(DOT, Plus(Class(DIGITS))), s) {
      DotIsWhere(s, 0);
    } else {
      var tail := Cat(DOT, Star(Class(DIGITS)));
      var i :| 0 <= i <= |s| && Matches(Plus(Class(DIGITS)), s[..i]) && Matches(Optional(tail), s[i..]);
      PlusOfClass(DIGITS, s[..i]);
      OverDigits(s[..i]);
      OptionalMatches(tail, s[i..]);
      DottedMatches(s[i..]);
      DotIsWhere(s, i);
      if i < |s| { assert s[i..][1..] == s[i + 1..]; }
    }
  }

  lemma PlainMatches(s: string)
    requires PlainAmount(s)
    ensures Matches(AMOUNT, s)
  {
    var k := DotAt(s);
    DottedMatches(s);
    if k > 0 {
      var tail := Cat(DOT, Star(Class(DIGITS)));
      PlusOfClass(DIGITS, s[..k]);
      OverDigits(s[..k]);
      OptionalMatches(tail, s[k..]);
      DottedMatches(s[k..]);
      if k < |s| { assert s[k..][1..] == s[k + 1..]; }
      assert Matches(Plus(Class(DIGITS)), s[..k]) && Matches(Optional(tail), s[k..]);
    }
  }

  /** None where the original throws. */
  function ToBase(decimal: string, decimals: nat): Option<string> {
    var s := Trim(decimal);
    if !Matches(AMOUNT, s) then None
    else
      AmountRule(s);
      var i, f := IntDigits(s), FracDigits(s);
      var frac := (f + Zeros(decimals))[..decimals];
      Some(Decimal(Value(i) * Pow10(decimals) + Value(frac)))
  }

  lemma DroppedTail(v: nat, w: nat, p: nat, q: nat)
    requires w < q && 0 < p
    ensures v * (p * q) <= (v * q + w) * p < (v + 1) * (p * q)
  {
    assert (v * q + w) * p == v * (p * q) + w * p;
    assert w * p < q * p;
    assert (v + 1) * (p * q) == v * (p * q) + q * p;
  }

  lemma ExactTail(v: nat, p: nat, q: nat)
    requires 0 < p
    ensures v * q * p == v * (p * q) < (v * q + 1) * p
  {
    assert (v * q + 1) * p == v * q * p + p;
  }

  /** `frac` spells the floor of what `f` spells, at `d` digits. */
  predicate FloorOf(f: string, d: nat, frac: string) {
    && AllDigits(f) && AllDigits(frac)
    && Value(frac) * Pow10(|f|) <= Value(f) * Pow10(d) < (Value(frac) + 1) * Pow10(|f|)
  }

  lemma CutDigits(kept: string, rest: string)
    requires AllDigits(kept) && AllDigits(rest)
    ensures FloorOf(kept + rest, |kept|, kept)
  {
    hide Value, Pow10;
    ValueOfAppend(kept, rest);
    ValueBelowPow(rest);
    Pow10Adds(|kept|, |rest|);
    DroppedTail(Value(kept), Value(rest), Pow10(|kept|), Pow10(|rest|));
  }

  lemma PaddedDigits(f: string, n: nat)
    requires AllDigits(f)
    ensures FloorOf(f, |f| + n, f + Zeros(n))
  {
    hide Value, Pow10, Zeros;
    ValueOfAppend(f, Zeros(n));
    ValueOfZeros(n);
    Pow10Adds(|f|, n);
    ExactTail(Value(f), Pow10(|f|), Pow10(n));
  }

  lemma PaddedSlice(f: string, d: nat)
    ensures (f + Zeros(d))[..d] == if d <= |f| then f[..d] else f + Zeros(d - |f|)
  {}

  /** Keeping `d` of the digits of `f`, padded with zeros, is the floor of f's value
      at that precision. */
  lemma KeptDigits(f: string, d: nat)
    requires AllDigits(f)
    ensures FloorOf(f, d, (f + Zeros(d))[..d])
  {
    hide FloorOf, Zeros;
    PaddedSlice(f, d);
    if d <= |f| {
      CutDigits(f[..d], f[d..]);
      assert f[..d] + f[d..] == f;
    } else {
      PaddedDigits(f, d - |f|);
    }
  }

  lemma FloorShifts(v: nat, p: nat, q: nat, a: nat, b: nat)
    requires a * q <= b * p < (a + 1) * q
    ensures (v * p + a) * q <= (v * q + b) * p < (v * p + a + 1) * q
  {
    assert (v * p + a) * q == v * p * q + a * q;
    assert (v * q + b) * p == v * q * p + b * p;
    assert (v * p + a + 1) * q == v * p * q + (a + 1) * q;
    assert v * q * p == v * p * q;
  }

  /** For every string: it is accepted exactly when, trimmed, it is a plain amount;
      and then the result is the floor of its value times 10^decimals, where the
      value is the number its digits spell over 10^(fraction digits). */
  lemma ToBaseIsFloor(decimal: string, decimals: nat)
    ensures ToBase(decimal, decimals).Some? <==> PlainAmount(Trim(decimal))
    ensures ToBase(decimal, decimals).Some? ==>
              var i, f := IntDigits(Trim(decimal)), FracDigits(Trim(decimal));
              var r := ToBase(decimal, decimals).value;
              && Canonical(r)
              && Value(r) * Pow10(|f|) <= Value(i + f) * Pow10(decimals) < (Value(r) + 1) * Pow10(|f|)
  {
    var s := Trim(decimal);
    AmountRule(s);
    hide Value, Pow10, Zeros, Decimal, Trim, Matches;
    if PlainAmount(s) {
      var i, f := IntDigits(s), FracDigits(s);
      var frac := (f + Zeros(decimals))[..decimals];
      KeptDigits(f, decimals);
      ValueOfAppend(i, f);
      var n := Value(i) * Pow10(decimals) + Value(frac);
      ValueOfDecimal(n);
      DecimalIsCanonical(n);
      FloorShifts(Value(i), Pow10(decimals), Pow10(|f|), Value(frac), Value(f));
    }
  }

  // ---- The exact formatter

  function Unsigned(base: string): string {
    if |base| > 0 && base[0] == '-' then base[1..] else base
  }

  predicate Negative(base: string) {
    |base| > 0 && base[0] == '-'
  }

  /** `int` or `int.frac`, without trailing zeros. */
  function Point(digits: string, decimals: nat): string
    requires |digits| >= decimals
  {
    var k := |digits| - decimals;
    var frac := TrimZeros(digits[k..]);
    if frac == [] then digits[..k] else digits[..k] + "." + frac
  }

  /** What both formatters write for the digits. */
  function Magnitude(base: string, decimals: nat): string {
    Point(PadStart(Unsigned(base), decimals + 1), decimals)
  }

  function FormatAmountExact(base: string, decimals: nat): string {
    var out := Magnitude(base, decimals);
    if Negative(base) && out != "0" then "-" + out else out
  }

  lemma PointSplits(digits: string, decimals: nat)
    requires AllDigits(digits) && |digits| > decimals
    ensures
      var k, out := |digits| - decimals, Point(digits, decimals);
      && PlainAmount(out) && Trim(out) == out
      && IntDigits(out) == digits[..k] && FracDigits(out) == TrimZeros(digits[k..])
  {
    hide Trim;
    var k, out := |digits| - decimals, Point(digits, decimals);
    PointIsTrimmed(digits, decimals);
    assert out[..k] == digits[..k];
    DotIsWhere(out, k);
  }

  lemma PointIsTrimmed(digits: string, decimals: nat)
    requires AllDigits(digits) && |digits| > decimals
    ensures Trim(Point(digits, decimals)) == Point(digits, decimals)
  {
    var k, out := |digits| - decimals, Point(digits, decimals);
    assert out[0] == digits[0] && Digit(out[0]);
    assert Digit(out[|out| - 1]) by {
      if |out| > k { assert out[|out| - 1] == TrimZeros(digits[k..])[|out| - k - 2]; }
    }
  }

  /** The dot and the fraction, if there is one. */
  function Tail(frac: string): string {
    if frac == "" then "" else "." + frac
  }

  lemma Associates(a: string, b: string, c: string)
    ensures a + (b + c) == (a + b) + c
  {}

  lemma PointIsTail(digits: string, dec: nat)
    requires |digits| >= dec
    ensures
      var k := |digits| - dec;
      Point(digits, dec) == digits[..k] + Tail(TrimZeros(digits[k..]))
  {
    hide TrimZeros;
    Associates(digits[..|digits| - dec], ".", TrimZeros(digits[|digits| - dec..]));
  }


  /** A canonical integer part, at most `d` decimals, no trailing zero, and a dot only
      in front of a fraction. */
  predicate NormalForm(t: string, d: nat) {
    && PlainAmount(t) && Canonical(IntDigits(t)) && t == IntDigits(t) + Tail(FracDigits(t))
    && |FracDigits(t)| <= d && (FracDigits(t) != [] ==> FracDigits(t)[|FracDigits(t)| - 1] != '0')
  }

  lemma PaddedIntPart(s: string, d: nat)
    requires Canonical(s)
    ensures
      var digits := PadStart(s, d + 1);
      Canonical(digits[..|digits| - d])
  {
    var digits := PadStart(s, d + 1);
    assert digits[..|digits| - d][0] == digits[0];
  }

  /** A canonical numeral with its point put in is in normal form. */
  lemma PointIsNormal(s: string, d: nat)
    requires Canonical(s)
    ensures NormalForm(Point(PadStart(s, d + 1), d), d)
  {
    hide Point, PadStart, Canonical, PlainAmount, Trim, Tail;
    var digits := PadStart(s, d + 1);
    CanonicalDigits(s);
    PaddedIntPart(s, d);
    PointSplits(digits, d);
    PointIsTail(digits, d);
  }

  lemma CanonicalDigits(s: string)
    requires Canonical(s)
    ensures AllDigits(s)
  {
  }

  /** The exact form of a canonical amount is in normal form; a negative one is the
      same behind a sign. */
  lemma ExactIsNormal(base: string, decimals: nat)
    requires Canonical(base)
    ensures NormalForm(FormatAmountExact(base, decimals), decimals)
    ensures FormatAmountExact("-" + base, decimals) == (if base == "0" then "0" else "-" + FormatAmountExact(base, decimals))
  {
    hide Point, PadStart, NormalForm, Zeros;
    assert Unsigned("-" + base) == base && Digit(base[0]);
    PointIsNormal(base, decimals);
    PaddedIsZeros(base, decimals + 1);
    PointIsZero(PadStart(base, decimals + 1), decimals);
    ZeroIsZeros(base);
  }

  lemma ZeroIsZeros(base: string)
    requires Canonical(base)
    ensures base == Zeros(|base|) <==> base == "0"
  {
    if base == Zeros(|base|) { assert base[0] == '0'; }
  }

  lemma ZeroParses(decimals: nat)
    ensures ToBase("0", decimals) == Some(Decimal(0))
  {
    assert Decimal(0) == "0";
    RoundTrip("0", decimals);
    ExactZero(decimals);
  }

  lemma ExactZero(decimals: nat)
    ensures FormatAmountExact("0", decimals) == "0"
  {
    hide Point, PadStart, Zeros;
    PaddedIsZeros("0", decimals + 1);
    PointIsZero(PadStart("0", decimals + 1), decimals);
    ZeroIsZeros("0");
  }

  /** Padding a trimmed fraction again restores it. */
  lemma FractionRestored(x: string)
    ensures (TrimZeros(x) + Zeros(|x|))[..|x|] == x
  {
    TrimmedPlusZeros(x);
    assert (TrimZeros(x) + Zeros(|x|))[..|x|] == TrimZeros(x) + Zeros(|x| - |TrimZeros(x)|);
  }

  lemma PlainParses(s: string, decimals: nat, frac: string)
    requires PlainAmount(s) && Trim(s) == s && frac == (FracDigits(s) + Zeros(decimals))[..decimals] && AllDigits(frac)
    ensures ToBase(s, decimals) == Some(Decimal(Value(IntDigits(s) + frac)))
  {
    hide Value, Pow10, Decimal, Trim, Matches, Zeros;
    AmountRule(s);
    ValueOfAppend(IntDigits(s), frac);
  }

  lemma PointParses(digits: string, decimals: nat)
    requires AllDigits(digits) && |digits| > decimals
    ensures ToBase(Point(digits, decimals), decimals) == Some(Decimal(Value(digits)))
  {
    hide *;
    var k := |digits| - decimals;
    PointSplits(digits, decimals);
    FractionRestored(digits[k..]);
    AllDigitsSlice(digits, k);
    PlainParses(Point(digits, decimals), decimals, digits[k..]);
    assert digits == digits[..k] + digits[k..];
  }

  lemma AllDigitsSlice(s: string, k: nat)
    requires AllDigits(s) && k <= |s|
    ensures AllDigits(s[k..])
  {}

  /** Parsing what the exact formatter writes gives the same number back, for every
      canonical base amount and every number of decimals. */
  lemma RoundTrip(base: string, decimals: nat)
    requires Canonical(base)
    ensures ToBase(FormatAmountExact(base, decimals), decimals) == Some(base)
  {
    hide ToBase, Point, PadStart, Value, Decimal;
    PointParses(PadStart(base, decimals + 1), decimals);
    ValueOfPadded(base, decimals + 1);
    CanonicalIsDecimal(base);
  }

  /** The padding loop of the Go formatter. */
  method PadLeft(base: string, decimals: nat) returns (digits: string)
    ensures digits == PadStart(base, decimals + 1)
  {
    digits := base;
    while |digits| <= decimals
      invariant |digits| <= decimals + 1 || digits == base
      invariant |base| <= |digits| && digits == Zeros(|digits| - |base|) + base
      decreases decimals + 1 - |digits|
    {
      ZeroInFront(|digits| - |base|);
      digits := "0" + digits;
    }
  }

  /** Its trimming and its dot. */
  method PutPoint(digits: string, decimals: nat) returns (out: string)
    requires |digits| >= decimals
    ensures out == Point(digits, decimals)
  {
    var k := |digits| - decimals;
    var frac := TrimZeros(digits[k..]);
    out := digits[..k];
    if frac != "" {
      out := digits[..k] + "." + frac;
    }
  }

  /** A minus sign in front of nothing but zeros, at most one more than the decimals. */
  predicate NegativeZero(base: string, decimals: nat) {
    Negative(base) && Unsigned(base) == Zeros(|Unsigned(base)|) && |Unsigned(base)| <= decimals + 1
  }

  /** The only digits written as "0", for any text before them. */
  lemma PointIsZero(digits: string, decimals: nat)
    requires |digits| > decimals
    ensures Point(digits, decimals) == "0" <==> digits == Zeros(decimals + 1)
  {
    var k := |digits| - decimals;
    TrimmedPlusZeros(digits[k..]);
    ZeroInFront(decimals);
    assert digits == digits[..k] + digits[k..];
    if Point(digits, decimals) == "0" {
      assert |digits[..k]| == 1 && TrimZeros(digits[k..]) == "";
    }
    if digits == Zeros(decimals + 1) {
      TrimZerosOfZeros(decimals);
      assert digits[..k] == "0" && digits[k..] == Zeros(decimals);
    }
  }

  lemma {:induction false} TrimZerosOfZeros(n: nat)
    ensures TrimZeros(Zeros(n)) == ""
  {
    if n > 0 {
      TrimZerosOfZeros(n - 1);
      assert Zeros(n)[..n - 1] == Zeros(n - 1);
    }
  }

  lemma PaddedIsZeros(s: string, n: nat)
    ensures PadStart(s, n) == Zeros(n) <==> s == Zeros(|s|) && |s| <= n
  {
    if |s| < n {
      assert forall i :: 0 <= i < |s| ==> PadStart(s, n)[n - |s| + i] == s[i];
    }
  }

  /** Where the two exact formatters differ, over every string. */
  lemma FormattersDiffer(base: string, decimals: nat)
    ensures
      var go := (if Negative(base) then "-" else "") + Magnitude(base, decimals);
      go == FormatAmountExact(base, decimals) <==> !NegativeZero(base, decimals)
  {
    hide Point, PadStart, Zeros;
    PaddedIsZeros(Unsigned(base), decimals + 1);
    PointIsZero(PadStart(Unsigned(base), decimals + 1), decimals);
    var m := Magnitude(base, decimals);
    assert |"-" + m| == |m| + 1 && "" + m == m;
  }

  /** Go measures a string in bytes and TypeScript in UTF-16 units; on ASCII the two
      are one. */
  predicate Ascii(s: string) {
    forall i :: 0 <= i < |s| ==> s[i] as int < 0x80
  }

  /** Go's formatter, `base` read as its bytes, writes what the TypeScript one does,
      except that it keeps the sign of a negative zero. */
  method FormatBaseAmount(base: string, decimals: nat) returns (out: string)
    ensures Ascii(base) ==> (out == FormatAmountExact(base, decimals) <==> !NegativeZero(base, decimals))
    ensures out == (if Negative(base) then "-" else "") + Magnitude(base, decimals)
  {
    hide PadStart, Point, FormatAmountExact, NegativeZero;
    var neg := |base| > 0 && base[0] == '-';
    var digits := PadLeft(if neg then base[1..] else base, decimals);
    out := PutPoint(digits, decimals);
    FormattersDiffer(base, decimals);
    if neg {
      out := "-" + out;
    }
  }

  lemma ZeroInFront(n: nat)
    ensures "0" + Zeros(n) == Zeros(n + 1)
  {}

  /** A canonical signed integer: no leading zeros, and no negative zero. */
  predicate CanonicalSigned(base: string) {
    Canonical(Unsigned(base)) && (Negative(base) ==> Unsigned(base) != "0")
  }

  /** On canonical signed integers the two formatters agree. */
  lemma FormattersAgree(base: string, decimals: nat)
    requires CanonicalSigned(base)
    ensures Ascii(base)
    ensures (if Negative(base) then "-" else "") + Magnitude(base, decimals) == FormatAmountExact(base, decimals)
  {
    FormattersDiffer(base, decimals);
    hide Magnitude, FormatAmountExact;
    forall i | 0 <= i < |base| ensures base[i] as int < 0x80 {
      assert i == 0 || base[i] == base[1..][i - 1];
    }
  }
}
