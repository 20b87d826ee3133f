/** Exact decimals: the text of an amount to the market's scaled integer and back, without a float. */
module Decimals {
  // ---- Powers of ten ----

  function Pow10(n: nat): (p: nat)
    ensures p > 0
  {
    if n == 0 then 1 else 10 * Pow10(n - 1)
  }

  lemma {:induction false} PowAdds(m: nat, n: nat)
    ensures Pow10(m + n) == Pow10(m) * Pow10(n)
  {
    if m > 0 { PowAdds(m - 1, n); }
  }

  // ---- Digits ----

  predicate Digit(c: char) { '0' <= c <= '9' }

  predicate AllDigits(s: string) { forall i :: 0 <= i < |s| ==> Digit(s[i]) }

  /** One digit or more. */
  predicate Digits(s: string) { s != "" && AllDigits(s) }

  /** The number a run of digits spells; leading zeros are allowed, the empty text is zero. */
  function Value(s: string): nat
    requires AllDigits(s)
  {
    if s == "" then 0 else 10 * Value(s[..|s| - 1]) + (s[|s| - 1] as int - '0' as int)
  }

  /** A number as it prints, without leading zeros. */
  function Text(n: nat): (s: string)
    ensures Digits(s)
  {
    var last := [(n % 10 + '0' as int) as char];
    if n < 10 then last else Text(n / 10) + last
  }

  function Zeros(n: nat): (s: string)
    ensures |s| == n && forall i :: 0 <= i < n ==> s[i] == '0'
  {
    seq(n, _ => '0')
  }

  lemma {:induction false} ValueOfText(n: nat)
    ensures Value(Text(n)) == n
  {
    var s := Text(n);
    if n >= 10 {
      ValueOfText(n / 10);
      assert s[..|s| - 1] == Text(n / 10);
    }
  }

  lemma {:induction false} ValueOfZeros(s: string, n: nat)
    requires AllDigits(s)
    ensures Value(s + Zeros(n)) == Value(s) * Pow10(n)
  {
    if n == 0 {
      assert s + Zeros(0) == s;
    } else {
      ValueOfZeros(s, n - 1);
      assert (s + Zeros(n))[..|s| + n - 1] == s + Zeros(n - 1);
    }
  }

  lemma {:induction false} ZerosBefore(n: nat, s: string)
    requires AllDigits(s)
    ensures Value(Zeros(n) + s) == Value(s)
  {
    var all := Zeros(n) + s;
    if s != "" {
      ZerosBefore(n, s[..|s| - 1]);
      assert all[..|all| - 1] == Zeros(n) + s[..|s| - 1];
    } else if n > 0 {
      ZerosBefore(n - 1, s);
      assert all[..n - 1] == Zeros(n - 1) + s;
    }
  }

  // ---- Text helpers ----

  /** What JavaScript's trim removes: white space and line terminators. */
  predicate Space(c: char) {
    || c in "\t\n\r \U{B}\U{C}\U{A0}\U{1680}\U{2028}\U{2029}\U{202F}\U{205F}\U{3000}\U{FEFF}"
    || '\U{2000}' <= c <= '\U{200A}'
  }

  function Trim(s: string): string {
    if s == "" then s
    else if Space(s[0]) then Trim(s[1..])
    else if Space(s[|s| - 1]) then Trim(s[..|s| - 1])
    else s
  }

  function PadEnd(s: string, n: nat): string { if |s| >= n then s else s + Zeros(n - |s|) }

  function PadStart(s: string, n: nat): string { if |s| >= n then s else Zeros(n - |s|) + s }

  function Take(s: string, n: nat): string { if |s| <= n then s else s[..n] }

  /** The text without its trailing zeros. */
  function StripZeros(s: string): (t: string)
    ensures |t| <= |s| && s == t + Zeros(|s| - |t|)
    ensures t != "" ==> t[|t| - 1] != '0'
  {
    if s != "" && s[|s| - 1] == '0' then StripZeros(s[..|s| - 1]) else s
  }

  /** Trailing zeros go, and with them a point left at the end. */
  function StripTail(s: string): string {
    var t := StripZeros(s);
    if |t| < |s| && t != "" && t[|t| - 1] == '.' then t[..|t| - 1] else t
  }

  /** Where the point is, or the length when there is none. */
  function PointAt(s: string): (k: nat)
    ensures k <= |s| && (k < |s| ==> s[k] == '.')
    ensures forall i :: 0 <= i < k ==> s[i] != '.'
  {
    if s == "" || s[0] == '.' then 0 else 1 + PointAt(s[1..])
  }

  function Whole(s: string): string { s[..PointAt(s)] }

  function Fraction(s: string): string { if PointAt(s) == |s| then "" else s[PointAt(s) + 1..] }

  /** Digits, and then perhaps a point and more digits. */
  predicate Decimal(s: string) { Digits(Whole(s)) && (PointAt(s) == |s| || Digits(Fraction(s))) }

  // ---- The two functions ----

  datatype Scaled = Ok(value: nat) | Malformed | TooFine

  /** Decimal text to an integer scaled by 10^decimals; precision that does not fit is an error. */
  function Scale(value: string, decimals: nat): Scaled {
    var trimmed := Trim(value);
    if !Decimal(trimmed) then Malformed
    else if |StripZeros(Fraction(trimmed))| > decimals then TooFine
    else Ok(Value(Whole(trimmed) + Take(PadEnd(Fraction(trimmed), decimals), decimals)))
  }

  function Unscale(raw: int, decimals: nat): string {
    if decimals == 0 then (if raw < 0 then "-" + Text(-raw) else Text(raw))
    else
      var digits := PadStart(Text(if raw < 0 then -raw else raw), decimals + 1);
      var point := |digits| - decimals;
      var out := StripTail(digits[..point] + "." + digits[point..]);
      if raw < 0 then "-" + out else out
  }

  // ---- What a decimal text stands for: Numerator / 10^Places ----

  function Places(s: string): nat { |Fraction(s)| }

  function Numerator(s: string): nat
    requires Decimal(s)
  {
    Value(Whole(s) + Fraction(s))
  }

  // ---- Scale is exact ----

  /** With trailing zeros aside, both sides are the same digits under different powers of ten. */
  lemma PaddedDigits(f: string, d: nat)
    requires AllDigits(f) && |StripZeros(f)| <= d
    ensures Take(PadEnd(f, d), d) == StripZeros(f) + Zeros(d - |StripZeros(f)|)
  {
  }

  lemma Regroup(v: nat, a: nat, b: nat, k: nat, d: nat)
    requires b * k == a * d
    ensures v * b * k == v * a * d
  {
    assert v * b * k == v * (b * k);
    assert v * a * d == v * (a * d);
  }

  lemma Shifted(v: nat, j: nat, k: nat, d: nat)
    requires j <= k && j <= d
    ensures v * Pow10(d - j) * Pow10(k) == v * Pow10(k - j) * Pow10(d)
  {
    PowAdds(d - j, k);
    PowAdds(k - j, d);
    assert d - j + k == k - j + d;
    Regroup(v, Pow10(k - j), Pow10(d - j), Pow10(k), Pow10(d));
  }

  lemma {:induction false} LastDigit(s: string)
    requires s != "" && AllDigits(s) && s[|s| - 1] != '0'
    ensures Value(s) % 10 != 0
  {
    assert Digit(s[|s| - 1]);
  }

  lemma StrictlyMore(p: nat, a: nat, c: nat)
    requires p > 0 && c > 0
    ensures a * p < (a + c) * p
  {
    assert (a + c) * p == a * p + c * p;
  }

  lemma CancelFactor(p: nat, a: nat, b: nat)
    requires p > 0 && a * p == b * p
    ensures a == b
  {
    if a < b { StrictlyMore(p, a, b - a); }
    if b < a { StrictlyMore(p, b, a - b); }
  }

  lemma NotMultiple(v: nat, q: nat, a: nat, d: nat, rest: nat)
    requires a > 0 && d > 0 && v % 10 != 0
    ensures q * (a * d * (10 * rest)) != v * a * d
  {
    if q * (a * d * (10 * rest)) == v * a * d {
      assert q * (a * d * (10 * rest)) == 10 * (q * rest) * (a * d);
      assert v * a * d == v * (a * d);
      CancelFactor(a * d, v, 10 * (q * rest));
      assert false;
    }
  }

  /** A number not divisible by ten is not made an integer by fewer places than it has. */
  lemma NotShifted(v: nat, q: nat, j: nat, k: nat, d: nat)
    requires d < j <= k && v % 10 != 0
    ensures q * Pow10(k) != v * Pow10(k - j) * Pow10(d)
  {
    PowAdds(k - j, d);
    PowAdds(k - j + d, j - d);
    assert k - j + d + (j - d) == k;
    NotMultiple(v, q, Pow10(k - j), Pow10(d), Pow10(j - d - 1));
  }

  /** The value times 10^d is an integer. */
  ghost predicate Expressible(s: string, d: nat)
    requires Decimal(s)
  {
    exists q: nat :: q * Pow10(Places(s)) == Numerator(s) * Pow10(d)
  }

  lemma StripKeepsDigits(f: string)
    requires AllDigits(f)
    ensures AllDigits(StripZeros(f))
  {
    var t := StripZeros(f);
    assert forall i :: 0 <= i < |t| ==> t[i] == f[i];
  }

  /** The digits before the trailing zeros carry the whole value. */
  lemma SignificantDigits(w: string, f: string)
    requires AllDigits(w) && AllDigits(f)
    ensures AllDigits(StripZeros(f)) && Value(w + f) == Value(w + StripZeros(f)) * Pow10(|f| - |StripZeros(f)|)
  {
    var t := StripZeros(f);
    StripKeepsDigits(f);
    ValueOfZeros(w + t, |f| - |t|);
    assert w + f == w + t + Zeros(|f| - |t|);
  }

  lemma PaddedValue(w: string, t: string, n: nat, padded: string)
    requires AllDigits(w) && AllDigits(t) && padded == t + Zeros(n)
    ensures AllDigits(w + padded) && Value(w + padded) == Value(w + t) * Pow10(n)
  {
    ValueOfZeros(w + t, n);
    assert w + (t + Zeros(n)) == w + t + Zeros(n);
  }

  lemma FitsExactly(w: string, f: string, d: nat)
    requires AllDigits(w) && AllDigits(f) && |StripZeros(f)| <= d
    ensures AllDigits(w + Take(PadEnd(f, d), d)) && AllDigits(w + f)
    ensures Value(w + Take(PadEnd(f, d), d)) * Pow10(|f|) == Value(w + f) * Pow10(d)
  {
    var t, padded := StripZeros(f), Take(PadEnd(f, d), d);
    SignificantDigits(w, f);
    PaddedDigits(f, d);
    PaddedValue(w, t, d - |t|, padded);
    Shifted(Value(w + t), |t|, |f|, d);
    assert Value(w + padded) == Value(w + t) * Pow10(d - |t|);
    assert Value(w + f) == Value(w + t) * Pow10(|f| - |t|);
  }

  lemma TooFineIsInexpressible(s: string, d: nat)
    requires Decimal(s) && |StripZeros(Fraction(s))| > d
    ensures !Expressible(s, d)
  {
    var w, f := Whole(s), Fraction(s);
    var t := StripZeros(f);
    SignificantDigits(w, f);
    assert (w + t)[|w + t| - 1] == t[|t| - 1];
    LastDigit(w + t);
    forall q: nat ensures q * Pow10(Places(s)) != Numerator(s) * Pow10(d) {
      NotShifted(Value(w + t), q, |t|, |f|, d);
    }
  }

  /**
   Scale refuses what is not a decimal; a decimal it accepts exactly when its value times 10^d is an
   integer, and that integer is the answer.
   */
  lemma ScaleExact(value: string, d: nat)
    ensures var s, r := Trim(value), Scale(value, d);
            && (r.Malformed? <==> !Decimal(s))
            && (Decimal(s) ==> (r.Ok? <==> Expressible(s, d)))
            && (r.Ok? ==> r.value * Pow10(Places(s)) == Numerator(s) * Pow10(d))
  {
    var s := Trim(value);
    if Decimal(s) {
      if |StripZeros(Fraction(s))| <= d {
        FitsExactly(Whole(s), Fraction(s), d);
      } else {
        TooFineIsInexpressible(s, d);
      }
    }
  }

  // ---- Round trips ----

  lemma TrimKeeps(s: string)
    requires s != "" && Digit(s[0]) && Digit(s[|s| - 1])
    ensures Trim(s) == s
  {
  }

  /** The padded digits split into a whole part and exactly d places. */
  lemma SplitDigits(v: nat, d: nat) returns (whole: string, fraction: string)
    ensures Digits(whole) && AllDigits(fraction) && |fraction| == d && Value(whole + fraction) == v
    ensures var digits := PadStart(Text(v), d + 1); whole == digits[..|digits| - d] && fraction == digits[|digits| - d..]
  {
    var text := Text(v);
    var digits := PadStart(text, d + 1);
    ValueOfText(v);
    if |text| < d + 1 { ZerosBefore(d + 1 - |text|, text); }
    whole, fraction := digits[..|digits| - d], digits[|digits| - d..];
    assert whole + fraction == digits;
  }

  lemma StripTailOf(whole: string, fraction: string)
    requires Digits(whole) && AllDigits(fraction) && fraction != ""
    ensures StripTail(whole + "." + fraction) == if StripZeros(fraction) == "" then whole else whole + "." + StripZeros(fraction)
  {
    StripAcross(whole + ".", fraction);
    StripKeepsDigits(fraction);
    var t := StripZeros(fraction);
    if t == "" {
      assert whole + "." + t == whole + ".";
      assert (whole + ".")[..|whole|] == whole;
    }
  }

  /** What Unscale prints for a number that is not negative. */
  lemma UnscaleShape(v: nat, d: nat) returns (whole: string, fraction: string)
    requires d > 0
    ensures Digits(whole) && AllDigits(fraction) && |fraction| == d && Value(whole + fraction) == v
    ensures Unscale(v, d) == if StripZeros(fraction) == "" then whole else whole + "." + StripZeros(fraction)
  {
    whole, fraction := SplitDigits(v, d);
    StripTailOf(whole, fraction);
  }

  /** Stripping stops at the point. */
  lemma {:induction false} StripAcross(prefix: string, f: string)
    requires prefix != "" && prefix[|prefix| - 1] == '.'
    ensures StripZeros(prefix + f) == prefix + StripZeros(f)
  {
    if f == "" {
      assert prefix + f == prefix;
    } else {
      assert (prefix + f)[|prefix + f| - 1] == f[|f| - 1];
      assert (prefix + f)[..|prefix + f| - 1] == prefix + f[..|f| - 1];
      StripAcross(prefix, f[..|f| - 1]);
    }
  }

  lemma {:induction false} PointAfter(whole: string, rest: string)
    requires AllDigits(whole) && (rest == "" || rest[0] == '.')
    ensures PointAt(whole + rest) == |whole|
  {
    if whole == "" {
      assert whole + rest == rest;
    } else {
      assert (whole + rest)[1..] == whole[1..] + rest;
      PointAfter(whole[1..], rest);
    }
  }

  /** A whole part and a fraction without trailing zeros, put together, parse as themselves. */
  lemma Parses(whole: string, t: string)
    requires Digits(whole) && AllDigits(t) && StripZeros(t) == t
    ensures var s := if t == "" then whole else whole + "." + t;
            Trim(s) == s && Decimal(s) && Whole(s) == whole && Fraction(s) == t
  {
    if t == "" { ParsesWhole(whole); } else { ParsesFraction(whole, t); }
  }

  lemma ParsesWhole(whole: string)
    requires Digits(whole)
    ensures Trim(whole) == whole && Decimal(whole) && Whole(whole) == whole && Fraction(whole) == ""
  {
    TrimKeeps(whole);
    assert whole + "" == whole;
    PointAfter(whole, "");
  }

  lemma ParsesFraction(whole: string, t: string)
    requires Digits(whole) && AllDigits(t) && t != ""
    ensures var s := whole + "." + t; Trim(s) == s && Decimal(s) && Whole(s) == whole && Fraction(s) == t
  {
    var s := whole + "." + t;
    TrimKeeps(s);
    assert whole + "." + t == whole + ("." + t);
    PointAfter(whole, "." + t);
    assert s[..|whole|] == whole && s[|whole| + 1..] == t;
  }

  lemma ScaleOf(whole: string, fraction: string, d: nat)
    requires Digits(whole) && AllDigits(fraction) && |fraction| == d
    ensures var t := StripZeros(fraction);
            Scale(if t == "" then whole else whole + "." + t, d) == Ok(Value(whole + fraction))
  {
    var t := StripZeros(fraction);
    StripKeepsDigits(fraction);
    StripTwice(fraction);
    Parses(whole, t);
    PaddedDigits(t, d);
  }

  lemma StripTwice(s: string)
    ensures StripZeros(StripZeros(s)) == StripZeros(s)
  {
  }

  /** Printing a scaled integer and reading it back gives it again; a negative one prints as text Scale refuses. */
  lemma ScaleOfUnscale(v: int, d: nat)
    ensures Scale(Unscale(v, d), d) == if v >= 0 then Ok(v) else Malformed
  {
    if v < 0 {
      var out := Unscale(v, d);
      MinusMalformed(out[1..]);
      assert out == "-" + out[1..];
    } else if d == 0 {
      ValueOfText(v);
      assert Text(v) + "" == Text(v);
      ScaleOf(Text(v), "", 0);
    } else {
      var whole, fraction := UnscaleShape(v, d);
      ScaleOf(whole, fraction, d);
    }
  }

  lemma {:induction false} MinusMalformed(rest: string)
    ensures !Decimal(Trim("-" + rest))
    decreases |rest|
  {
    var s := "-" + rest;
    if rest != "" && Space(s[|s| - 1]) {
      assert s[..|s| - 1] == "-" + rest[..|rest| - 1];
      MinusMalformed(rest[..|rest| - 1]);
    } else {
      assert Trim(s) == s && PointAt(s) > 0;
      assert Whole(s)[0] == '-' && !Digit('-');
    }
  }

  lemma UnscaleParses(v: nat, d: nat)
    ensures var out := Unscale(v, d); Trim(out) == out && Decimal(out) && StripZeros(Fraction(out)) == Fraction(out)
  {
    if d == 0 {
      Parses(Text(v), "");
    } else {
      var whole, fraction := UnscaleShape(v, d);
      StripKeepsDigits(fraction);
      StripTwice(fraction);
      Parses(whole, StripZeros(fraction));
    }
  }

  /** Two fractions that scale to the same integer are equal. */
  lemma SameValue(a: nat, b: nat, k: nat, m: nat, p: nat, r: nat)
    requires p > 0 && r * k == a * p && r * m == b * p
    ensures b * k == a * m
  {
    assert (b * k) * p == (b * p) * k;
    assert (r * m) * k == (r * k) * m;
    assert (a * p) * m == (a * m) * p;
    CancelFactor(p, b * k, a * m);
  }

  /** Reading a decimal and printing it keeps its value, and the printed text has no padding left. */
  lemma UnscaleOfScale(value: string, d: nat)
    requires Scale(value, d).Ok?
    ensures var s, out := Trim(value), Unscale(Scale(value, d).value, d);
            && Decimal(s) && Decimal(out) && Trim(out) == out
            && Numerator(out) * Pow10(Places(s)) == Numerator(s) * Pow10(Places(out))
            && StripZeros(Fraction(out)) == Fraction(out)
  {
    var s, r := Trim(value), Scale(value, d).value;
    var out := Unscale(r, d);
    ScaleExact(value, d);
    ScaleOfUnscale(r, d);
    ScaleExact(out, d);
    UnscaleParses(r, d);
    SameValue(Numerator(s), Numerator(out), Pow10(Places(s)), Pow10(Places(out)), Pow10(d), r);
  }
}
