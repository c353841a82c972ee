/**
 * How the scripts turn a price text such as "250,00 kr" into a number.
 * `parseFloat` reads the longest decimal numeral at the start of its
 * argument ("12.5", "12." or ".5") and gives NaN when there is none. A
 * number is kept exactly, as a decimal: the comparisons the scripts make
 * with it (`p > 0`, `p > max`, `700 * p <= max`, `Math.floor(max / p)`) are
 * decided on that exact value.
 */
module Prices {
  import opened Text
  import opened Wrappers

  /** `10^n`. */
  function Pow10(n: nat): (r: nat)
    ensures r > 0
  {
    if n == 0 then 1 else 10 * Pow10(n - 1)
  }

  /** A number as `parseFloat` returns it from decimal text: NaN, or `digits / 10^scale` ("12.50" is `Num(1250, 2)`). */
  datatype Price = NaN | Num(digits: nat, scale: nat)

  /** The value of a number. */
  function RealValue(p: Price): real
    requires p.Num?
  {
    p.digits as real / Pow10(p.scale) as real
  }

  /** JavaScript truthiness of a parsed number, and `p > 0`: NaN and 0 are false. */
  predicate Truthy(p: Price)
  {
    p.Num? && p.digits > 0
  }

  /** `p > bound`: false for NaN, as every comparison with NaN is. */
  predicate GreaterThan(p: Price, bound: int)
  {
    p.Num? && p.digits > bound * Pow10(p.scale)
  }

  /** `k * p <= bound`: false for NaN. */
  predicate TimesAtMost(p: Price, k: nat, bound: int)
  {
    p.Num? && k * p.digits <= bound * Pow10(p.scale)
  }

  /** `Math.floor(bound / p)` for a positive `p`. */
  function FloorDiv(bound: int, p: Price): int
    requires Truthy(p)
  {
    (bound * Pow10(p.scale)) / p.digits
  }

  /** Scaling both sides of a comparison by a positive number keeps it. */
  lemma ScaledComparison(x: real, y: real, scale: real)
    requires scale > 0.0
    ensures x * scale <= y * scale <==> x <= y
  {
  }

  /** Integer products read as real products. */
  lemma ProductAsReal(a: int, b: int)
    ensures (a * b) as real == a as real * b as real
  {
  }

  /** Real multiplication regroups. */
  lemma RealProductAssoc(a: real, b: real, c: real)
    ensures (a * b) * c == a * (b * c)
  {
  }

  /** A positive number is one whose value is above zero. */
  lemma TruthyMeansPositive(p: Price)
    requires p.Num?
    ensures Truthy(p) <==> RealValue(p) > 0.0
  {
  }

  /** `GreaterThan` decides `p > bound` on the value. */
  lemma GreaterThanMeansValue(p: Price, bound: int)
    requires p.Num?
    ensures GreaterThan(p, bound) <==> RealValue(p) > bound as real
  {
    var scale := Pow10(p.scale) as real;
    var v := RealValue(p);
    assert v * scale == p.digits as real;
    ProductAsReal(bound, Pow10(p.scale));
    ScaledComparison(v, bound as real, scale);
  }

  /** `TimesAtMost` decides `k * p <= bound` on the value. */
  lemma TimesAtMostMeansValue(p: Price, k: nat, bound: int)
    requires p.Num?
    ensures TimesAtMost(p, k, bound) <==> k as real * RealValue(p) <= bound as real
  {
    var scale := Pow10(p.scale) as real;
    var v := RealValue(p);
    assert v * scale == p.digits as real;
    ProductAsReal(bound, Pow10(p.scale));
    ProductAsReal(k, p.digits);
    RealProductAssoc(k as real, v, scale);
    ScaledComparison(k as real * v, bound as real, scale);
  }

  /** A number above a bound that is not negative is positive. */
  lemma GreaterThanNonNegativeIsTruthy(p: Price, bound: int)
    requires bound >= 0
    ensures GreaterThan(p, bound) ==> Truthy(p)
  {
  }

  /** The integer quotient lies between the multiples it separates. */
  lemma QuotientBounds(b: int, d: nat)
    requires d > 0
    ensures (b / d) * d <= b < (b / d + 1) * d
  {
    assert b == d * (b / d) + b % d;
  }

  /** Scaling a count times a price by 10^scale gives the count times the price's digits. */
  lemma ScaledCount(n: int, p: Price)
    requires p.Num?
    ensures (n as real * RealValue(p)) * Pow10(p.scale) as real == (n * p.digits) as real
  {
    var scale := Pow10(p.scale) as real;
    assert RealValue(p) * scale == p.digits as real;
    RealProductAssoc(n as real, RealValue(p), scale);
    ProductAsReal(n, p.digits);
  }

  /** `FloorDiv` is the floor of the quotient: that many units fit, one more does not. */
  lemma FloorDivIsFloor(bound: int, p: Price)
    requires Truthy(p)
    ensures var q := FloorDiv(bound, p);
            q as real * RealValue(p) <= bound as real < (q + 1) as real * RealValue(p)
  {
    var q := FloorDiv(bound, p);
    var scale := Pow10(p.scale) as real;
    QuotientBounds(bound * Pow10(p.scale), p.digits);
    ProductAsReal(bound, Pow10(p.scale));
    ScaledCount(q, p);
    ScaledCount(q + 1, p);
    ScaledComparison(q as real * RealValue(p), bound as real, scale);
    ScaledComparison(bound as real, (q + 1) as real * RealValue(p), scale);
  }

  /** Every character of `t` is a decimal digit. */
  predicate AllDigits(t: string)
  {
    forall k :: 0 <= k < |t| ==> IsDigit(t[k])
  }

  /** A text made only of digits, dots and commas: what each price filter hands to `parseFloat`. */
  predicate NumeralText(s: string)
  {
    forall k :: 0 <= k < |s| ==> IsDigit(s[k]) || s[k] == '.' || s[k] == ','
  }

  predicate DigitOrDot(c: char)
  {
    IsDigit(c) || c == '.'
  }

  predicate DigitOrComma(c: char)
  {
    IsDigit(c) || c == ','
  }

  predicate NotDigitOrComma(c: char)
  {
    !DigitOrComma(c)
  }

  predicate NotComma(c: char)
  {
    c != ','
  }

  /** Digits followed by digits are digits. */
  lemma AllDigitsConcat(a: string, b: string)
    requires AllDigits(a) && AllDigits(b)
    ensures AllDigits(a + b)
  {
    assert forall k :: 0 <= k < |a + b| ==> (a + b)[k] == if k < |a| then a[k] else b[k - |a|];
  }

  /** One more digit after `a` and `b'`: the shift by ten distributes over the sum. */
  lemma ShiftStep(x: nat, p: nat, y: nat, d: nat)
    ensures 10 * (x * p + y) + d == x * (10 * p) + (10 * y + d)
  {
  }

  /** The value of digits `a` followed by digits `b`. */
  lemma {:induction false} DigitsConcat(a: string, b: string)
    requires AllDigits(a) && AllDigits(b)
    ensures AllDigits(a + b)
    ensures DigitsValue(a + b) == DigitsValue(a) * Pow10(|b|) + DigitsValue(b)
    decreases |b|
  {
    AllDigitsConcat(a, b);
    if |b| == 0 {
      assert a + b == a;
    } else {
      var b' := b[..|b| - 1];
      assert AllDigits(b');
      DigitsConcat(a, b');
      var ab := a + b;
      assert ab[..|ab| - 1] == a + b';
      assert ab[|ab| - 1] == b[|b| - 1];
      var d := DigitValue(b[|b| - 1]);
      assert DigitsValue(ab) == 10 * DigitsValue(a + b') + d;
      assert DigitsValue(b) == 10 * DigitsValue(b') + d;
      ShiftStep(DigitsValue(a), Pow10(|b'|), DigitsValue(b'), d);
    }
  }

  /** `s` with every character `keep` refuses removed (`replace(/[^...]/g, '')`), order kept. */
  function Keep(s: string, keep: char -> bool): (r: string)
    ensures |r| <= |s|
    ensures forall k :: 0 <= k < |r| ==> keep(r[k])
    decreases |s|
  {
    if |s| == 0 then "" else (if keep(s[0]) then [s[0]] else "") + Keep(s[1..], keep)
  }

  /** Filtering a concatenation filters each part. */
  lemma {:induction false} KeepConcat(a: string, b: string, keep: char -> bool)
    ensures Keep(a + b, keep) == Keep(a, keep) + Keep(b, keep)
    decreases |a|
  {
    if |a| > 0 {
      assert (a + b)[1..] == a[1..] + b;
      KeepConcat(a[1..], b, keep);
    } else {
      assert a + b == b;
    }
  }

  /** The `[^0-9.]` filter drops a comma wherever it stands: "250,00" reads as "25000". */
  lemma KeepDigitsAndDotsIgnoresComma(a: string, b: string)
    ensures Keep(a + "," + b, DigitOrDot) == Keep(a + b, DigitOrDot)
  {
    KeepConcat(a + ",", b, DigitOrDot);
    KeepConcat(a, ",", DigitOrDot);
    KeepConcat(a, b, DigitOrDot);
  }

  /** `s.replace(from, to)` for one character: the first `from` (if any) becomes `to`. */
  function ReplaceFirst(s: string, from: char, to: char): (r: string)
    ensures |r| == |s|
    ensures from !in s ==> r == s
    decreases |s|
  {
    if |s| == 0 then s
    else if s[0] == from then [to] + s[1..]
    else [s[0]] + ReplaceFirst(s[1..], from, to)
  }

  /** A leading character other than `from` is kept and the search goes on after it. */
  lemma ReplaceFirstPast(x: char, t: string, from: char, to: char)
    requires x != from
    ensures ReplaceFirst([x] + t, from, to) == [x] + ReplaceFirst(t, from, to)
  {
    assert ([x] + t)[0] == x && ([x] + t)[1..] == t;
  }

  /** Exactly the first `from` is replaced: what precedes it and what follows it are kept. */
  lemma {:induction false} ReplaceFirstAt(a: string, from: char, to: char, c: string)
    requires from !in a
    ensures ReplaceFirst(a + [from] + c, from, to) == a + [to] + c
    decreases |a|
  {
    if |a| > 0 {
      var tail := a[1..] + [from] + c;
      assert a + [from] + c == [a[0]] + tail;
      assert a[0] != from && from !in a[1..];
      ReplaceFirstPast(a[0], tail, from, to);
      ReplaceFirstAt(a[1..], from, to, c);
      AppendAssoc([a[0]], a[1..] + [to], c);
      assert [a[0]] + (a[1..] + [to]) == a + [to];
    } else {
      assert a + [from] + c == [from] + c;
      assert ([from] + c)[1..] == c;
    }
  }

  /** `s.replace(c, '')`: the first `c` (if any) removed. */
  function RemoveFirst(s: string, c: char): (r: string)
    ensures c !in s ==> r == s
    ensures c in s ==> |r| == |s| - 1
    decreases |s|
  {
    if |s| == 0 then s
    else if s[0] == c then s[1..]
    else [s[0]] + RemoveFirst(s[1..], c)
  }

  /** A leading character other than `c` is kept and the search goes on after it. */
  lemma RemoveFirstPast(x: char, t: string, c: char)
    requires x != c
    ensures RemoveFirst([x] + t, c) == [x] + RemoveFirst(t, c)
  {
    assert ([x] + t)[0] == x && ([x] + t)[1..] == t;
  }

  /** Exactly the first `c` is removed: what precedes it and what follows it are kept. */
  lemma {:induction false} RemoveFirstAt(a: string, c: char, rest: string)
    requires c !in a
    ensures RemoveFirst(a + [c] + rest, c) == a + rest
    decreases |a|
  {
    if |a| > 0 {
      var tail := a[1..] + [c] + rest;
      assert a + [c] + rest == [a[0]] + tail;
      assert a[0] != c && c !in a[1..];
      RemoveFirstPast(a[0], tail, c);
      RemoveFirstAt(a[1..], c, rest);
      AppendAssoc([a[0]], a[1..], rest);
      assert [a[0]] + a[1..] == a;
    } else {
      assert a + [c] + rest == [c] + rest;
      assert ([c] + rest)[1..] == rest;
    }
  }

  /** The end of the run of characters accepted by `p` that starts at `i`. */
  function RunEnd(s: string, i: nat, p: char -> bool): (e: nat)
    requires i <= |s|
    ensures i <= e <= |s|
    ensures forall k :: i <= k < e ==> p(s[k])
    ensures e == |s| || !p(s[e])
    decreases |s| - i
  {
    if i < |s| && p(s[i]) then RunEnd(s, i + 1, p) else i
  }

  /** A run of `p` from `i` to `n` that stops at `n` is what `RunEnd` finds. */
  lemma {:induction false} RunEndAt(s: string, i: nat, n: nat, p: char -> bool)
    requires i <= n <= |s|
    requires forall k :: i <= k < n ==> p(s[k])
    requires n == |s| || !p(s[n])
    ensures RunEnd(s, i, p) == n
    decreases n - i
  {
    if i < n {
      RunEndAt(s, i + 1, n, p);
    }
  }

  /**
   * `parseFloat(s)` on a text of digits, dots and commas: the leading
   * digits, then a dot and the digits after it ("12.5", "12.", ".5"); NaN
   * when no digit comes before or right after a leading dot.
   */
  function ParseFloat(s: string): (p: Price)
    requires NumeralText(s)
    ensures p.NaN? <==> !(|s| > 0 && (IsDigit(s[0]) || (|s| > 1 && s[0] == '.' && IsDigit(s[1]))))
  {
    var n := RunEnd(s, 0, IsDigit);
    if n < |s| && s[n] == '.' then
      var m := RunEnd(s, n + 1, IsDigit);
      if n == 0 && m == 1 then NaN
      else
        DigitsConcat(s[..n], s[n + 1..m]);
        Num(DigitsValue(s[..n] + s[n + 1..m]), m - n - 1)
    else if n == 0 then NaN
    else Num(DigitsValue(s[..n]), 0)
  }

  /** A numeral reads as its value when no digit or dot follows it. */
  /** Digits alone read as the whole number they write. */
  lemma ParseFloatOfDigits(w: string)
    requires AllDigits(w) && |w| > 0
    ensures NumeralText(w)
    ensures ParseFloat(w) == Num(DigitsValue(w), 0)
  {
    ParseFloatOfWhole(w, "");
    assert w + "" == w;
  }

  /** Digits followed by nothing or by a comma read as the whole number they write. */
  lemma ParseFloatOfWhole(w: string, rest: string)
    requires AllDigits(w) && |w| > 0
    requires NumeralText(rest) && (|rest| == 0 || rest[0] == ',')
    ensures NumeralText(w + rest)
    ensures ParseFloat(w + rest) == Num(DigitsValue(w), 0)
  {
    var s := w + rest;
    assert forall k :: 0 <= k < |w| ==> s[k] == w[k];
    assert forall k :: |w| <= k < |s| ==> s[k] == rest[k - |w|];
    RunEndAt(s, 0, |w|, IsDigit);
    assert s[..|w|] == w;
  }

  /** Digits, a dot and digits read as the decimal they write, whatever non-digit follows. */
  lemma ParseFloatOfDecimal(w: string, f: string, rest: string)
    requires AllDigits(w) && AllDigits(f) && |w| + |f| > 0
    requires NumeralText(rest) && (|rest| == 0 || !IsDigit(rest[0]))
    ensures NumeralText(w + "." + f + rest)
    ensures AllDigits(w + f)
    ensures ParseFloat(w + "." + f + rest) == Num(DigitsValue(w + f), |f|)
  {
    var s := w + "." + f + rest;
    DecimalPieces(w, f, rest);
    DigitsConcat(w, f);
    var n := RunEnd(s, 0, IsDigit);
    var m := RunEnd(s, n + 1, IsDigit);
    assert s[..n] + s[n + 1..m] == w + f;
  }

  /** Where the runs of "<w>.<f><rest>" end, and what they hold. */
  lemma DecimalPieces(w: string, f: string, rest: string)
    requires AllDigits(w) && AllDigits(f)
    requires NumeralText(rest) && (|rest| == 0 || !IsDigit(rest[0]))
    ensures var s := w + "." + f + rest;
            NumeralText(s) && RunEnd(s, 0, IsDigit) == |w| && s[|w|] == '.'
            && RunEnd(s, |w| + 1, IsDigit) == |w| + 1 + |f|
            && s[..|w|] == w && s[|w| + 1..|w| + 1 + |f|] == f
  {
    var u := w + ".";
    var v := f + rest;
    var s := w + "." + f + rest;
    AppendAssoc(u, f, rest);
    assert s == u + v;
    PrefixRun(w, "." + v, IsDigit);
    AppendAssoc(w, ".", v);
    PrefixRun(f, rest, IsDigit);
    RunEndShift(u, v, 0, IsDigit);
    NumeralConcat(f, rest);
    DotNumeral(v);
    NumeralConcat(w, "." + v);
    ConcatSlices(w, "." + v, 0);
    ConcatSlices(u, v, |f|);
    ConcatSlices(f, rest, 0);
  }

  /** A point before numeral text keeps it numeral text. */
  lemma DotNumeral(v: string)
    requires NumeralText(v)
    ensures NumeralText("." + v)
  {
    assert forall k :: 1 <= k < |"." + v| ==> ("." + v)[k] == v[k - 1];
  }

  /** The parts of a concatenation are its slices. */
  lemma ConcatSlices(u: string, v: string, k: nat)
    requires k <= |v|
    ensures (u + v)[..|u|] == u && (u + v)[|u|..|u| + k] == v[..k]
  {
  }

  /** A run that fills a prefix stops where the prefix ends. */
  lemma PrefixRun(u: string, v: string, p: char -> bool)
    requires forall k :: 0 <= k < |u| ==> p(u[k])
    requires |v| == 0 || !p(v[0])
    ensures RunEnd(u + v, 0, p) == |u|
  {
    var s := u + v;
    assert forall k :: 0 <= k < |u| ==> s[k] == u[k];
    assert |v| > 0 ==> s[|u|] == v[0];
    RunEndAt(s, 0, |u|, p);
  }

  /** A run inside the second part of a concatenation ends where it ends in that part. */
  lemma {:induction false} RunEndShift(u: string, v: string, i: nat, p: char -> bool)
    requires i <= |v|
    ensures RunEnd(u + v, |u| + i, p) == |u| + RunEnd(v, i, p)
    decreases |v| - i
  {
    if i < |v| {
      assert (u + v)[|u| + i] == v[i];
      RunEndShift(u, v, i + 1, p);
    }
  }

  /** Numeral digits followed by numeral text are numeral text. */
  lemma NumeralConcat(a: string, b: string)
    requires NumeralText(a) && NumeralText(b)
    ensures NumeralText(a + b)
  {
    assert forall k :: 0 <= k < |a + b| ==> (a + b)[k] == if k < |a| then a[k] else b[k - |a|];
  }



  /** The text matches `/^[\d,]+\.?\d*$/`: digits and commas, then at most one dot and digits after it. */
  predicate NumberPattern(t: string)
  {
    |t| > 0 && DigitOrComma(t[0])
    && ((forall k :: 0 <= k < |t| ==> DigitOrComma(t[k]))
        || exists j :: 0 < j < |t| && t[j] == '.' && (forall k :: 0 <= k < j ==> DigitOrComma(t[k]))
                       && (forall k :: j < k < |t| ==> IsDigit(t[k])))
  }

  /**
   * `s[i..e]` is the match `/[\d,]+\.?\d*\/` finds: it starts at the first
   * digit or comma, has the pattern's shape, and no longer text from there
   * does.
   */
  predicate FirstMatch(s: string, i: nat, e: nat)
  {
    i < e <= |s|
    && (forall k :: 0 <= k < i ==> !DigitOrComma(s[k]))
    && NumberPattern(s[i..e])
    && forall e2 :: e < e2 <= |s| ==> !NumberPattern(s[i..e2])
  }

  /** At most one text is the first match. */
  lemma FirstMatchUnique(s: string, i: nat, e: nat, i2: nat, e2: nat)
    requires FirstMatch(s, i, e) && FirstMatch(s, i2, e2)
    ensures i == i2 && e == e2
  {
    assert s[i..e][0] == s[i] && s[i2..e2][0] == s[i2];
  }

  /** The greedy reading (digits and commas, an optional dot, digits) has the pattern's shape. */
  lemma GreedyMatchShape(s: string, i: nat, j: nat, j2: nat, e: nat)
    requires i < j <= |s| && (forall k :: i <= k < j ==> DigitOrComma(s[k])) && (j == |s| || !DigitOrComma(s[j]))
    requires j2 == if j < |s| && s[j] == '.' then j + 1 else j
    requires j2 <= e <= |s| && (forall k :: j2 <= k < e ==> IsDigit(s[k])) && (e == |s| || !IsDigit(s[e]))
    ensures NumberPattern(s[i..e])
  {
    var t := s[i..e];
    if j2 == j {
      assert e == j;
      assert forall k :: 0 <= k < |t| ==> t[k] == s[i + k];
    } else {
      var jj := j - i;
      assert t[jj] == '.';
      assert forall k :: 0 <= k < |t| ==> t[k] == s[i + k];
    }
  }

  /** No text longer than the greedy reading has the pattern's shape. */
  lemma GreedyMatchLongest(s: string, i: nat, j: nat, j2: nat, e: nat, e2: nat)
    requires i < j <= |s| && (forall k :: i <= k < j ==> DigitOrComma(s[k])) && (j == |s| || !DigitOrComma(s[j]))
    requires j2 == if j < |s| && s[j] == '.' then j + 1 else j
    requires j2 <= e <= |s| && (forall k :: j2 <= k < e ==> IsDigit(s[k])) && (e == |s| || !IsDigit(s[e]))
    requires e < e2 <= |s|
    ensures !NumberPattern(s[i..e2])
  {
    var t2 := s[i..e2];
    assert forall k :: 0 <= k < |t2| ==> t2[k] == s[i + k];
    assert t2[j - i] == s[j];
  }

  /** The greedy reading (digits and commas, an optional dot, digits) is the first match. */
  lemma GreedyMatchIsFirst(s: string, i: nat, j: nat, j2: nat, e: nat)
    requires i < |s| && (forall k :: 0 <= k < i ==> !DigitOrComma(s[k])) && DigitOrComma(s[i])
    requires i < j <= |s| && (forall k :: i <= k < j ==> DigitOrComma(s[k])) && (j == |s| || !DigitOrComma(s[j]))
    requires j2 == if j < |s| && s[j] == '.' then j + 1 else j
    requires j2 <= e <= |s| && (forall k :: j2 <= k < e ==> IsDigit(s[k])) && (e == |s| || !IsDigit(s[e]))
    ensures FirstMatch(s, i, e)
  {
    GreedyMatchShape(s, i, j, j2, e);
    forall e2 | e < e2 <= |s|
      ensures !NumberPattern(s[i..e2])
    {
      GreedyMatchLongest(s, i, j, j2, e, e2);
    }
  }

  /** The first match of `/[\d,]+\.?\d*\/`, if the text holds a digit or a comma. */
  function NumberMatch(s: string): (m: Option<string>)
    ensures m.None? <==> forall k :: 0 <= k < |s| ==> !DigitOrComma(s[k])
    ensures m.Some? ==> exists i: nat, e: nat :: FirstMatch(s, i, e) && m.value == s[i..e]
    ensures m.Some? ==> NumeralText(m.value)
  {
    var i := RunEnd(s, 0, NotDigitOrComma);
    if i == |s| then None
    else
      var j := RunEnd(s, i, DigitOrComma);
      var j2 := if j < |s| && s[j] == '.' then j + 1 else j;
      var e := RunEnd(s, j2, IsDigit);
      GreedyMatchIsFirst(s, i, j, j2, e);
      MatchIsNumeral(s[i..e]);
      Some(s[i..e])
  }

  /** A match is made of digits, commas and at most one dot. */
  /**
   * Digits and commas with no digit or comma before them, and neither a
   * digit, a comma nor a point after them, are the match.
   */
  lemma NumberMatchAt(pre: string, k: string, rest: string)
    requires forall i :: 0 <= i < |pre| ==> !DigitOrComma(pre[i])
    requires |k| > 0 && forall i :: 0 <= i < |k| ==> DigitOrComma(k[i])
    requires |rest| == 0 || (!DigitOrComma(rest[0]) && rest[0] != '.')
    ensures NumberMatch(pre + k + rest) == Some(k)
  {
    var s := pre + k + rest;
    var i, j := |pre|, |pre| + |k|;
    assert forall x :: 0 <= x < i ==> s[x] == pre[x];
    assert forall x :: i <= x < j ==> s[x] == k[x - i];
    assert j < |s| ==> s[j] == rest[0];
    RunEndAt(s, 0, i, NotDigitOrComma);
    RunEndAt(s, i, j, DigitOrComma);
    RunEndAt(s, j, j, IsDigit);
    assert s[i..j] == k;
  }

  /** A number written with thousands separators, "<w>,<g1>,<g2>", is matched whole. */
  lemma ThousandsMatch(pre: string, w: string, g1: string, g2: string, rest: string)
    requires forall i :: 0 <= i < |pre| ==> !DigitOrComma(pre[i])
    requires AllDigits(w) && |w| > 0 && AllDigits(g1) && AllDigits(g2)
    requires |rest| == 0 || (!DigitOrComma(rest[0]) && rest[0] != '.')
    ensures NumberMatch(pre + w + "," + g1 + "," + g2 + rest) == Some(w + "," + g1 + "," + g2)
  {
    var k := w + "," + g1 + "," + g2;
    assert forall i :: 0 <= i < |k| ==> DigitOrComma(k[i]);
    GroupsAssoc(pre, w, g1, g2, rest);
    NumberMatchAt(pre, k, rest);
  }

  /** Dropping every comma of "<w>,<g1>,<g2>" writes the groups one after another. */
  lemma KeepGroups(w: string, g1: string, g2: string)
    requires AllDigits(w) && AllDigits(g1) && AllDigits(g2)
    ensures Keep(w + "," + g1 + "," + g2, NotComma) == w + g1 + g2
  {
    KeepAll(w, NotComma);
    KeepAll(g1, NotComma);
    KeepAll(g2, NotComma);
    KeepNone(",", NotComma);
    KeepConcat(w, ",", NotComma);
    var s1 := w + ",";
    assert Keep(s1, NotComma) == w;
    KeepConcat(s1, g1, NotComma);
    var s2 := s1 + g1;
    assert Keep(s2, NotComma) == w + g1;
    KeepConcat(s2, ",", NotComma);
    var s3 := s2 + ",";
    assert Keep(s3, NotComma) == w + g1;
    KeepConcat(s3, g2, NotComma);
  }

  /** Removing the first comma of "<w>,<g1>,<g2>" joins the first two groups. */
  lemma RemoveFirstOfGroups(w: string, g1: string, g2: string)
    requires AllDigits(w)
    ensures RemoveFirst(w + "," + g1 + "," + g2, ',') == (w + g1) + ("," + g2)
  {
    assert ',' !in w;
    RemoveFirstAt(w, ',', g1 + "," + g2);
    CommaGroupsAssoc(w, g1, g2);
  }

  /** With the first comma of "<w>,<g1>,<g2>" removed, the number reads as "<w><g1>" and stops at the second comma. */
  lemma GroupsReadAsFirstTwo(w: string, g1: string, g2: string)
    requires AllDigits(w) && |w| > 0 && AllDigits(g1) && AllDigits(g2)
    ensures AllDigits(w + g1)
    ensures NumeralText(RemoveFirst(w + "," + g1 + "," + g2, ','))
    ensures ParseFloat(RemoveFirst(w + "," + g1 + "," + g2, ',')) == Num(DigitsValue(w + g1), 0)
  {
    var u := w + g1;
    var r := "," + g2;
    RemoveFirstOfGroups(w, g1, g2);
    AllDigitsConcat(w, g1);
    CommaThenDigits(g2);
    ParseFloatOfWhole(u, r);
  }

  /** A comma followed by digits is numeral text that starts with the comma. */
  lemma CommaThenDigits(g: string)
    requires AllDigits(g)
    ensures NumeralText("," + g) && ("," + g)[0] == ','
  {
    var r := "," + g;
    assert forall i :: 0 <= i < |r| ==> r[i] == ',' || IsDigit(r[i]);
  }

  lemma CommaGroupsAssoc(w: string, g1: string, g2: string)
    ensures w + "," + g1 + "," + g2 == w + [','] + (g1 + "," + g2)
    ensures w + (g1 + "," + g2) == (w + g1) + ("," + g2)
  {
  }

  lemma GroupsAssoc(pre: string, w: string, g1: string, g2: string, rest: string)
    ensures pre + w + "," + g1 + "," + g2 + rest == pre + (w + "," + g1 + "," + g2) + rest
  {
  }

  /** Dropping commas from a numeral text leaves a numeral text. */
  lemma {:induction false} KeepNumeral(s: string)
    requires NumeralText(s)
    ensures NumeralText(Keep(s, NotComma))
    decreases |s|
  {
    if |s| > 0 {
      KeepNumeral(s[1..]);
    }
  }

  /** Removing the first comma from a numeral text leaves a numeral text. */
  lemma {:induction false} RemoveFirstNumeral(s: string)
    requires NumeralText(s)
    ensures NumeralText(RemoveFirst(s, ','))
    decreases |s|
  {
    if |s| > 0 && s[0] != ',' {
      RemoveFirstNumeral(s[1..]);
      assert RemoveFirst(s, ',') == [s[0]] + RemoveFirst(s[1..], ',');
    }
  }

  lemma MatchIsNumeral(t: string)
    requires NumberPattern(t)
    ensures NumeralText(t)
  {
    if !(forall k :: 0 <= k < |t| ==> DigitOrComma(t[k])) {
      var j :| 0 < j < |t| && t[j] == '.' && (forall k :: 0 <= k < j ==> DigitOrComma(t[k]))
                && (forall k :: j < k < |t| ==> IsDigit(t[k]));
    }
  }

  /** The price the `[^0-9.]` filter leaves (`parseFloat(text.replace(/[^0-9.]/g, ''))`). */
  function StrippedPrice(text: string): Price
  {
    ParseFloat(Keep(text, DigitOrDot))
  }

  /** A price written with a decimal comma (`parseFloat(text.replace(/[^0-9,]/g, '').replace(',', '.'))`). */
  function CommaDecimalPrice(text: string): Price
  {
    ReplaceFirstNumeral(Keep(text, DigitOrComma), ',', '.');
    ParseFloat(ReplaceFirst(Keep(text, DigitOrComma), ',', '.'))
  }

  /** Replacing a character of a numeral text by a dot leaves a numeral text. */
  lemma {:induction false} ReplaceFirstNumeral(s: string, from: char, to: char)
    requires NumeralText(s) && to == '.'
    ensures NumeralText(ReplaceFirst(s, from, to))
    decreases |s|
  {
    if |s| > 0 && s[0] != from {
      ReplaceFirstNumeral(s[1..], from, to);
      assert ReplaceFirst(s, from, to) == [s[0]] + ReplaceFirst(s[1..], from, to);
    }
  }

  /** A price written "<kronor>,<öre>" reads as kronor and öre under the comma-decimal reading. */
  lemma CommaDecimalValue(kronor: string, ore: string)
    requires AllDigits(kronor) && |kronor| > 0 && AllDigits(ore)
    ensures AllDigits(kronor + ore)
    ensures CommaDecimalPrice(kronor + "," + ore) == Num(DigitsValue(kronor + ore), |ore|)
  {
    var k := kronor;
    CommaKept(k, ore);
    assert ',' !in k;
    ReplaceFirstAt(k, ',', '.', ore);
    AppendEmpty(k + "." + ore);
    ParseFloatOfDecimal(k, ore, "");
  }


  /** A text is itself followed by nothing. */
  lemma AppendEmpty(t: string)
    ensures t + "" == t
  {
  }

  /** The `[^0-9,]` filter keeps "<kronor>,<öre>" whole. */
  lemma CommaKept(k: string, ore: string)
    requires AllDigits(k) && AllDigits(ore)
    ensures Keep(k + "," + ore, DigitOrComma) == k + [','] + ore
  {
    assert k + "," + ore == (k + [',']) + ore;
    KeepConcat(k + [','], ore, DigitOrComma);
    KeepConcat(k, [','], DigitOrComma);
    KeepAll(k, DigitOrComma);
    KeepAll(ore, DigitOrComma);
    assert Keep([','], DigitOrComma) == [','] by {
      assert [','][1..] == [];
    }
  }


  /**
   * Filtering a text of six parts whose second, fourth and sixth parts pass
   * the filter and whose first, third and fifth parts it drops.
   */
  lemma KeepAlternating(a: string, b: string, c: string, d: string, e: string, f: string, keep: char -> bool)
    requires forall i :: 0 <= i < |a| ==> !keep(a[i])
    requires forall i :: 0 <= i < |b| ==> keep(b[i])
    requires forall i :: 0 <= i < |c| ==> !keep(c[i])
    requires forall i :: 0 <= i < |d| ==> keep(d[i])
    requires forall i :: 0 <= i < |e| ==> !keep(e[i])
    requires forall i :: 0 <= i < |f| ==> keep(f[i])
    ensures Keep(a + b + c + d + e + f, keep) == b + d + f
  {
    KeepNone(a, keep);
    KeepAll(b, keep);
    KeepNone(c, keep);
    KeepAll(d, keep);
    KeepNone(e, keep);
    KeepAll(f, keep);
    KeepConcat(a, b, keep);
    var s1 := a + b;
    assert Keep(s1, keep) == b;
    KeepConcat(s1, c, keep);
    var s2 := s1 + c;
    assert Keep(s2, keep) == b;
    KeepConcat(s2, d, keep);
    var s3 := s2 + d;
    assert Keep(s3, keep) == b + d;
    KeepConcat(s3, e, keep);
    var s4 := s3 + e;
    assert Keep(s4, keep) == b + d;
    KeepConcat(s4, f, keep);
  }

  /**
   * A label with a comma before the price ("Pris, exkl. moms: 45,00 kr"):
   * the label's comma is the first one left after filtering, so it becomes
   * the point and the kronor read as a fraction below one (0.45).
   */
  lemma CommaBeforeDigitsReadsAsFraction(pre: string, mid: string, kronor: string, ore: string, post: string)
    requires forall k :: 0 <= k < |pre| ==> !DigitOrComma(pre[k])
    requires forall k :: 0 <= k < |mid| ==> !DigitOrComma(mid[k])
    requires forall k :: 0 <= k < |post| ==> !DigitOrComma(post[k])
    requires AllDigits(kronor) && |kronor| > 0 && AllDigits(ore)
    ensures CommaDecimalPrice(pre + "," + mid + kronor + "," + ore + post)
              == Num(DigitsValue(kronor), |kronor|)
  {
    var k := kronor;
    var rest := "," + ore;
    var kept := Keep(pre + "," + mid + k + "," + ore + post, DigitOrComma);
    KeepAroundLabelComma(pre, mid, k, ore, post);
    LeadingCommaShape(k, rest);
    ReplaceFirstAt("", ',', '.', k + rest);
    assert ReplaceFirst(kept, ',', '.') == "" + "." + k + rest;
    CommaThenDigits(ore);
    ParseFloatOfDecimal("", k, rest);
    EmptyAround(k);
  }

  /** The `[^0-9,]` filter on a label comma before "<kronor>,<öre>" keeps both commas and the digits. */
  lemma KeepAroundLabelComma(pre: string, mid: string, k: string, ore: string, post: string)
    requires forall i :: 0 <= i < |pre| ==> !DigitOrComma(pre[i])
    requires forall i :: 0 <= i < |mid| ==> !DigitOrComma(mid[i])
    requires forall i :: 0 <= i < |post| ==> !DigitOrComma(post[i])
    requires AllDigits(k) && AllDigits(ore)
    ensures Keep(pre + "," + mid + k + "," + ore + post, DigitOrComma) == "," + k + ("," + ore)
  {
    var head := pre + "," + mid + k + "," + ore;
    var kept := "," + k + ("," + ore);
    NoDigitOrCommaKeepsNothing(post);
    LabelCommaHead(pre, mid, k, ore);
    KeepConcat(head, post, DigitOrComma);
    AppendEmpty(kept);
  }

  /** The same without the text after the price. */
  lemma LabelCommaHead(pre: string, mid: string, k: string, ore: string)
    requires forall i :: 0 <= i < |pre| ==> !DigitOrComma(pre[i])
    requires forall i :: 0 <= i < |mid| ==> !DigitOrComma(mid[i])
    requires AllDigits(k) && AllDigits(ore)
    ensures Keep(pre + "," + mid + k + "," + ore, DigitOrComma) == "," + k + ("," + ore)
  {
    var x := pre + "," + mid + k;
    CommaDigitsKept(ore);
    SingleKept(',', DigitOrComma);
    KeepAlternating(pre, ",", mid, k, "", "," + ore, DigitOrComma);
    AppendAssoc(x, ",", ore);
    AppendEmpty(x);
  }

  /** A text with no digit or comma has nothing left after the `[^0-9,]` filter. */
  lemma NoDigitOrCommaKeepsNothing(t: string)
    requires forall i :: 0 <= i < |t| ==> !DigitOrComma(t[i])
    ensures Keep(t, DigitOrComma) == ""
  {
    KeepNone(t, DigitOrComma);
  }

  /** A one-character text passes a filter that accepts its character. */
  lemma SingleKept(c: char, keep: char -> bool)
    requires keep(c)
    ensures forall i :: 0 <= i < |[c]| ==> keep([c][i])
  {
  }

  /** Every character of a comma followed by digits passes the `[^0-9,]` filter. */
  lemma CommaDigitsKept(ore: string)
    requires AllDigits(ore)
    ensures forall i :: 0 <= i < |"," + ore| ==> DigitOrComma(("," + ore)[i])
  {
    var r := "," + ore;
    assert forall i :: 1 <= i < |r| ==> r[i] == ore[i - 1];
  }

  /** A comma before `k` and `rest`, regrouped as `ReplaceFirstAt` reads it. */
  lemma LeadingCommaShape(k: string, rest: string)
    ensures "," + k + rest == "" + [','] + (k + rest)
  {
  }


  /** Under the `[^0-9.]` filter a price "<kronor>,<d1><d2>" loses its comma and reads as a hundredfold numeral. */
  lemma StrippedPriceDropsComma(kronor: nat, d1: char, d2: char)
    requires IsDigit(d1) && IsDigit(d2)
    ensures StrippedPrice(NatToString(kronor) + "," + [d1, d2])
              == Num(100 * kronor + 10 * DigitValue(d1) + DigitValue(d2), 0)
  {
    var k := NatToString(kronor);
    var digits := k + [d1, d2];
    KeepDigitsAndDotsIgnoresComma(k, [d1, d2]);
    assert forall i :: 0 <= i < |digits| ==> DigitOrDot(digits[i]);
    KeepAll(digits, DigitOrDot);
    assert Keep(k + "," + [d1, d2], DigitOrDot) == digits;
    ParseTwoMoreDigits(k, d1, d2);
    NatToStringRoundTrip(kronor);
    assert StrippedPrice(k + "," + [d1, d2]) == ParseFloat(digits);
  }

  /**
   * A label with a dot before the price ("exkl. moms 45,00 kr"): the dot of
   * the abbreviation survives the `[^0-9.]` filter and the comma does not, so
   * every digit of the price lands after the point (0.4500).
   */
  lemma AbbreviationDotReadsAsFraction(pre: string, mid: string, kronor: string, ore: string, post: string)
    requires forall k :: 0 <= k < |pre| ==> !DigitOrDot(pre[k])
    requires forall k :: 0 <= k < |mid| ==> !DigitOrDot(mid[k])
    requires forall k :: 0 <= k < |post| ==> !DigitOrDot(post[k])
    requires AllDigits(kronor) && |kronor| > 0 && AllDigits(ore)
    ensures AllDigits(kronor + ore)
    ensures StrippedPrice(pre + "." + mid + kronor + "," + ore + post)
              == Num(DigitsValue(kronor + ore), |kronor| + |ore|)
  {
    KeepAroundDot(pre, mid, kronor, ore, post);
    AllDigitsConcat(kronor, ore);
    ParseFloatOfFraction(kronor + ore);
  }



  /** The `[^0-9.]` filter keeps the label's dot and the price's digits, and drops its comma. */
  lemma KeepAroundDot(pre: string, mid: string, k: string, ore: string, post: string)
    requires forall i :: 0 <= i < |pre| ==> !DigitOrDot(pre[i])
    requires forall i :: 0 <= i < |mid| ==> !DigitOrDot(mid[i])
    requires forall i :: 0 <= i < |post| ==> !DigitOrDot(post[i])
    requires AllDigits(k) && AllDigits(ore)
    ensures Keep(pre + "." + mid + k + "," + ore + post, DigitOrDot) == "." + (k + ore)
  {
    KeepAlternating(pre, ".", mid, k, ",", ore, DigitOrDot);
    KeepConcat(pre + "." + mid + k + "," + ore, post, DigitOrDot);
    KeepNone(post, DigitOrDot);
    AppendAssoc(".", k, ore);
  }

  lemma AppendAssoc(a: string, b: string, c: string)
    ensures a + b + c == a + (b + c)
  {
  }

  /** A point followed by digits reads as those digits scaled by their count. */
  lemma ParseFloatOfFraction(f: string)
    requires AllDigits(f) && |f| > 0
    ensures NumeralText("." + f)
    ensures ParseFloat("." + f) == Num(DigitsValue(f), |f|)
  {
    EmptyAround(f);
    ParseFloatOfDecimal("", f, "");
  }

  /** Nothing before and after a text leaves it as it is. */
  lemma EmptyAround(f: string)
    ensures "" + "." + f + "" == "." + f && "" + f == f
  {
  }


  /** A run of digits followed by two more digits reads as that run's value shifted by two places. */
  lemma ParseTwoMoreDigits(k: string, d1: char, d2: char)
    requires forall i :: 0 <= i < |k| ==> IsDigit(k[i])
    requires IsDigit(d1) && IsDigit(d2)
    ensures NumeralText(k + [d1, d2])
    ensures ParseFloat(k + [d1, d2]) == Num(100 * DigitsValue(k) + 10 * DigitValue(d1) + DigitValue(d2), 0)
  {
    var k1 := k + [d1];
    var s := k1 + [d2];
    assert s == k + [d1, d2];
    assert forall i :: 0 <= i < |k1| ==> IsDigit(k1[i]);
    assert forall i :: 0 <= i < |s| ==> IsDigit(s[i]);
    RunEndAt(s, 0, |s|, IsDigit);
    assert s[..|s|] == s;
    var a := DigitsValue(k);
    var b := DigitsValue(k1);
    var c := DigitsValue(s);
    assert b == 10 * a + DigitValue(d1) by {
      assert k1[..|k1| - 1] == k;
    }
    assert c == 10 * b + DigitValue(d2) by {
      assert s[..|s| - 1] == k1;
    }
  }

  lemma {:induction false} KeepNone(s: string, keep: char -> bool)
    requires forall k :: 0 <= k < |s| ==> !keep(s[k])
    ensures Keep(s, keep) == []
    decreases |s|
  {
    if |s| > 0 {
      KeepNone(s[1..], keep);
    }
  }

  lemma {:induction false} KeepAll(s: string, keep: char -> bool)
    requires forall k :: 0 <= k < |s| ==> keep(s[k])
    ensures Keep(s, keep) == s
    decreases |s|
  {
    if |s| > 0 {
      KeepAll(s[1..], keep);
    }
  }

  /** How a parsed number is written back into a message (`${price}`): no trailing zeros after the point, no point for a whole number. */
  function NumberText(p: Price): string
    requires p.Num?
    decreases p.scale
  {
    if p.scale > 0 && p.digits % 10 == 0 then NumberText(Num(p.digits / 10, p.scale - 1))
    else if p.scale == 0 then NatToString(p.digits)
    else NatToString(p.digits / Pow10(p.scale)) + "." + ZeroPad(p.digits % Pow10(p.scale), p.scale)
  }

  /** A number below 10^w (w at least 1) has a numeral of at most w digits. */
  lemma {:induction false} NumeralWidth(n: nat, w: nat)
    requires w >= 1 && n < Pow10(w)
    ensures |NatToString(n)| <= w
    decreases w
  {
    if n >= 10 {
      assert w >= 2;
      assert n / 10 < Pow10(w - 1);
      NumeralWidth(n / 10, w - 1);
    }
  }

  /** A trailing zero after the point does not change the value. */
  lemma ScaleDown(k: nat, s: nat)
    ensures RealValue(Num(10 * k, s + 1)) == RealValue(Num(k, s))
  {
    var pw := Pow10(s) as real;
    assert Pow10(s + 1) as real == 10.0 * pw;
    assert (10 * k) as real == 10.0 * k as real;
    assert (10.0 * k as real) / (10.0 * pw) == k as real / pw;
  }

  /** A whole part and a fraction of `scale` digits that read as the quotient and remainder of `d` by 10^scale read back as `d` at that scale. */
  lemma FractionReadsBack(w: string, f: string, d: nat)
    requires AllDigits(w) && |w| > 0 && AllDigits(f) && |f| > 0
    requires DigitsValue(w) == d / Pow10(|f|) && DigitsValue(f) == d % Pow10(|f|)
    ensures NumeralText(w + "." + f) && ParseFloat(w + "." + f) == Num(d, |f|)
  {
    ParseFloatOfDecimal(w, f, "");
    assert w + "." + f + "" == w + "." + f;
    DigitsConcat(w, f);
    DivModParts(d, Pow10(|f|));
  }

  /** Quotient and remainder put back together give the number. */
  lemma DivModParts(d: nat, pw: nat)
    requires pw > 0
    ensures (d / pw) * pw + d % pw == d
  {
    assert d == pw * (d / pw) + d % pw;
  }

  /** A whole number is written as its numeral and reads back exactly. */
  lemma NumberTextOfWhole(d: nat)
    ensures NumeralText(NatToString(d)) && ParseFloat(NatToString(d)) == Num(d, 0)
  {
    NatToStringRoundTrip(d);
    ParseFloatOfDigits(NatToString(d));
  }

  /** Without a trailing zero after the point, the number is written with its whole part, a point and its padded fraction, and reads back exactly. */
  lemma NumberTextOfFraction(p: Price)
    requires p.Num? && p.scale > 0 && p.digits % 10 != 0
    ensures NumeralText(NumberText(p)) && ParseFloat(NumberText(p)) == p
  {
    var pw := Pow10(p.scale);
    var w := NatToString(p.digits / pw);
    var f := ZeroPad(p.digits % pw, p.scale);
    assert NumberText(p) == w + "." + f;
    NatToStringRoundTrip(p.digits / pw);
    NumeralWidth(p.digits % pw, p.scale);
    ZeroPadDigits(p.digits % pw, p.scale);
    FractionReadsBack(w, f, p.digits);
  }

  /** The text a number is written back as reads as the same number. */
  lemma {:induction false} NumberTextReadsBack(p: Price)
    requires p.Num?
    ensures NumeralText(NumberText(p))
    ensures ParseFloat(NumberText(p)).Num? && RealValue(ParseFloat(NumberText(p))) == RealValue(p)
    decreases p.scale
  {
    if p.scale > 0 && p.digits % 10 == 0 {
      var q := Num(p.digits / 10, p.scale - 1);
      assert NumberText(p) == NumberText(q);
      NumberTextReadsBack(q);
      ScaleDown(p.digits / 10, p.scale - 1);
      assert p == Num(10 * (p.digits / 10), (p.scale - 1) + 1);
    } else if p.scale == 0 {
      assert NumberText(p) == NatToString(p.digits);
      NumberTextOfWhole(p.digits);
    } else {
      NumberTextOfFraction(p);
    }
  }
}
