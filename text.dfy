/**
 * String operations the scripts rely on, in the JavaScript meaning:
 * `includes`, `toLowerCase`, `trim`, `String(n)` and `padStart`.
 * Strings are `seq<char>`.
 */
module Text {

  // ---------------------------------------------------------------------
  // includes
  // ---------------------------------------------------------------------

  /** `sub[k..]` matches `s` at position `i + k`, compared one character at a time. */
  predicate MatchAt(s: string, sub: string, i: nat, k: nat)
    requires i + |sub| <= |s| && k <= |sub|
    decreases |sub| - k
  {
    k == |sub| || (s[i + k] == sub[k] && MatchAt(s, sub, i, k + 1))
  }

  /** `sub` occurs in `s` at some position `i` or later. */
  predicate ContainsFrom(s: string, sub: string, i: nat)
    decreases |s| - i
  {
    i + |sub| <= |s| && (MatchAt(s, sub, i, 0) || ContainsFrom(s, sub, i + 1))
  }

  /** `s.includes(sub)`: the character-by-character search. */
  predicate Contains(s: string, sub: string)
  {
    ContainsFrom(s, sub, 0)
  }

  /** The reference definition of an occurrence: a slice of `s` equal to `sub`. */
  predicate OccursAt(s: string, sub: string, i: nat)
  {
    i + |sub| <= |s| && s[i..i + |sub|] == sub
  }

  lemma {:induction false} MatchAtMeansSlice(s: string, sub: string, i: nat, k: nat)
    requires i + |sub| <= |s| && k <= |sub|
    ensures MatchAt(s, sub, i, k) <==> s[i + k..i + |sub|] == sub[k..]
    decreases |sub| - k
  {
    if k < |sub| {
      MatchAtMeansSlice(s, sub, i, k + 1);
      assert s[i + k..i + |sub|] == [s[i + k]] + s[i + k + 1..i + |sub|];
      assert sub[k..] == [sub[k]] + sub[k + 1..];
    }
  }

  lemma {:induction false} ContainsFromMeansOccurrence(s: string, sub: string, i: nat)
    ensures ContainsFrom(s, sub, i) <==> exists j: nat :: i <= j && OccursAt(s, sub, j)
    decreases |s| - i
  {
    if i + |sub| <= |s| {
      MatchAtMeansSlice(s, sub, i, 0);
      ContainsFromMeansOccurrence(s, sub, i + 1);
      if MatchAt(s, sub, i, 0) {
        assert OccursAt(s, sub, i);
      }
      if exists j: nat :: i <= j && OccursAt(s, sub, j) {
        var j: nat :| i <= j && OccursAt(s, sub, j);
        if j == i {
          assert MatchAt(s, sub, i, 0);
        } else {
          assert i + 1 <= j && OccursAt(s, sub, j);
        }
      }
    }
  }

  /** The search finds exactly the occurrences the slice definition describes. */
  lemma ContainsMeansOccurrence(s: string, sub: string)
    ensures Contains(s, sub) <==> exists j: nat :: OccursAt(s, sub, j)
  {
    ContainsFromMeansOccurrence(s, sub, 0);
  }

  /** A known occurrence is found. */
  lemma ContainsAt(s: string, sub: string, j: nat)
    requires OccursAt(s, sub, j)
    ensures Contains(s, sub)
  {
    ContainsMeansOccurrence(s, sub);
  }

  /** A text contains each of its own slices. */
  lemma ContainsSlice(s: string, i: nat, j: nat)
    requires i <= j <= |s|
    ensures Contains(s, s[i..j])
  {
    ContainsAt(s, s[i..j], i);
  }

  /** An occurrence in a part of a text is an occurrence in the text. */
  lemma ContainsInConcat(a: string, b: string, sub: string)
    requires Contains(a, sub) || Contains(b, sub)
    ensures Contains(a + b, sub)
  {
    ContainsMeansOccurrence(a, sub);
    ContainsMeansOccurrence(b, sub);
    if Contains(a, sub) {
      var j: nat :| OccursAt(a, sub, j);
      assert (a + b)[j..j + |sub|] == a[j..j + |sub|];
      ContainsAt(a + b, sub, j);
    } else {
      var j: nat :| OccursAt(b, sub, j);
      assert (a + b)[|a| + j..|a| + j + |sub|] == b[j..j + |sub|];
      ContainsAt(a + b, sub, |a| + j);
    }
  }

  /** A string that occurs in what occurs in `s` occurs in `s`. */
  lemma ContainsTransitive(s: string, mid: string, sub: string)
    requires Contains(s, mid) && Contains(mid, sub)
    ensures Contains(s, sub)
  {
    ContainsMeansOccurrence(s, mid);
    ContainsMeansOccurrence(mid, sub);
    var j: nat :| OccursAt(s, mid, j);
    var k: nat :| OccursAt(mid, sub, k);
    assert mid == s[j..j + |mid|];
    forall t | 0 <= t < |sub|
      ensures s[j + k..j + k + |sub|][t] == sub[t]
    {
      assert sub[t] == mid[k..k + |sub|][t] == mid[k + t];
      assert mid[k + t] == s[j..j + |mid|][k + t] == s[j + k + t];
    }
    ContainsAt(s, sub, j + k);
  }

  /** Whether some string of `words` occurs in `s` (`words.some(w => s.includes(w))`). */
  predicate ContainsAny(s: string, words: seq<string>)
  {
    exists w :: w in words && Contains(s, w)
  }

  // ---------------------------------------------------------------------
  // toLowerCase
  // ---------------------------------------------------------------------

  /** Lower-case of one character: ASCII letters and the accented Latin-1 capitals (Å, Ä, Ö, É, ...). */
  function LowerChar(c: char): char
  {
    if 'A' <= c <= 'Z' then (c as int + 32) as char
    else if ('\U{00C0}' <= c <= '\U{00DE}') && c != '\U{00D7}' then (c as int + 32) as char
    else c
  }

  /** `s.toLowerCase()`, character by character. */
  function ToLower(s: string): string
  {
    seq(|s|, i requires 0 <= i < |s| => LowerChar(s[i]))
  }

  /** Lower-casing twice changes nothing more than lower-casing once. */
  lemma ToLowerIdempotent(s: string)
    ensures ToLower(ToLower(s)) == ToLower(s)
  {
    forall i | 0 <= i < |s|
      ensures ToLower(ToLower(s))[i] == ToLower(s)[i]
    {
      var c := s[i];
      assert LowerChar(LowerChar(c)) == LowerChar(c);
    }
  }

  /** A text already in lower case is its own lower-case. */
  lemma ToLowerOfLowerCase(s: string)
    requires forall i :: 0 <= i < |s| ==> LowerChar(s[i]) == s[i]
    ensures ToLower(s) == s
  {
  }

  /** Lower-casing keeps every occurrence: a text that contains `sub` still contains its lower-case. */
  lemma ToLowerKeepsOccurrence(s: string, sub: string)
    requires Contains(s, sub)
    ensures Contains(ToLower(s), ToLower(sub))
  {
    ContainsMeansOccurrence(s, sub);
    var j: nat :| OccursAt(s, sub, j);
    assert ToLower(s)[j..j + |sub|] == ToLower(sub) by {
      forall k | 0 <= k < |sub|
        ensures ToLower(s)[j..j + |sub|][k] == ToLower(sub)[k]
      {
        assert s[j + k] == sub[k];
      }
    }
    ContainsAt(ToLower(s), ToLower(sub), j);
  }

  // ---------------------------------------------------------------------
  // trim
  // ---------------------------------------------------------------------

  /** The characters `String.prototype.trim` removes (white space and line terminators). */
  predicate IsSpace(c: char)
  {
    c == ' ' || c == '\t' || c == '\n' || c == '\r' || c == '\U{000B}' || c == '\U{000C}'
    || c == '\U{00A0}' || c == '\U{1680}' || ('\U{2000}' <= c <= '\U{200A}')
    || c == '\U{2028}' || c == '\U{2029}' || c == '\U{202F}' || c == '\U{205F}'
    || c == '\U{3000}' || c == '\U{FEFF}'
  }

  /** The index of the first character at or after `i` that is not white space (`|s|` when none is). */
  function SkipSpace(s: string, i: nat): (r: nat)
    requires i <= |s|
    ensures i <= r <= |s|
    ensures forall k :: i <= k < r ==> IsSpace(s[k])
    ensures r == |s| || !IsSpace(s[r])
    decreases |s| - i
  {
    if i < |s| && IsSpace(s[i]) then SkipSpace(s, i + 1) else i
  }

  /** The index just after the last character before `j` and not before `lo` that is not white space (`lo` when none is). */
  function SkipSpaceBack(s: string, lo: nat, j: nat): (r: nat)
    requires lo <= j <= |s|
    ensures lo <= r <= j
    ensures forall k :: r <= k < j ==> IsSpace(s[k])
    ensures r == lo || !IsSpace(s[r - 1])
    decreases j
  {
    if j > lo && IsSpace(s[j - 1]) then SkipSpaceBack(s, lo, j - 1) else j
  }

  /** `r` is the slice of `s` starting at `i`, and everything of `s` before and after it is white space. */
  predicate IsTrimOf(s: string, r: string, i: nat)
  {
    i + |r| <= |s| && r == s[i..i + |r|]
    && (forall k :: 0 <= k < i ==> IsSpace(s[k]))
    && (forall k :: i + |r| <= k < |s| ==> IsSpace(s[k]))
  }

  /** `s.trim()`: the slice of `s` between its leading and its trailing white space. */
  function Trim(s: string): (r: string)
    ensures IsTrimOf(s, r, SkipSpace(s, 0))
    ensures |r| == 0 || (!IsSpace(r[0]) && !IsSpace(r[|r| - 1]))
  {
    var a := SkipSpace(s, 0);
    var b := SkipSpaceBack(s, a, |s|);
    s[a..b]
  }

  // ---------------------------------------------------------------------
  // Decimal numerals
  // ---------------------------------------------------------------------

  predicate IsDigit(c: char)
  {
    '0' <= c <= '9'
  }

  function DigitChar(d: nat): (c: char)
    requires d < 10
    ensures IsDigit(c)
  {
    ('0' as int + d) as char
  }

  function DigitValue(c: char): (d: nat)
    requires IsDigit(c)
    ensures d < 10 && DigitChar(d) == c
  {
    c as int - '0' as int
  }

  /** `String(n)` for a natural number: its decimal numeral without leading zeros. */
  function NatToString(n: nat): (r: string)
    ensures |r| > 0 && (forall k :: 0 <= k < |r| ==> IsDigit(r[k]))
    ensures n >= 10 ==> |r| >= 2
    decreases n
  {
    if n < 10 then [DigitChar(n)] else NatToString(n / 10) + [DigitChar(n % 10)]
  }

  /** The value of a string of decimal digits (`parseInt` on a digits-only string). */
  function DigitsValue(s: string): nat
    requires forall k :: 0 <= k < |s| ==> IsDigit(s[k])
    decreases |s|
  {
    if |s| == 0 then 0 else 10 * DigitsValue(s[..|s| - 1]) + DigitValue(s[|s| - 1])
  }

  /** Reading the numeral of `n` back gives `n`: the numerals of distinct numbers differ. */
  lemma {:induction false} NatToStringRoundTrip(n: nat)
    ensures DigitsValue(NatToString(n)) == n
    decreases n
  {
    var r := NatToString(n);
    if n >= 10 {
      NatToStringRoundTrip(n / 10);
      assert r[..|r| - 1] == NatToString(n / 10);
    }
  }

  /** Distinct numbers have distinct numerals. */
  lemma NatToStringInjective(m: nat, n: nat)
    requires m != n
    ensures NatToString(m) != NatToString(n)
  {
    NatToStringRoundTrip(m);
    NatToStringRoundTrip(n);
  }

  /** `c` repeated `n` times. */
  function Repeat(c: char, n: nat): (r: string)
    ensures |r| == n && forall k :: 0 <= k < n ==> r[k] == c
  {
    seq(n, k => c)
  }

  /** `s.padStart(width, c)`: `s` itself when at least `width` long, otherwise left-filled with `c` to `width`. */
  function PadStart(s: string, width: nat, c: char): (r: string)
    ensures |r| == if |s| >= width then |s| else width
    ensures r[|r| - |s|..] == s
    ensures forall k :: 0 <= k < |r| - |s| ==> r[k] == c
  {
    if |s| >= width then s else Repeat(c, width - |s|) + s
  }

  /** The numeral of `n` padded with zeros to `width` digits. */
  function ZeroPad(n: nat, width: nat): string
  {
    PadStart(NatToString(n), width, '0')
  }

  /** A number below 10^width pads to exactly `width` digits, and the padded numeral still reads as `n`. */
  lemma {:induction false} ZeroPadDigits(n: nat, width: nat)
    requires |NatToString(n)| <= width
    ensures |ZeroPad(n, width)| == width
    ensures forall k :: 0 <= k < width ==> IsDigit(ZeroPad(n, width)[k])
    ensures DigitsValue(ZeroPad(n, width)) == n
  {
    var s := NatToString(n);
    var r := ZeroPad(n, width);
    NatToStringRoundTrip(n);
    LeadingZerosValue(width - |s|, s);
    assert r == Repeat('0', width - |s|) + s;
  }

  lemma {:induction false} LeadingZerosValue(z: nat, s: string)
    requires forall k :: 0 <= k < |s| ==> IsDigit(s[k])
    ensures forall k :: 0 <= k < z + |s| ==> IsDigit((Repeat('0', z) + s)[k])
    ensures DigitsValue(Repeat('0', z) + s) == DigitsValue(s)
    decreases |s|
  {
    var t := Repeat('0', z) + s;
    if |s| == 0 {
      assert t == Repeat('0', z);
      AllZerosValue(z);
    } else {
      LeadingZerosValue(z, s[..|s| - 1]);
      assert t[..|t| - 1] == Repeat('0', z) + s[..|s| - 1];
    }
  }

  lemma {:induction false} AllZerosValue(z: nat)
    ensures DigitsValue(Repeat('0', z)) == 0
  {
    if z > 0 {
      AllZerosValue(z - 1);
      assert Repeat('0', z)[..z - 1] == Repeat('0', z - 1);
    }
  }

  /** Zero-padded numerals of distinct numbers below 10^width differ. */
  lemma ZeroPadInjective(m: nat, n: nat, width: nat)
    requires m != n && |NatToString(m)| <= width && |NatToString(n)| <= width
    ensures ZeroPad(m, width) != ZeroPad(n, width)
  {
    ZeroPadDigits(m, width);
    ZeroPadDigits(n, width);
  }

  /** The decimal numeral of a number below 1000 has at most three digits. */
  lemma ThreeDigitNumeral(n: nat)
    requires n < 1000
    ensures |NatToString(n)| <= 3
  {
    if n >= 10 {
      TwoDigitNumeral(n / 10);
    }
  }

  /** The decimal numeral of a number below 100 has at most two digits. */
  lemma TwoDigitNumeral(n: nat)
    requires n < 100
    ensures |NatToString(n)| <= 2
  {
  }
}
