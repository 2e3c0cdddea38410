/**
 * The few Python `str` operations the recipe normalizer relies on:
 * `strip()`, `lower()`, `str(int)` and `float(str)`.
 */
module Text {
  import opened Wrappers

  /** Python's `str.isspace()` for one character (the characters `strip()` removes). */
  predicate IsSpace(c: char) {
    || c == ' ' || c == '\t' || c == '\n' || c == '\r'
    || ('\U{0B}' <= c <= '\U{0C}') || ('\U{1C}' <= c <= '\U{1F}')
    || c == '\U{85}' || c == '\U{A0}' || c == '\U{1680}'
    || ('\U{2000}' <= c <= '\U{200A}')
    || c == '\U{2028}' || c == '\U{2029}' || c == '\U{202F}' || c == '\U{205F}' || c == '\U{3000}'
  }

  /** Every character of `s` is white space (vacuously so for the empty string). */
  predicate AllSpace(s: string) {
    forall i | 0 <= i < |s| :: IsSpace(s[i])
  }

  /** `s` neither starts nor ends with white space. */
  predicate Trimmed(s: string) {
    s == [] || (!IsSpace(s[0]) && !IsSpace(s[|s| - 1]))
  }

  /** The first index at or after `i` whose character is not white space, or `|s|`. */
  function SkipSpace(s: string, i: nat): (k: nat)
    requires i <= |s|
    ensures i <= k <= |s|
    ensures k < |s| ==> !IsSpace(s[k])
    ensures forall j | i <= j < k :: IsSpace(s[j])
    decreases |s| - i
  {
    if i < |s| && IsSpace(s[i]) then SkipSpace(s, i + 1) else i
  }

  /** The index just past the last character before `i` that is not white space, or 0. */
  function SkipSpaceBack(s: string, i: nat): (k: nat)
    requires i <= |s|
    ensures k <= i
    ensures 0 < k ==> !IsSpace(s[k - 1])
    ensures forall j | k <= j < i :: IsSpace(s[j])
  {
    if 0 < i && IsSpace(s[i - 1]) then SkipSpaceBack(s, i - 1) else i
  }

  /** `SkipSpace` stops exactly at the end of a run of white space. */
  lemma SkipSpaceAt(s: string, i: nat, k: nat)
    requires i <= k <= |s|
    requires k < |s| ==> !IsSpace(s[k])
    requires forall j | i <= j < k :: IsSpace(s[j])
    ensures SkipSpace(s, i) == k
  {
    var m := SkipSpace(s, i);
    assert m < |s| ==> !IsSpace(s[m]);
  }

  /** `SkipSpaceBack` stops exactly at the start of a run of white space. */
  lemma SkipSpaceBackAt(s: string, i: nat, k: nat)
    requires k <= i <= |s|
    requires 0 < k ==> !IsSpace(s[k - 1])
    requires forall j | k <= j < i :: IsSpace(s[j])
    ensures SkipSpaceBack(s, i) == k
  {
    var m := SkipSpaceBack(s, i);
    assert 0 < m ==> !IsSpace(s[m - 1]);
  }

  /** `s.strip()`: the longest infix of `s` without white space at either end. */
  function Strip(s: string): (r: string)
    ensures Trimmed(r)
  {
    var a := SkipSpace(s, 0);
    if a == |s| then [] else
      var b := SkipSpaceBack(s, |s|);
      assert a < b by { assert !IsSpace(s[a]); }
      s[a..b]
  }

  /** `s.strip()` cuts only white space, and only from the two ends of `s`. */
  lemma StripIsInfix(s: string) returns (a: nat, b: nat)
    ensures a <= b <= |s| && Strip(s) == s[a..b]
    ensures AllSpace(s[..a]) && AllSpace(s[b..])
  {
    a := SkipSpace(s, 0);
    if a == |s| {
      b := a;
    } else {
      b := SkipSpaceBack(s, |s|);
      assert a < b by { assert !IsSpace(s[a]); }
    }
    assert forall j | 0 <= j < a :: s[..a][j] == s[j];
    assert forall j | 0 <= j < |s| - b :: s[b..][j] == s[b + j];
  }

  /** `s.strip() == ""` */
  predicate IsBlank(s: string) {
    Strip(s) == []
  }

  /** A string that `strip()` leaves unchanged. */
  lemma StripTrimmed(s: string)
    requires Trimmed(s)
    ensures Strip(s) == s
  {
    if s != [] {
      SkipSpaceAt(s, 0, 0);
      SkipSpaceBackAt(s, |s|, |s|);
      assert s[0..|s|] == s;
    }
  }

  /** `strip()` is idempotent: an already stripped name is stored unchanged. */
  lemma StripIdempotent(s: string)
    ensures Strip(Strip(s)) == Strip(s)
  {
    StripTrimmed(Strip(s));
  }

  /** `s.strip()` is empty exactly when `s` is blank (empty or only white space). */
  lemma StripEmptyIffBlank(s: string)
    ensures Strip(s) == [] <==> AllSpace(s)
  {
    var a := SkipSpace(s, 0);
    if a < |s| {
      assert !IsSpace(s[a]);
      var b := SkipSpaceBack(s, |s|);
      assert a < b by { assert !IsSpace(s[a]); }
      assert Strip(s) == s[a..b];
    }
  }

  /** `strip()` gives back a non-blank stripped text from between any white space. */
  lemma StripSurrounded(pre: string, s: string, post: string)
    requires AllSpace(pre) && AllSpace(post) && Trimmed(s) && s != []
    ensures Strip(pre + s + post) == s
  {
    var t := pre + s + post;
    var a, b := |pre|, |pre| + |s|;
    assert t[a] == s[0] && t[b - 1] == s[|s| - 1];
    forall j | 0 <= j < a ensures IsSpace(t[j]) {
      assert t[j] == pre[j];
    }
    forall j | b <= j < |t| ensures IsSpace(t[j]) {
      assert t[j] == post[j - b];
    }
    SkipSpaceAt(t, 0, a);
    SkipSpaceBackAt(t, |t|, b);
    assert t[a..b] == s;
  }

  /** ASCII `str.lower()` for one character. */
  function LowerChar(c: char): char {
    if 'A' <= c <= 'Z' then (c as int + 32) as char else c
  }

  /** `s.lower()`, restricted to the ASCII letters. */
  function Lower(s: string): (r: string)
    ensures |r| == |s|
    ensures forall i | 0 <= i < |s| :: r[i] == LowerChar(s[i])
  {
    seq(|s|, i requires 0 <= i < |s| => LowerChar(s[i]))
  }

  /** Lower-casing twice is lower-casing once. */
  lemma LowerIdempotent(s: string)
    ensures Lower(Lower(s)) == Lower(s)
  {
  }

  /** Lower-casing never turns a character into, or out of, white space. */
  lemma LowerKeepsSpace(c: char)
    ensures IsSpace(LowerChar(c)) <==> IsSpace(c)
  {
  }

  /** Two strings with white space at the same places are stripped at the same places. */
  lemma StripSamePlaces(s: string, t: string) returns (a: nat, b: nat)
    requires |s| == |t|
    requires forall j | 0 <= j < |s| :: IsSpace(s[j]) <==> IsSpace(t[j])
    ensures a <= b <= |s| && Strip(s) == s[a..b] && Strip(t) == t[a..b]
  {
    a := SkipSpace(s, 0);
    SkipSpaceAt(t, 0, a);
    if a == |s| {
      b := a;
    } else {
      b := SkipSpaceBack(s, |s|);
      SkipSpaceBackAt(t, |t|, b);
      assert a < b by { assert !IsSpace(s[a]); }
    }
  }

  /** `s.lower().strip() == s.strip().lower()`. */
  lemma LowerStrip(s: string)
    ensures Strip(Lower(s)) == Lower(Strip(s))
  {
    var t := Lower(s);
    forall j | 0 <= j < |s| ensures IsSpace(s[j]) <==> IsSpace(t[j]) {
      LowerKeepsSpace(s[j]);
    }
    var a, b := StripSamePlaces(s, t);
    assert Lower(s[a..b]) == t[a..b];
  }

  predicate IsDigit(c: char) {
    '0' <= c <= '9'
  }

  predicate AllDigits(s: string) {
    forall i | 0 <= i < |s| :: IsDigit(s[i])
  }

  function DigitChar(d: nat): (c: char)
    requires d < 10
    ensures IsDigit(c)
  {
    ('0' as int + d) as char
  }

  /** The value of a string of decimal digits, most significant first. */
  function DigitsValue(s: string): nat
    requires AllDigits(s)
  {
    if s == [] then 0 else 10 * DigitsValue(s[..|s| - 1]) + (s[|s| - 1] as int - '0' as int)
  }

  /** `str(n)` for a natural number. */
  function NatToString(n: nat): (r: string)
    ensures r != [] && AllDigits(r)
  {
    if n < 10 then [DigitChar(n)] else NatToString(n / 10) + [DigitChar(n % 10)]
  }

  /** Reading back the decimal text of a number gives the number. */
  lemma {:induction false} NatToStringRoundTrip(n: nat)
    ensures DigitsValue(NatToString(n)) == n
  {
    if n >= 10 {
      var s := NatToString(n);
      assert s[..|s| - 1] == NatToString(n / 10);
      NatToStringRoundTrip(n / 10);
    }
  }

  /** `str(i)` for an integer. */
  function IntToString(i: int): string {
    if i < 0 then "-" + NatToString(-i) else NatToString(i)
  }

  function Pow10(n: nat): (p: nat)
    ensures p >= 1
  {
    if n == 0 then 1 else 10 * Pow10(n - 1)
  }

  /** The position of the first `.` in `s`, or `|s|` when there is none. */
  function DotIndex(s: string): (k: nat)
    ensures k <= |s| && '.' !in s[..k]
    ensures forall i | 0 <= i < k :: s[i] != '.'
    ensures k < |s| ==> s[k] == '.'
  {
    if s == [] then 0
    else if s[0] == '.' then 0
    else
      var k := DotIndex(s[1..]);
      assert s[..k + 1] == [s[0]] + s[1..][..k];
      k + 1
  }

  /** The value of the decimal digits `whole.frac`. */
  function DecimalValue(whole: string, frac: string): real
    requires AllDigits(whole) && AllDigits(frac)
  {
    DigitsValue(whole) as real + DigitsValue(frac) as real / Pow10(|frac|) as real
  }

  /** The decimal mantissa `digits[.digits]` or `.digits`, with at least one digit. */
  function MantissaValue(s: string): Option<real> {
    var k := DotIndex(s);
    if k == |s| then
      if AllDigits(s) && s != [] then Some(DigitsValue(s) as real) else None
    else
      var whole, frac := s[..k], s[k + 1..];
      if AllDigits(whole) && AllDigits(frac) && |whole| + |frac| > 0 then
        Some(DecimalValue(whole, frac))
      else None
  }

  /**
   * `float(s)` for plain decimal text: surrounding white space, an optional sign and
   * a decimal mantissa. `None` stands for the ValueError Python raises.
   */
  function ParseDecimal(s: string): (r: Option<real>)
    ensures AllSpace(s) ==> r == None
  {
    var t := Strip(s);
    StripEmptyIffBlank(s);
    if t == [] then None
    else if t[0] == '-' then
      match MantissaValue(t[1..])
      case Some(v) => Some(-v)
      case None => None
    else if t[0] == '+' then MantissaValue(t[1..])
    else MantissaValue(t)
  }

  /** The first dot of `whole.frac` is the one after `whole`. */
  lemma DotIndexOfPlain(whole: string, frac: string)
    requires AllDigits(whole)
    ensures DotIndex(whole + "." + frac) == |whole|
  {
    var s := whole + "." + frac;
    var k := DotIndex(s);
    assert s[|whole|] == '.';
    assert forall i | 0 <= i < |whole| :: s[i] == whole[i];
  }

  /** The mantissa `whole.frac` is the whole part plus the fraction. */
  lemma MantissaOfPlain(whole: string, frac: string)
    requires whole != [] && AllDigits(whole) && AllDigits(frac)
    ensures MantissaValue(whole + "." + frac) == Some(DecimalValue(whole, frac))
  {
    var s := whole + "." + frac;
    DotIndexOfPlain(whole, frac);
    assert s[..|whole|] == whole;
    assert s[|whole| + 1..] == frac;
  }

  /** Text that starts with a digit and has no surrounding white space is read as a mantissa. */
  lemma ParseDecimalOfUnsigned(t: string)
    requires t != [] && IsDigit(t[0]) && !IsSpace(t[|t| - 1])
    ensures ParseDecimal(t) == MantissaValue(t)
  {
    StripTrimmed(t);
  }

  /** Plain decimal text `whole.frac` reads as its value. */
  lemma ParseDecimalOfPlain(whole: string, frac: string)
    requires whole != [] && AllDigits(whole) && AllDigits(frac)
    ensures ParseDecimal(whole + "." + frac) == Some(DecimalValue(whole, frac))
  {
    var s := whole + "." + frac;
    assert s[0] == whole[0];
    assert s[|s| - 1] == '.' || IsDigit(s[|s| - 1]);
    ParseDecimalOfUnsigned(s);
    MantissaOfPlain(whole, frac);
  }

  /** `float(str(n)) == n` for a natural number. */
  lemma ParseDecimalOfNat(n: nat)
    ensures ParseDecimal(NatToString(n)) == Some(n as real)
  {
    var s := NatToString(n);
    assert IsDigit(s[0]) && IsDigit(s[|s| - 1]);
    StripTrimmed(s);
    assert DotIndex(s) == |s|;
    NatToStringRoundTrip(n);
    assert MantissaValue(s) == Some(n as real);
    assert s[0] != '-' && s[0] != '+';
  }
}
