/** Character classes, case folding, substring search and the PHP notions of
    truthiness that the plugin's string handling relies on. */
module Text {

  datatype Option<+T> = None | Some(value: T) {
    function GetOr(default: T): T {
      match this
      case Some(v) => v
      case None => default
    }
  }

  /** A value, or a `WP_Error` with its code and message. */
  datatype Result<+T> = Ok(value: T) | Err(code: string, message: string)

  function Min(a: int, b: int): int { if a <= b then a else b }
  function Max(a: int, b: int): int { if a >= b then a else b }

  // ---------------------------------------------------------------------
  // Character classes (byte-oriented PCRE without the u flag)
  // ---------------------------------------------------------------------

  predicate IsDigit(c: char) { '0' <= c <= '9' }

  /** `[A-Za-z]` */
  predicate IsLetter(c: char) { 'A' <= c <= 'Z' || 'a' <= c <= 'z' }

  /** PCRE `\s`: space, tab, line feed, vertical tab, form feed, carriage return. */
  predicate IsSpace(c: char) {
    c == ' ' || c == '\t' || c == '\n' || c == '\U{000B}' || c == '\U{000C}' || c == '\r'
  }

  /** Characters PHP's `trim` removes: space, tab, line feed, carriage return, NUL, vertical tab. */
  predicate IsTrimmed(c: char) {
    c == ' ' || c == '\t' || c == '\n' || c == '\r' || c == '\0' || c == '\U{000B}'
  }

  /** ASCII lower-casing, as `strtolower`, `stripos` and the `i` regex flag do it. */
  function Lower(c: char): (r: char)
    ensures IsLetter(c) <==> IsLetter(r)
    ensures !('A' <= r <= 'Z')
    ensures IsDigit(c) <==> IsDigit(r)
    ensures IsSpace(c) <==> IsSpace(r)
  {
    if 'A' <= c <= 'Z' then (c as int + 32) as char else c
  }

  function LowerStr(s: string): (r: string)
    ensures |r| == |s|
    ensures forall k :: 0 <= k < |s| ==> r[k] == Lower(s[k])
  {
    if s == [] then [] else [Lower(s[0])] + LowerStr(s[1..])
  }

  lemma {:induction false} LowerStrIdempotent(s: string)
    ensures LowerStr(LowerStr(s)) == LowerStr(s)
  {
    var a := LowerStr(LowerStr(s));
    var b := LowerStr(s);
    assert |a| == |b|;
    forall k | 0 <= k < |a| ensures a[k] == b[k] {
      assert !('A' <= b[k] <= 'Z');
    }
  }

  // ---------------------------------------------------------------------
  // Literal matching at a position
  // ---------------------------------------------------------------------

  /** `w` occurs in `s` at position `i`, comparing letters ASCII-case-insensitively
      when `ci` holds and exactly otherwise. */
  predicate LitAt(s: string, i: nat, w: string, ci: bool) {
    i + |w| <= |s| &&
    forall k :: 0 <= k < |w| ==> (if ci then Lower(s[i + k]) == Lower(w[k]) else s[i + k] == w[k])
  }

  /** The position just after the first of `words` (tried in order) that occurs at `i`. */
  function FirstLitEnd(s: string, i: nat, words: seq<string>, ci: bool): (r: Option<nat>)
    ensures r.Some? ==> exists k :: 0 <= k < |words| && LitAt(s, i, words[k], ci) && r.value == i + |words[k]|
    ensures r.None? ==> forall k :: 0 <= k < |words| ==> !LitAt(s, i, words[k], ci)
  {
    if words == [] then None
    else if LitAt(s, i, words[0], ci) then Some(i + |words[0]|)
    else
      var r := FirstLitEnd(s, i, words[1..], ci);
      assert forall k :: 1 <= k < |words| ==> words[k] == words[1..][k - 1];
      r
  }

  // ---------------------------------------------------------------------
  // stripos
  // ---------------------------------------------------------------------

  /** `stripos(haystack, needle, from)`: the first position at or after `from` where
      `needle` occurs ignoring ASCII case, or None (PHP's `false`). */
  function StrIPos(haystack: string, needle: string, from: nat): (r: Option<nat>)
    decreases |haystack| - from
  {
    if from + |needle| > |haystack| then None
    else if LitAt(haystack, from, needle, true) then Some(from)
    else StrIPos(haystack, needle, from + 1)
  }

  /** `stripos($haystack, $needle) !== false` */
  predicate IContains(haystack: string, needle: string) {
    StrIPos(haystack, needle, 0).Some?
  }

  lemma {:induction false} StrIPosSpec(haystack: string, needle: string, from: nat)
    ensures StrIPos(haystack, needle, from).Some? ==>
      var p := StrIPos(haystack, needle, from).value;
      from <= p && LitAt(haystack, p, needle, true) &&
      forall q :: from <= q < p ==> !LitAt(haystack, q, needle, true)
    ensures StrIPos(haystack, needle, from).None? ==>
      forall q :: from <= q ==> !LitAt(haystack, q, needle, true)
    decreases |haystack| - from
  {
    if from + |needle| > |haystack| {
    } else if LitAt(haystack, from, needle, true) {
    } else {
      StrIPosSpec(haystack, needle, from + 1);
    }
  }

  /** The substring test is exactly "occurs somewhere, ignoring case". */
  lemma IContainsIff(haystack: string, needle: string)
    ensures IContains(haystack, needle) <==> exists q: nat :: LitAt(haystack, q, needle, true)
  {
    StrIPosSpec(haystack, needle, 0);
  }

  /** A needle occurs, ignoring case, wherever any capitalisation of it is embedded. */
  lemma {:induction false} IContainsOfInfix(a: string, w: string, b: string, needle: string)
    requires LowerStr(w) == LowerStr(needle)
    ensures IContains(a + w + b, needle)
  {
    var h := a + w + b;
    assert LitAt(h, |a|, needle, true) by {
      forall k | 0 <= k < |needle| ensures Lower(h[|a| + k]) == Lower(needle[k]) {
        assert h[|a| + k] == w[k];
        assert LowerStr(w)[k] == LowerStr(needle)[k];
      }
    }
    IContainsIff(h, needle);
  }

  // ---------------------------------------------------------------------
  // Runs of one character class
  // ---------------------------------------------------------------------

  function SpaceEnd(s: string, i: nat): (e: nat)
    requires i <= |s|
    ensures i <= e <= |s|
    ensures forall k :: i <= k < e ==> IsSpace(s[k])
    ensures e == |s| || !IsSpace(s[e])
    decreases |s| - i
  {
    if i < |s| && IsSpace(s[i]) then SpaceEnd(s, i + 1) else i
  }

  function DigitEnd(s: string, i: nat): (e: nat)
    requires i <= |s|
    ensures i <= e <= |s|
    ensures forall k :: i <= k < e ==> IsDigit(s[k])
    ensures e == |s| || !IsDigit(s[e])
    decreases |s| - i
  {
    if i < |s| && IsDigit(s[i]) then DigitEnd(s, i + 1) else i
  }

  function LetterEnd(s: string, i: nat): (e: nat)
    requires i <= |s|
    ensures i <= e <= |s|
    ensures forall k :: i <= k < e ==> IsLetter(s[k])
    ensures e == |s| || !IsLetter(s[e])
    decreases |s| - i
  {
    if i < |s| && IsLetter(s[i]) then LetterEnd(s, i + 1) else i
  }

  predicate AllDigits(s: string) { forall k :: 0 <= k < |s| ==> IsDigit(s[k]) }
  predicate AllLetters(s: string) { forall k :: 0 <= k < |s| ==> IsLetter(s[k]) }

  /** PHP's `is_numeric`, on the strings the date patterns can capture: a capture is
      either all digits or all letters, and is numeric exactly when it is the former. */
  predicate IsNumeric(s: string) { |s| > 0 && AllDigits(s) }

  // ---------------------------------------------------------------------
  // Decimal digits
  // ---------------------------------------------------------------------

  function DigitValue(c: char): nat { if IsDigit(c) then c as int - '0' as int else 0 }

  /** The value of a string of decimal digits, most significant first. */
  function DigitsValue(d: string): nat {
    if d == [] then 0 else DigitsValue(d[..|d| - 1]) * 10 + DigitValue(d[|d| - 1])
  }

  /** A digit string has value zero exactly when none of its characters is a nonzero digit. */
  lemma {:induction false} DigitsValueZero(d: string)
    ensures DigitsValue(d) == 0 <==> forall k :: 0 <= k < |d| ==> DigitValue(d[k]) == 0
    decreases |d|
  {
    if d != [] {
      var init := d[..|d| - 1];
      DigitsValueZero(init);
      assert forall k :: 0 <= k < |init| ==> init[k] == d[k];
    }
  }

  /** Appending digits shifts the value of the prefix by the length of the suffix. */
  lemma {:induction false} DigitsValueAppend(a: string, b: string)
    ensures DigitsValue(a + b) == DigitsValue(a) * Pow10(|b|) + DigitsValue(b)
    decreases |b|
  {
    if b == [] {
      assert a + b == a;
    } else {
      var b' := b[..|b| - 1];
      var c := DigitValue(b[|b| - 1]);
      assert (a + b)[..|a + b| - 1] == a + b';
      assert (a + b)[|a + b| - 1] == b[|b| - 1];
      DigitsValueAppend(a, b');
      var x, p, y := DigitsValue(a), Pow10(|b'|), DigitsValue(b');
      assert DigitsValue(a + b) == (x * p + y) * 10 + c;
      assert (x * p + y) * 10 + c == x * (p * 10) + (y * 10 + c) by { ShiftDigit(x, p, y, c); }
    }
  }

  lemma ShiftDigit(x: int, p: int, y: int, c: int)
    ensures (x * p + y) * 10 + c == x * (p * 10) + (y * 10 + c)
  {
  }

  /** `s` without its ',' and '.' characters. */
  function Unpunctuated(s: string): (r: string)
    ensures forall k :: 0 <= k < |r| ==> r[k] != ',' && r[k] != '.'
    ensures AllDigits(s) ==> r == s
  {
    if s == [] then []
    else if s[|s| - 1] == ',' || s[|s| - 1] == '.' then Unpunctuated(s[..|s| - 1])
    else Unpunctuated(s[..|s| - 1]) + [s[|s| - 1]]
  }

  function DigitChar(n: nat): (c: char)
    requires n < 10
    ensures IsDigit(c) && DigitValue(c) == n
  {
    ('0' as int + n) as char
  }

  /** Decimal rendering of a natural number without leading zeros. */
  function NatToDigits(n: nat): (d: string)
    ensures |d| > 0 && AllDigits(d)
    decreases n
  {
    if n < 10 then [DigitChar(n)] else NatToDigits(n / 10) + [DigitChar(n % 10)]
  }

  lemma {:induction false} NatToDigitsValue(n: nat)
    ensures DigitsValue(NatToDigits(n)) == n
    decreases n
  {
    if n >= 10 {
      NatToDigitsValue(n / 10);
      var d := NatToDigits(n);
      assert d[..|d| - 1] == NatToDigits(n / 10);
    }
  }

  /** `n` written with exactly `width` digits, zero-padded on the left (for `n < 10^width`). */
  function PadDigits(n: nat, width: nat): (d: string)
    ensures |d| == width && AllDigits(d)
    decreases width
  {
    if width == 0 then [] else PadDigits(n / 10, width - 1) + [DigitChar(n % 10)]
  }

  function Pow10(k: nat): (p: nat)
    ensures p >= 1
  {
    if k == 0 then 1 else 10 * Pow10(k - 1)
  }

  lemma {:induction false} PadDigitsValue(n: nat, width: nat)
    requires n < Pow10(width)
    ensures DigitsValue(PadDigits(n, width)) == n
    decreases width
  {
    if width > 0 {
      PadDigitsValue(n / 10, width - 1);
      var d := PadDigits(n, width);
      assert d[..|d| - 1] == PadDigits(n / 10, width - 1);
    }
  }

  // ---------------------------------------------------------------------
  // PHP truthiness and `substr`
  // ---------------------------------------------------------------------

  /** A PHP string is falsy exactly when it is "" or "0" (`empty()` and `if ($s)`). */
  predicate Truthy(s: string) { s != "" && s != "0" }

  /** `substr($s, 0, n)` on a string of at least zero characters. */
  function Take(s: string, n: nat): (r: string)
    ensures |r| == if |s| <= n then |s| else n
    ensures r == s[..|r|]
  {
    if |s| <= n then s else s[..n]
  }
}
