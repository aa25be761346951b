/**
 * String helpers shared by the naming rules: suffix tests (plain and
 * ignoring case), Kotlin's `trim()` and `isNullOrBlank()`, decimal
 * rendering of an `Int`, and the lexicographic order of `String.compareTo`.
 */
module Text {

  import opened Wrappers

  /** Kotlin's `s.endsWith(suffix)`. */
  predicate EndsWith(s: string, suffix: string) {
    |suffix| <= |s| && s[|s| - |suffix|..] == suffix
  }

  lemma AppendedEndsWith(s: string, suffix: string)
    ensures EndsWith(s + suffix, suffix)
  {
    assert (s + suffix)[|s|..] == suffix;
  }

  /** ASCII lower-casing; every other character is left alone. */
  function LowerAscii(c: char): (r: char)
    ensures 'A' <= c <= 'Z' ==> r as int == c as int + 32
    ensures !('A' <= c <= 'Z') ==> r == c
  {
    if 'A' <= c <= 'Z' then (c as int + 32) as char else c
  }

  /** `a.equals(b, ignoreCase = true)` on characters, by case folding. */
  predicate SameIgnoringCase(a: char, b: char) {
    LowerAscii(a) == LowerAscii(b)
  }

  /** Kotlin's `s.endsWith(suffix, ignoreCase = true)`. */
  predicate EndsWithIgnoreCase(s: string, suffix: string) {
    |suffix| <= |s| &&
    forall i :: 0 <= i < |suffix| ==> SameIgnoringCase(s[|s| - |suffix| + i], suffix[i])
  }

  lemma EndsWithIgnoresCase(s: string, suffix: string)
    requires EndsWith(s, suffix)
    ensures EndsWithIgnoreCase(s, suffix)
  {
    forall i | 0 <= i < |suffix|
      ensures SameIgnoringCase(s[|s| - |suffix| + i], suffix[i])
    {
      assert s[|s| - |suffix|..][i] == suffix[i];
    }
  }

  /** Whitespace test used by `trim()`; Kotlin's is Unicode-aware, so it is a parameter. */
  type CharTest = char -> bool

  /** Kotlin's `trimStart()` under the whitespace test `ws`. */
  function TrimStart(ws: CharTest, s: string): (r: string)
    ensures |r| <= |s| && r == s[|s| - |r|..]
    ensures forall i :: 0 <= i < |s| - |r| ==> ws(s[i])
    ensures |r| > 0 ==> !ws(r[0])
    decreases |s|
  {
    if |s| > 0 && ws(s[0]) then TrimStart(ws, s[1..]) else s
  }

  /** Kotlin's `trimEnd()` under the whitespace test `ws`. */
  function TrimEnd(ws: CharTest, s: string): (r: string)
    ensures |r| <= |s| && r == s[..|r|]
    ensures forall i :: |r| <= i < |s| ==> ws(s[i])
    ensures |r| > 0 ==> !ws(r[|r| - 1])
    decreases |s|
  {
    if |s| > 0 && ws(s[|s| - 1]) then TrimEnd(ws, s[..|s| - 1]) else s
  }

  /** Kotlin's `trim()`: leading and trailing whitespace removed. */
  function Trim(ws: CharTest, s: string): (r: string)
  {
    TrimEnd(ws, TrimStart(ws, s))
  }

  /**
   * What `trim()` promises: the result is a contiguous piece of the input,
   * everything cut away is whitespace, and neither end of a non-empty result
   * is whitespace.
   */
  lemma TrimSpec(ws: CharTest, s: string)
    ensures var r := Trim(ws, s);
      exists a, b :: 0 <= a <= b <= |s| && r == s[a..b] &&
        (forall i :: 0 <= i < a ==> ws(s[i])) &&
        (forall i :: b <= i < |s| ==> ws(s[i])) &&
        (|r| > 0 ==> !ws(r[0]) && !ws(r[|r| - 1]))
  {
    var t := TrimStart(ws, s);
    var r := TrimEnd(ws, t);
    var a := |s| - |t|;
    var b := a + |r|;
    assert r == s[a..b];
    assert forall i :: 0 <= i < a ==> ws(s[i]);
    forall i | b <= i < |s| ensures ws(s[i]) {
      assert s[i] == t[i - a];
    }
    if |r| > 0 {
      assert r[0] == t[0];
    }
    assert 0 <= a <= b <= |s| && r == s[a..b] &&
      (forall i :: 0 <= i < a ==> ws(s[i])) &&
      (forall i :: b <= i < |s| ==> ws(s[i])) &&
      (|r| > 0 ==> !ws(r[0]) && !ws(r[|r| - 1]));
  }

  /** A string with no whitespace at its ends is its own trim. */
  lemma TrimUnpadded(ws: CharTest, s: string)
    requires |s| > 0 ==> !ws(s[0]) && !ws(s[|s| - 1])
    ensures Trim(ws, s) == s
  {
    assert TrimStart(ws, s) == s;
  }

  /** Trimming leaves nothing exactly when every character is whitespace. */
  lemma TrimEmptyIffAllWhitespace(ws: CharTest, s: string)
    ensures |Trim(ws, s)| == 0 <==> forall i :: 0 <= i < |s| ==> ws(s[i])
  {
    var t := TrimStart(ws, s);
    if |Trim(ws, s)| == 0 && |t| > 0 {
      assert false;
    }
  }

  /** Kotlin's `isNullOrBlank()`. */
  predicate IsNullOrBlank(ws: CharTest, s: Option<string>)
  {
    match s
    case None => true
    case Some(v) => forall i :: 0 <= i < |v| ==> ws(v[i])
  }

  /** The decimal digits of a natural number, most significant first. */
  function NatToDecimal(n: nat): (r: string)
    ensures |r| > 0
    ensures forall i :: 0 <= i < |r| ==> '0' <= r[i] <= '9'
    decreases n
  {
    if n < 10 then [(n + '0' as int) as char]
    else NatToDecimal(n / 10) + [((n % 10) + '0' as int) as char]
  }

  /** The number a string of decimal digits denotes. */
  function DecimalValue(digits: string): nat
    requires forall i :: 0 <= i < |digits| ==> '0' <= digits[i] <= '9'
  {
    if |digits| == 0 then 0
    else DecimalValue(digits[..|digits| - 1]) * 10 + (digits[|digits| - 1] as int - '0' as int)
  }

  /** Reading back the digits gives the number. */
  lemma {:induction false} NatToDecimalRoundTrip(n: nat)
    ensures DecimalValue(NatToDecimal(n)) == n
    decreases n
  {
    var r := NatToDecimal(n);
    if n >= 10 {
      NatToDecimalRoundTrip(n / 10);
      assert r[..|r| - 1] == NatToDecimal(n / 10);
    }
  }

  /** String template rendering of an `Int` (`"$i"`). */
  function IntToDecimal(i: int): (r: string)
    ensures |r| > 0
    ensures i < 0 <==> r[0] == '-'
    ensures i >= 0 ==> AllDigits(r) && DecimalValue(r) == i
    ensures i < 0 ==> AllDigits(r[1..]) && DecimalValue(r[1..]) == -i
  {
    if i < 0 then
      var digits := NatToDecimal(-i);
      NatToDecimalRoundTrip(-i);
      assert ("-" + digits)[1..] == digits;
      "-" + digits
    else
      NatToDecimalRoundTrip(i);
      NatToDecimal(i)
  }

  /** Every character is a decimal digit. */
  predicate AllDigits(s: string) {
    forall i :: 0 <= i < |s| ==> '0' <= s[i] <= '9'
  }

  /** `String.compareTo(...) <= 0`: lexicographic order on characters. */
  predicate LexLe(a: string, b: string)
    decreases |a|
  {
    |a| == 0 || (|b| > 0 && (a[0] < b[0] || (a[0] == b[0] && LexLe(a[1..], b[1..]))))
  }

  lemma {:induction false} LexLeTotal(a: string, b: string)
    ensures LexLe(a, b) || LexLe(b, a)
    decreases |a|
  {
    if |a| > 0 && |b| > 0 && a[0] == b[0] {
      LexLeTotal(a[1..], b[1..]);
    }
  }

  lemma {:induction false} LexLeTransitive(a: string, b: string, c: string)
    requires LexLe(a, b) && LexLe(b, c)
    ensures LexLe(a, c)
    decreases |a|
  {
    if |a| > 0 && a[0] == b[0] && b[0] == c[0] {
      LexLeTransitive(a[1..], b[1..], c[1..]);
    }
  }
}
